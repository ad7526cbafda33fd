/** What a run of the loop needs of its environment to do one thing at a time (src/controller/loop-coordinator.ts:361-397,
  * 627-710).
  *
  * The host must not report a turn's end at the few moments where it would be taken for another turn's, and a compaction
  * must not begin while a send waits for the one before it. Everything else may come at any time. */
module LoopGuards {
  import opened Collections
  import opened ScoredLoop
  import opened LoopMachine

  // ---------------------------------------------------------------- ends of turns

  /** Prompts that wait at the publish before they go out. */
  function Sends(stack: seq<Frame>): nat {
    if stack == [] then 0
    else
      var f := stack[|stack| - 1];
      Sends(stack[..|stack| - 1]) + Bit(f.StartSent? || f.FlushSend?)
  }

  /** Answers that are about to be judged. */
  function Answers(stack: seq<Frame>): nat {
    if stack == [] then 0 else Answers(stack[..|stack| - 1]) + Bit(stack[|stack| - 1].Answering?)
  }

  /** A verdict would lead to another prompt: for another attempt, or for a step that is not verified first or whose section
    * may be missing. */
  predicate AsksAgain(s: Exec, cfg: Config, v: Verdict, section: Section) {
    var r := Settle(s.loop, cfg.limits, Effective(Some(v), section));
    r.1 == Continue && (r.0.step == s.loop.step || !cfg.verifyFirst || cfg.marked(r.0.step))
  }

  /** The verdict whose artifact check is being read may still lead to another prompt. */
  predicate Retryable(s: Exec, cfg: Config) {
    s.out.check.Some?
    && (AsksAgain(s, cfg, s.out.check.value.verdict, Present) || AsksAgain(s, cfg, s.out.check.value.verdict, Missing))
  }

  /** An end of turn may be reported: nobody judges, no turn is waited for, it is being judged already, or nothing else of
    * the run is outstanding that the end would be taken for. */
  predicate EndAllowed(s: Exec, cfg: Config) {
    !cfg.judged || !Current(s) || !s.loop.awaiting || s.guards.verifying
    || (&& (Sends(s.out.stack) == 0 || s.guards.settling)
        && (Answers(s.out.stack) == 0 || !cfg.marked(s.loop.step))
        && s.out.sectionReads == 0 && !s.guards.pending && !Retryable(s, cfg))
  }

  // ---------------------------------------------------------------- compactions

  predicate IsCompaction(f: Frame) {
    f.CompactCall? || f.CompactNote?
  }

  /** Frames of a compaction. */
  function Compactions(stack: seq<Frame>): nat {
    if stack == [] then 0 else Compactions(stack[..|stack| - 1]) + Bit(IsCompaction(stack[|stack| - 1]))
  }

  predicate AboutToOpen(stack: seq<Frame>) {
    stack != [] && (stack[|stack| - 1].StartSend? || AboutToOpen(stack[..|stack| - 1]))
  }

  /** A prompt waits to go out: at its publish, or for the flush of a compaction that is over. */
  predicate Waits(s: Exec) {
    Sends(s.out.stack) > 0 || AboutToOpen(s.out.stack) || s.out.flushResumes > 0 || s.out.startResume
  }

  /** A flush with a prompt in hand would compact first. */
  predicate WouldCompact(s: Exec, cfg: Config, w: World) {
    Current(s) && !s.guards.verifying && !s.guards.compacting && w.ready && w.due && cfg.compacts
  }

  /** The frame on top would start a compaction. */
  predicate FrameCompacts(p: Exec, cfg: Config, f: Frame, w: World) {
    match f
    case StartSend => Current(p) && w.due && cfg.compacts
    case FlushHeld => p.guards.pending && WouldCompact(p, cfg, w)
    case Answering => !cfg.judged && WouldCompact(p, cfg, w)
    case _ => false
  }

  /** What the environment may do: report an end where it is allowed, and let a compaction begin while no prompt waits to go
    * out. */
  predicate Allowed(s: Exec, cfg: Config, e: LoopMachine.Event) {
    match e
    case Idle(_) => EndAllowed(s, cfg)
    case Changed(w) => s.guards.pending && WouldCompact(s, cfg, w) ==> !Waits(s)
    case Return(w) => s.out.stack != [] && FrameCompacts(Pop(s), cfg, Top(s), w) ==> !Waits(Pop(s))
    case _ => true
  }

  ghost predicate AllAllowed(cfg: Config, events: seq<LoopMachine.Event>) {
    forall i :: 0 <= i < |events| ==> Allowed(LoopMachine.Run(cfg, events[..i]), cfg, events[i])
  }

  /** No prompt went out into the run's own verification or compaction, and no superseded verdict was consumed. */
  predicate Clean(s: Exec) {
    !s.log.collided && !s.log.superseded
  }
}
