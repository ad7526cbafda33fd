/** A run that a verifier judges does one thing at a time (src/controller/loop-coordinator.ts).
  *
  * While it is active at most one of these is going on: it is about to judge or judging, reading a section or an artifact,
  * holding a prompt, or handing one to the host. */
module LoopJudged {
  import opened Collections
  import opened ScoredLoop
  import opened LoopMachine
  import opened LoopGuards
  import opened LoopOutcome

  // ---------------------------------------------------------------- what is going on

  /** Frames that are about to judge, to send, or to compact for the opening prompt. */
  function Weight(f: Frame): nat {
    match f
    case StartVerify => 1
    case StartSend => 1
    case StartSent => 1
    case RetryVerify => 1
    case FlushSend => 1
    case StepVerify => 1
    case Answering => 1
    case CompactCall(first) => if first then 1 else 0
    case CompactNote(first) => if first then 1 else 0
    case _ => 0
  }

  function Weights(stack: seq<Frame>): nat {
    if stack == [] then 0 else Weights(stack[..|stack| - 1]) + Weight(stack[|stack| - 1])
  }

  /** A frame that will only start a verification: nothing is lost when one has been started above it. */
  predicate IsRound(f: Frame, marked: bool) {
    f.RetryVerify? || (!marked && (f.StartVerify? || f.StepVerify? || f.Answering?))
  }

  function Rounds(stack: seq<Frame>, marked: bool): nat {
    if stack == [] then 0 else Rounds(stack[..|stack| - 1], marked) + Bit(IsRound(stack[|stack| - 1], marked))
  }

  predicate IsOpening(f: Frame) {
    IsCompaction(f) && f.first
  }

  function OpeningFrames(stack: seq<Frame>): nat {
    if stack == [] then 0 else OpeningFrames(stack[..|stack| - 1]) + Bit(IsOpening(stack[|stack| - 1]))
  }

  /** Frames of a step or a run whose first prompt or verification is still to come. */
  function Starters(stack: seq<Frame>): nat {
    if stack == [] then 0
    else
      var f := stack[|stack| - 1];
      Starters(stack[..|stack| - 1]) + Bit(f.StartVerify? || f.StartSend? || f.StepVerify? || IsOpening(f))
  }

  /** Every call that is about to be made is the task's. */
  predicate CallsAre(stack: seq<Frame>, task: Option<nat>) {
    stack == []
    || (CallsAre(stack[..|stack| - 1], task) && (stack[|stack| - 1].VerifyCall? ==> task == Some(stack[|stack| - 1].seqNo)))
  }

  /** No gate of a verdict was put up above a waiting send. */
  predicate GatesBelowSends(stack: seq<Frame>) {
    stack == []
    || (GatesBelowSends(stack[..|stack| - 1]) && (stack[|stack| - 1].SettleEnd? ==> Sends(stack[..|stack| - 1]) == 0))
  }

  /** How many things are going on. */
  function Busy(s: Exec, cfg: Config): nat {
    Weights(s.out.stack) + s.out.sectionReads + Bit(s.out.check.Some?) + Bit(s.guards.pending) + Bit(s.out.startResume)
    + Bit(s.out.compaction == Some(true))
    + Bit(s.guards.verifying && Rounds(s.out.stack, cfg.marked(s.loop.step)) == 0)
  }

  // ---------------------------------------------------------------- the invariant

  /** The verifier's side: one unaborted call at most, the newest one. */
  ghost predicate TasksOk(s: Exec) {
    && (forall n :: n in s.tasks.verifies && !s.tasks.verifies[n] ==> s.tasks.verifyTask == Some(n))
    && (s.guards.verifying <==> s.tasks.verifyTask.Some?)
    && (s.tasks.verifyTask.Some? ==> s.tasks.identity == s.tasks.verifyTask)
    && (s.out.check.Some? && s.out.check.value.source.FromTask? ==>
          s.tasks.identity == Some(s.out.check.value.source.seqNo))
  }

  /** The compaction's side: the guard is up exactly while one is under way, and that one has a prompt waiting for it. */
  predicate CompactionOk(s: Exec) {
    && Compactions(s.out.stack) + Bit(s.out.compaction.Some?) == Bit(s.guards.compacting)
    && (s.guards.compacting ==> s.guards.pending || OpeningFrames(s.out.stack) > 0 || s.out.compaction == Some(true))
    && (s.guards.compacting ==> s.out.flushResumes == 0)
  }

  /** A noted end stays harmless: it is being judged, will be judged by what is next, waits behind a gate with a send that
    * is not judged yet, or behind a verdict that leads to no other prompt. */
  predicate EndOk(s: Exec, cfg: Config) {
    s.guards.endedAt ==>
      || s.guards.verifying || Busy(s, cfg) == 0 || Rounds(s.out.stack, cfg.marked(s.loop.step)) > 0
      || (s.guards.settling && Sends(s.out.stack) > 0) || (s.out.check.Some? && !Retryable(s, cfg))
  }

  /** Which work is awaited, and which belongs to a step with a section of its own. */
  predicate AwaitOk(s: Exec, cfg: Config) {
    && (Starters(s.out.stack) > 0 || s.out.startResume || s.out.compaction == Some(true) ==> !s.loop.awaiting)
    && (Sends(s.out.stack) > 0 || Answers(s.out.stack) > 0 || s.guards.verifying || s.out.check.Some? ==> s.loop.awaiting)
    && (s.out.sectionReads > 0 || (s.guards.pending && s.loop.awaiting) || s.out.check.Some? ==> cfg.marked(s.loop.step))
    && (s.out.check.Some? ==> !s.out.check.value.verdict.blocked && !s.out.check.value.verdict.abstained)
    && (AboutToOpen(s.out.stack) ==> s.out.flushResumes == 0)
    && (Answers(s.out.stack) > 0 || (s.loop.awaiting && (s.out.sectionReads > 0 || s.guards.pending)) ==> !s.guards.settling)
  }

  ghost predicate ActiveOk(s: Exec, cfg: Config) {
    && s.life.live && s.life.owned && Busy(s, cfg) <= 1 && CompactionOk(s) && GateOk(s)
    && (forall n :: n in s.tasks.verifies ==> !s.tasks.verifies[n])
    && EndOk(s, cfg) && AwaitOk(s, cfg)
    && CallsAre(s.out.stack, s.tasks.verifyTask) && GatesBelowSends(s.out.stack)
    && (Paused(s.loop) ==> Busy(s, cfg) == 0 && !s.loop.awaiting && !s.guards.endedAt)
  }

  ghost predicate Inv(s: Exec, cfg: Config) {
    && cfg.judged && TasksOk(s)
    && (s.life.started ==> if Active(s.loop) then ActiveOk(s, cfg) else !s.guards.verifying && !s.guards.compacting)
    && (!s.life.started ==> s == if s.life.live then Fresh(cfg) else Leave(Fresh(cfg)))
    && Clean(s)
  }

  // ---------------------------------------------------------------- frames

  lemma PushCounts(s: Exec, f: Frame, marked: bool)
    ensures Weights(Push(s, f).out.stack) == Weights(s.out.stack) + Weight(f)
    ensures Rounds(Push(s, f).out.stack, marked) == Rounds(s.out.stack, marked) + Bit(IsRound(f, marked))
    ensures Compactions(Push(s, f).out.stack) == Compactions(s.out.stack) + Bit(IsCompaction(f))
    ensures OpeningFrames(Push(s, f).out.stack) == OpeningFrames(s.out.stack) + Bit(IsOpening(f))
    ensures Starters(Push(s, f).out.stack)
         == Starters(s.out.stack) + Bit(f.StartVerify? || f.StartSend? || f.StepVerify? || IsOpening(f))
    ensures Sends(Push(s, f).out.stack) == Sends(s.out.stack) + Bit(f.StartSent? || f.FlushSend?)
    ensures Answers(Push(s, f).out.stack) == Answers(s.out.stack) + Bit(f.Answering?)
    ensures Gates(Push(s, f).out.stack) == Gates(s.out.stack) + Bit(f.SettleEnd?)
    ensures AboutToOpen(Push(s, f).out.stack) <==> AboutToOpen(s.out.stack) || f.StartSend?
  {
    assert (s.out.stack + [f])[..|s.out.stack|] == s.out.stack;
  }

  lemma PushOrders(s: Exec, f: Frame, task: Option<nat>)
    ensures CallsAre(Push(s, f).out.stack, task)
       <==> CallsAre(s.out.stack, task) && (f.VerifyCall? ==> task == Some(f.seqNo))
    ensures GatesBelowSends(Push(s, f).out.stack)
       <==> GatesBelowSends(s.out.stack) && (f.SettleEnd? ==> Sends(s.out.stack) == 0)
  {
    assert (s.out.stack + [f])[..|s.out.stack|] == s.out.stack;
  }

  lemma {:induction false} CountsWeigh(stack: seq<Frame>, marked: bool)
    ensures OpeningFrames(stack) <= Starters(stack) && OpeningFrames(stack) <= Compactions(stack)
    ensures Sends(stack) + Answers(stack) + Starters(stack) <= Weights(stack)
    ensures Rounds(stack, marked) <= Weights(stack)
    ensures Sends(stack) + Rounds(stack, marked) <= Weights(stack)
    ensures AboutToOpen(stack) ==> Weights(stack) > 0
  {
    if stack != [] {
      CountsWeigh(stack[..|stack| - 1], marked);
    }
  }

  /** A weighing frame is a send, an answer, one that starts something, or a retry. */
  lemma {:induction false} WeightIsFor(stack: seq<Frame>, marked: bool)
    ensures Weights(stack) > 0 ==> Sends(stack) > 0 || Answers(stack) > 0 || Starters(stack) > 0 || Rounds(stack, marked) > 0
    ensures !marked && Answers(stack) > 0 ==> Rounds(stack, marked) > 0
  {
    if stack != [] {
      WeightIsFor(stack[..|stack| - 1], marked);
    }
  }

  lemma {:induction false} NoCalls(stack: seq<Frame>, task: Option<nat>)
    requires CallsAre(stack, None)
    ensures CallsAre(stack, task)
  {
    if stack != [] {
      NoCalls(stack[..|stack| - 1], task);
    }
  }

  /** Nothing is going on and the run is not paused: the next thing may begin. */
  ghost predicate Clear(s: Exec, cfg: Config) {
    Inv(s, cfg) && s.life.started && (Active(s.loop) ==> Busy(s, cfg) == 0 && !Paused(s.loop))
  }

  lemma ClearIsQuiet(s: Exec, cfg: Config)
    requires Clear(s, cfg)
    ensures !s.guards.compacting && !s.guards.verifying && !InFlight(s)
    ensures Active(s.loop) ==> Sends(s.out.stack) == 0 && Answers(s.out.stack) == 0 && Starters(s.out.stack) == 0
                               && Rounds(s.out.stack, cfg.marked(s.loop.step)) == 0
  {
    CountsWeigh(s.out.stack, cfg.marked(s.loop.step));
  }

  // ---------------------------------------------------------------- starting a verification

  /** A verification may start: nothing is going on, or only a frame that would start one itself. */
  ghost predicate MayJudge(s: Exec, cfg: Config) {
    && Inv(s, cfg) && s.life.started
    && (Active(s.loop) && !s.guards.verifying ==>
          && !Paused(s.loop) && (Busy(s, cfg) == 0 || Rounds(s.out.stack, cfg.marked(s.loop.step)) > 0)
          && Starters(s.out.stack) == 0 && !s.out.startResume && s.out.compaction != Some(true))
  }

  lemma ClearMayJudge(s: Exec, cfg: Config)
    requires Clear(s, cfg)
    ensures MayJudge(s, cfg)
  {
    ClearIsQuiet(s, cfg);
  }

  lemma VerifyRoundKeeps(s: Exec, cfg: Config)
    requires MayJudge(s, cfg)
    ensures Inv(VerifyRound(s, cfg), cfg)
  {
    if Active(s.loop) && !s.guards.verifying {
      var n := s.tasks.lastSeq + 1;
      var m := Await(Tasked(s));
      CountsWeigh(s.out.stack, cfg.marked(s.loop.step));
      PushCounts(m, VerifyCall(n), cfg.marked(s.loop.step));
      PushOrders(m, VerifyCall(n), Some(n));
      NoCalls(s.out.stack, Some(n));
    }
  }

  /** The section of a step is read only when it has one, and nothing else is going on. */
  lemma VerifySectionKeeps(s: Exec, cfg: Config)
    requires MayJudge(s, cfg)
    requires Active(s.loop) && cfg.marked(s.loop.step) ==>
               Busy(s, cfg) == 0 && !s.guards.endedAt && (s.loop.awaiting ==> !s.guards.settling)
    ensures Inv(VerifySection(s, cfg), cfg)
  {
    if Active(s.loop) && cfg.marked(s.loop.step) {
      CountsWeigh(s.out.stack, cfg.marked(s.loop.step));
    } else {
      VerifyRoundKeeps(s, cfg);
    }
  }

  lemma HoldPromptKeeps(s: Exec, cfg: Config)
    requires Clear(s, cfg) && Active(s.loop) && !s.guards.endedAt
    requires s.loop.awaiting ==> cfg.marked(s.loop.step) && !s.guards.settling
    ensures Inv(Push(HoldPrompt(s), FlushHeld), cfg)
  {
    ClearIsQuiet(s, cfg);
    PushCounts(HoldPrompt(s), FlushHeld, cfg.marked(s.loop.step));
    PushOrders(HoldPrompt(s), FlushHeld, s.tasks.verifyTask);
  }

  // ---------------------------------------------------------------- settling

  /** The source of a verdict is the reply, or the newest task. */
  predicate Newest(s: Exec, source: Source) {
    source.FromTask? ==> s.tasks.identity == Some(source.seqNo)
  }

  /** A consumed verdict that continues the run leaves it working, with nothing awaited. */
  lemma SettleOutcome(l: Loop, limits: Limits, v: Option<Verdict>)
    requires Active(l) && !Paused(l)
    ensures var r := Settle(l, limits, v);
            && !r.0.awaiting && (r.1 == Continue ==> r.0.phase.Running?)
            && (r.1 != Continue && Active(r.0) ==> Paused(r.0))
            && (Paused(r.0) ==> v.Some? && v.value.abstained)
  {
  }

  /** With nothing going on it does not matter at which step the run is. */
  lemma StepIsFree(stack: seq<Frame>, marked: bool)
    requires Weights(stack) == 0
    ensures Rounds(stack, marked) == 0
  {
    CountsWeigh(stack, marked);
  }

  /** Consuming a verdict leaves nothing going on. */
  lemma TakenKeeps(s: Exec, cfg: Config, l: Loop, c: LoopMachine.Consumed)
    requires Clear(s, cfg) && Active(s.loop) && !l.awaiting && Newest(s, c.source) && (Paused(l) ==> !s.guards.endedAt)
    ensures Inv(Taken(s, l, c), cfg) && Inv(TraceEnd(Disarm(Taken(s, l, c))), cfg)
    ensures Active(l) && !Paused(l) ==> Clear(Taken(s, l, c), cfg)
  {
    ClearIsQuiet(s, cfg);
    StepIsFree(s.out.stack, cfg.marked(l.step));
  }

  lemma StepVerifyKeeps(s: Exec, cfg: Config)
    requires Clear(s, cfg) && Active(s.loop) && !s.loop.awaiting && (s.guards.endedAt ==> !cfg.marked(s.loop.step))
    ensures Inv(Push(s, StepVerify), cfg)
  {
    ClearIsQuiet(s, cfg);
    PushCounts(s, StepVerify, cfg.marked(s.loop.step));
    PushOrders(s, StepVerify, s.tasks.verifyTask);
  }

  /** A verdict may be consumed while an end is noted only when it asks for nothing and leads to no other prompt. */
  predicate NoMoreAfter(s: Exec, cfg: Config, v: Option<Verdict>, section: Section) {
    s.guards.endedAt ==> v.Some? && !v.value.abstained && !AsksAgain(s, cfg, v.value, section)
  }

  lemma SettleWithKeeps(s: Exec, cfg: Config, v: Option<Verdict>, section: Section, source: Source)
    requires Clear(s, cfg) && Newest(s, source) && NoMoreAfter(s, cfg, v, section)
    ensures Inv(SettleWith(s, cfg, v, section, source), cfg)
  {
    if Current(s) && s.loop.awaiting {
      var r := Settle(s.loop, cfg.limits, Effective(v, section));
      var n := Taken(s, r.0, Consumed(s.loop.step, s.loop.attempt, v, section, source));
      SettleOutcome(s.loop, cfg.limits, Effective(v, section));
      TakenKeeps(s, cfg, r.0, Consumed(s.loop.step, s.loop.attempt, v, section, source));
      if r.1 == Continue {
        if r.0.step != s.loop.step && cfg.verifyFirst && cfg.judged {
          StepVerifyKeeps(n, cfg);
        } else {
          HoldPromptKeeps(n, cfg);
        }
      }
    }
  }

  lemma GateKeepsClear(s: Exec, cfg: Config)
    requires Clear(s, cfg) && !s.guards.settling
    ensures Clear(Push(s.(guards := s.guards.(settling := true)), SettleEnd), cfg)
  {
    var g := s.(guards := s.guards.(settling := true));
    ClearIsQuiet(s, cfg);
    PushCounts(g, SettleEnd, cfg.marked(s.loop.step));
    PushOrders(g, SettleEnd, s.tasks.verifyTask);
  }

  lemma CheckStartKeeps(s: Exec, cfg: Config, v: Verdict, source: Source)
    requires Clear(s, cfg) && Current(s) && s.loop.awaiting && !s.guards.settling && NeedsCheck(s, cfg, Some(v))
    requires Newest(s, source) && !s.guards.endedAt
    ensures Inv(s.(guards := s.guards.(settling := true), out := s.out.(check := Some(Check(s.loop.step, v, source)))), cfg)
  {
    ClearIsQuiet(s, cfg);
  }

  lemma SettleCheckedKeeps(s: Exec, cfg: Config, v: Option<Verdict>, source: Source)
    requires Clear(s, cfg) && Newest(s, source) && !s.guards.endedAt
    ensures Inv(SettleChecked(s, cfg, v, source), cfg)
  {
    if Current(s) && s.loop.awaiting && !s.guards.settling {
      if NeedsCheck(s, cfg, v) {
        CheckStartKeeps(s, cfg, v.value, source);
      } else {
        GateKeepsClear(s, cfg);
        SettleWithKeeps(Push(s.(guards := s.guards.(settling := true)), SettleEnd), cfg, v, Unchecked, source);
      }
    }
  }

  /** A check that was read leaves nothing going on but its gate. */
  lemma CheckTaken(s: Exec, cfg: Config)
    requires Inv(s, cfg) && s.out.check.Some? && s.out.stack == []
    ensures var n := s.(out := s.out.(check := None));
            && Newest(n, s.out.check.value.source)
            && Clear(Push(n, SettleEnd), cfg) && Clear(n.(guards := n.guards.(settling := false)), cfg)
  {
    var n := s.(out := s.out.(check := None));
    PushCounts(n, SettleEnd, cfg.marked(s.loop.step));
    PushOrders(n, SettleEnd, s.tasks.verifyTask);
  }

  lemma CheckReadKeeps(s: Exec, cfg: Config, section: Section)
    requires Inv(s, cfg) && s.out.stack == [] && !section.Unchecked?
    ensures Inv(CheckRead(s, cfg, section), cfg)
  {
    if s.out.check.Some? {
      var c := s.out.check.value;
      var n := s.(out := s.out.(check := None));
      CheckTaken(s, cfg);
      if Current(n) && n.loop.awaiting {
        assert Effective(Some(c.verdict), section) == Effective(Some(c.verdict), if section == Missing then Missing else Present);
        SettleWithKeeps(Push(n, SettleEnd), cfg, Some(c.verdict), section, c.source);
      }
    }
  }

  // ---------------------------------------------------------------- sending

  lemma SendPendingKeeps(s: Exec, cfg: Config)
    requires Inv(s, cfg) && (s.guards.pending && Current(s) ==> !s.guards.compacting)
    ensures Inv(SendPending(s), cfg)
  {
    if s.guards.pending && Current(s) {
      var n := Await(DropPrompt(s));
      CountsWeigh(s.out.stack, cfg.marked(s.loop.step));
      PushCounts(n, FlushSend, cfg.marked(s.loop.step));
      PushOrders(n, FlushSend, s.tasks.verifyTask);
    }
  }

  lemma CompactStartKeeps(s: Exec, cfg: Config)
    requires Inv(s, cfg) && Current(s) && s.guards.pending && !s.guards.compacting && s.out.flushResumes == 0
    ensures Inv(CompactStart(s, false), cfg)
  {
    var n := s.(guards := s.guards.(compacting := true));
    PushCounts(n, CompactCall(false), cfg.marked(s.loop.step));
    PushOrders(n, CompactCall(false), s.tasks.verifyTask);
  }

  lemma FlushKeeps(s: Exec, cfg: Config, w: World)
    requires Inv(s, cfg) && (s.guards.pending && WouldCompact(s, cfg, w) ==> s.out.flushResumes == 0)
    ensures Inv(Flush(s, cfg, w), cfg)
  {
    if s.guards.pending && Current(s) && !s.guards.verifying && !s.guards.compacting && w.ready {
      if w.due && cfg.compacts {
        CompactStartKeeps(s, cfg);
      } else {
        SendPendingKeeps(s, cfg);
      }
    }
  }

  lemma SendKeeps(s: Exec, cfg: Config)
    requires Clear(s, cfg)
    ensures Inv(Send(s), cfg)
  {
    ClearIsQuiet(s, cfg);
  }

  lemma OpeningCompactKeeps(s: Exec, cfg: Config)
    requires Clear(s, cfg) && Current(s) && !s.guards.endedAt && !s.loop.awaiting && s.out.flushResumes == 0
    ensures Inv(CompactStart(s, true), cfg)
  {
    var n := s.(guards := s.guards.(compacting := true));
    ClearIsQuiet(s, cfg);
    CountsWeigh(s.out.stack, cfg.marked(s.loop.step));
    PushCounts(n, CompactCall(true), cfg.marked(s.loop.step));
    PushOrders(n, CompactCall(true), s.tasks.verifyTask);
  }

  lemma SendStartKeeps(s: Exec, cfg: Config)
    requires Clear(s, cfg) && Current(s) && !s.guards.endedAt
    ensures Inv(Push(Await(s), StartSent), cfg)
  {
    ClearIsQuiet(s, cfg);
    PushCounts(Await(s), StartSent, cfg.marked(s.loop.step));
    PushOrders(Await(s), StartSent, s.tasks.verifyTask);
  }

  lemma SendOpeningKeeps(s: Exec, cfg: Config, w: World)
    requires Clear(s, cfg) && (Active(s.loop) ==> !s.guards.endedAt && !s.loop.awaiting)
    requires Current(s) && w.due && cfg.compacts ==> s.out.flushResumes == 0
    ensures Inv(SendOpening(s, cfg, w), cfg)
  {
    if Current(s) {
      if w.due && cfg.compacts {
        OpeningCompactKeeps(s, cfg);
      } else {
        SendStartKeeps(s, cfg);
      }
    }
  }

  // ---------------------------------------------------------------- ends of turns

  lemma TrySettleKeeps(s: Exec, cfg: Config, w: World)
    requires Inv(s, cfg) && s.life.started
    ensures Inv(TrySettle(s, cfg, w), cfg)
  {
    if Active(s.loop) && s.loop.awaiting && s.guards.endedAt && !s.guards.verifying && !s.guards.settling {
      CountsWeigh(s.out.stack, cfg.marked(s.loop.step));
      VerifyRoundKeeps(s, cfg);
    }
  }

  /** An end that is only noted, because something is being judged or consumed. */
  lemma NotedKeeps(s: Exec, cfg: Config)
    requires Inv(s, cfg) && s.life.started && Current(s) && s.loop.awaiting && EndAllowed(s, cfg)
    requires s.guards.verifying || s.guards.settling
    ensures Inv(s.(guards := s.guards.(endedAt := true)), cfg)
  {
    WeightIsFor(s.out.stack, cfg.marked(s.loop.step));
  }

  /** An allowed end that is neither noted only nor refused finds nothing going on that it could disturb. */
  lemma EndMayJudge(s: Exec, cfg: Config)
    requires Inv(s, cfg) && s.life.started && Current(s) && s.loop.awaiting && EndAllowed(s, cfg)
    requires !s.guards.verifying && !s.guards.settling
    ensures MayJudge(s, cfg)
  {
    WeightIsFor(s.out.stack, cfg.marked(s.loop.step));
  }

  /** An end that starts a verification. */
  lemma JudgedByEnd(s: Exec, cfg: Config, ended: Exec)
    requires MayJudge(s, cfg) && Current(s) && s.loop.awaiting
    requires !s.guards.verifying && ended == s.(guards := s.guards.(endedAt := true))
    ensures Inv(VerifyRound(ended, cfg), cfg)
  {
    var n := s.tasks.lastSeq + 1;
    var m := Await(Tasked(ended));
    assert VerifyRound(ended, cfg) == Push(m, VerifyCall(n));
    CountsWeigh(s.out.stack, cfg.marked(s.loop.step));
    PushCounts(m, VerifyCall(n), cfg.marked(s.loop.step));
    PushOrders(m, VerifyCall(n), Some(n));
    NoCalls(s.out.stack, Some(n));
  }

  lemma IdleKeeps(s: Exec, cfg: Config, w: World)
    requires Inv(s, cfg) && s.life.live && EndAllowed(s, cfg)
    ensures Inv(IdleStep(s, cfg, w), cfg)
  {
    if s.life.owned && Active(s.loop) && s.loop.awaiting {
      assert s.life.started;
      if s.guards.verifying || s.guards.settling {
        NotedKeeps(s, cfg);
      } else {
        EndMayJudge(s, cfg);
        JudgedByEnd(s, cfg, s.(guards := s.guards.(endedAt := true)));
      }
    }
  }

  lemma RestKeeps(s: Exec, cfg: Config, w: World)
    requires Inv(s, cfg) && s.life.started
    ensures Inv(RestOfChange(s, cfg, w), cfg)
  {
    if s.guards.endedAt {
      TrySettleKeeps(s, cfg, w);
    }
  }

  lemma PushChangeKeeps(s: Exec, cfg: Config)
    requires Inv(s, cfg) && s.life.started
    ensures Inv(Push(s, ChangedRest), cfg)
  {
    PushCounts(s, ChangedRest, cfg.marked(s.loop.step));
    PushOrders(s, ChangedRest, s.tasks.verifyTask);
  }

  lemma ChangedKeeps(s: Exec, cfg: Config, w: World)
    requires Inv(s, cfg) && s.life.live && Allowed(s, cfg, Changed(w))
    ensures Inv(ChangedStep(s, cfg, w), cfg)
  {
    if s.guards.pending {
      PushChangeKeeps(s, cfg);
      FlushKeeps(Push(s, ChangedRest), cfg, w);
    } else if s.life.started {
      RestKeeps(s, cfg, w);
    }
  }

  // ---------------------------------------------------------------- ending

  lemma AbortKeepsTasks(s: Exec)
    requires TasksOk(s)
    ensures TasksOk(AbortWork(s))
  {
  }

  /** The verifier's side of two states is the same. */
  lemma SameTasks(s: Exec, n: Exec)
    requires TasksOk(s) && n.tasks.verifies == s.tasks.verifies && n.tasks.verifyTask == s.tasks.verifyTask
    requires n.guards.verifying == s.guards.verifying && n.tasks.identity == s.tasks.identity && n.out.check == s.out.check
    ensures TasksOk(n)
  {
  }

  /** The part of the invariant an ended run keeps. */
  ghost predicate Ended(s: Exec, cfg: Config) {
    cfg.judged && s.life.started && !Active(s.loop) && !s.guards.verifying && !s.guards.compacting && TasksOk(s) && Clean(s)
  }

  lemma EndedIsInv(s: Exec, cfg: Config)
    requires Ended(s, cfg)
    ensures Inv(s, cfg) && Inv(Disown(s), cfg) && Inv(Leave(s), cfg)
  {
  }

  lemma StoppedIsEnded(s: Exec, cfg: Config, reason: Reason)
    requires cfg.judged && s.life.started && s.life.owned && Active(s.loop) && TasksOk(s) && Clean(s)
    ensures Ended(Stopped(s, reason), cfg)
  {
    var m := Disarm(ForgetEnd(s));
    SameTasks(s, m);
    AbortKeepsTasks(m);
    SameTasks(AbortWork(m), Stopped(s, reason));
  }

  lemma StoppedKeeps(s: Exec, cfg: Config, reason: Reason)
    requires Inv(s, cfg)
    ensures Inv(Stopped(s, reason), cfg)
  {
    if s.life.owned && Active(s.loop) {
      StoppedIsEnded(s, cfg, reason);
      EndedIsInv(Stopped(s, reason), cfg);
    }
  }

  lemma LeftAsItWas(s: Exec, cfg: Config)
    requires Inv(s, cfg) && !(s.life.owned && Active(s.loop))
    ensures Inv(Leave(s), cfg) && Inv(Disown(Leave(s)), cfg)
  {
    if s.life.started {
      assert Ended(s, cfg);
      EndedIsInv(Leave(s), cfg);
    }
  }

  lemma LeavingKeeps(s: Exec, cfg: Config, reason: Reason)
    requires Inv(s, cfg)
    ensures Inv(Stopped(Leave(s), reason), cfg) && Inv(Disown(Stopped(Leave(s), reason)), cfg)
  {
    if s.life.owned && Active(s.loop) {
      StoppedIsEnded(Leave(s), cfg, reason);
      EndedIsInv(Stopped(Leave(s), reason), cfg);
    } else {
      LeftAsItWas(s, cfg);
    }
  }

  lemma RejectedKeeps(s: Exec, cfg: Config)
    requires Inv(s, cfg)
    ensures Inv(Rejected(s), cfg)
  {
    if Current(s) {
      var m := Disarm(s.(guards := s.guards.(settleTimer := false)));
      SameTasks(s, m);
      AbortKeepsTasks(m);
      SameTasks(AbortWork(m), Rejected(s));
      EndedIsInv(Rejected(s), cfg);
    }
  }

  lemma ExpiredKeeps(s: Exec, cfg: Config)
    requires Inv(s, cfg) && s.life.started
    ensures Inv(Expired(s), cfg)
  {
    if s.life.owned && Active(s.loop) {
      var m := ForgetEnd(Disarm(s));
      SameTasks(s, m);
      AbortKeepsTasks(m);
      SameTasks(AbortWork(m), Expired(s));
      EndedIsInv(Expired(s), cfg);
    }
  }

  lemma EndedByTaskKeeps(s: Exec, cfg: Config, phase: Phase, reason: Reason)
    requires Clear(s, cfg) && !phase.Running?
    ensures Inv(EndedByTask(s, phase, reason), cfg)
  {
    ClearIsQuiet(s, cfg);
    assert Ended(EndedByTask(s, phase, reason), cfg);
  }

  // ---------------------------------------------------------------- a verification comes back

  /** A verification that came back leaves nothing going on. */
  lemma TaskDoneClears(s: Exec, cfg: Config, n: nat)
    requires Inv(s, cfg) && s.life.started && n in s.tasks.verifies && s.out.stack == []
    ensures Active(s.loop) ==> Decides(TaskDone(s, n), n) && s.tasks.identity == Some(n)
    ensures Clear(ForgetEnd(TaskDone(s, n)), cfg)
    ensures !Active(s.loop) ==> Inv(TaskDone(s, n), cfg)
  {
    var d := TaskDone(s, n);
    assert forall k :: k in d.tasks.verifies ==> k in s.tasks.verifies && d.tasks.verifies[k] == s.tasks.verifies[k];
    if Active(s.loop) {
      assert !s.tasks.verifies[n] && s.tasks.verifyTask == Some(n);
    }
  }

  lemma MissesKeepClear(s: Exec, cfg: Config, misses: nat)
    requires Clear(s, cfg)
    ensures Clear(s.(tasks := s.tasks.(misses := misses)), cfg)
  {
  }

  lemma RetryKeeps(s: Exec, cfg: Config)
    requires Clear(s, cfg) && Active(s.loop) && !s.guards.endedAt
    ensures Inv(Push(s, RetryVerify), cfg)
  {
    ClearIsQuiet(s, cfg);
    PushCounts(s, RetryVerify, cfg.marked(s.loop.step));
    PushOrders(s, RetryVerify, s.tasks.verifyTask);
  }

  lemma AfterOutageKeeps(s: Exec, cfg: Config, n: nat, retryable: bool, w: World)
    requires Clear(s, cfg) && s.tasks.identity == Some(n) && Active(s.loop) && !s.guards.endedAt
    ensures Inv(AfterOutage(s, cfg, n, retryable, w), cfg)
  {
    var m := Miss(s);
    MissesKeepClear(s, cfg, s.tasks.misses + 1);
    if !retryable {
      EndedByTaskKeeps(s, cfg, Unavailable, VerifierUnavailable);
    } else if m.tasks.misses <= VerifierRetries {
      RetryKeeps(m, cfg);
    } else if cfg.selfFallback {
      SettleCheckedKeeps(m, cfg, w.reply, FromTask(n));
    } else {
      EndedByTaskKeeps(m, cfg, Unavailable, VerifierUnavailable);
    }
  }

  lemma AfterVerifyKeeps(s: Exec, cfg: Config, n: nat, outcome: Outcome, w: World)
    requires Inv(s, cfg) && s.life.started && n in s.tasks.verifies && s.out.stack == []
    ensures Inv(AfterVerify(s, cfg, n, outcome, w), cfg)
  {
    TaskDoneClears(s, cfg, n);
    if Active(s.loop) {
      var m := ForgetEnd(TaskDone(s, n));
      match outcome
      case NoOutcome =>
      case AsksPerson => EndedByTaskKeeps(m, cfg, NeedsHuman, VerifierNeedsHuman);
      case Verified(v) =>
        MissesKeepClear(m, cfg, 0);
        SettleCheckedKeeps(m.(tasks := m.tasks.(misses := 0)), cfg, Some(v), FromTask(n));
      case Outage(retryable) => AfterOutageKeeps(m, cfg, n, retryable, w);
    }
  }

  /** A call is made for the task it belongs to, unless the run ended meanwhile. */
  lemma CallVerifierKeeps(s: Exec, cfg: Config, w: World)
    requires Inv(s, cfg) && s.out.stack != [] && Top(s).VerifyCall?
    ensures Inv(CallVerifier(Pop(s), cfg, Top(s).seqNo, w), cfg)
  {
    var p, n := Pop(s), Top(s).seqNo;
    if !Active(s.loop) && p.tasks.verifyTask != Some(n) {
      assert TasksOk(TaskDone(p, n));
    }
  }

  // ---------------------------------------------------------------- continuing a segment

  /** Taking a frame off keeps the invariant, except for a gate and for a compaction. */
  lemma PopKeeps(s: Exec, cfg: Config)
    requires Inv(s, cfg) && s.out.stack != [] && !IsCompaction(Top(s)) && !Top(s).SettleEnd? && !Top(s).VerifyCall?
    ensures s.life.started && Inv(Pop(s), cfg)
  {
    CountsWeigh(Pop(s).out.stack, cfg.marked(s.loop.step));
  }

  /** A frame that was about to send or to open, or to judge a step with a section, leaves nothing going on. */
  lemma PopClears(s: Exec, cfg: Config)
    requires Inv(s, cfg) && s.out.stack != [] && Weight(Top(s)) == 1 && !IsCompaction(Top(s))
    requires !IsRound(Top(s), cfg.marked(s.loop.step))
    ensures Clear(Pop(s), cfg)
    ensures Active(s.loop) && !Top(s).StartSent? && !Top(s).FlushSend? ==> !s.guards.endedAt
    ensures Active(s.loop) && s.loop.awaiting && s.guards.settling ==> Top(s).StartSent? || Top(s).FlushSend?
  {
    PopKeeps(s, cfg);
    CountsWeigh(Pop(s).out.stack, cfg.marked(s.loop.step));
  }

  /** A frame that would start a verification may, unless one was started above it. */
  lemma PopMayJudge(s: Exec, cfg: Config)
    requires Inv(s, cfg) && s.out.stack != [] && IsRound(Top(s), cfg.marked(s.loop.step))
    ensures MayJudge(Pop(s), cfg)
  {
    PopKeeps(s, cfg);
    CountsWeigh(Pop(s).out.stack, cfg.marked(s.loop.step));
  }

  lemma JudgingKeeps(s: Exec, cfg: Config, w: World)
    requires Inv(s, cfg) && s.out.stack != []
    requires Top(s).StartVerify? || Top(s).StepVerify? || Top(s).RetryVerify? || Top(s).Answering?
    ensures Inv(Continued(Pop(s), cfg, Top(s), w), cfg)
  {
    if IsRound(Top(s), cfg.marked(s.loop.step)) {
      PopMayJudge(s, cfg);
      VerifyRoundKeeps(Pop(s), cfg);
    } else {
      PopClears(s, cfg);
      ClearMayJudge(Pop(s), cfg);
      VerifySectionKeeps(Pop(s), cfg);
    }
  }

  lemma SendingFrameKeeps(s: Exec, cfg: Config, w: World)
    requires Inv(s, cfg) && Allowed(s, cfg, Return(w)) && s.out.stack != []
    requires Top(s).StartSend? || Top(s).StartSent? || Top(s).FlushSend?
    ensures Inv(Continued(Pop(s), cfg, Top(s), w), cfg)
  {
    PopClears(s, cfg);
    if Top(s).StartSend? {
      SendOpeningKeeps(Pop(s), cfg, w);
    } else {
      SendKeeps(Pop(s), cfg);
    }
  }

  lemma CompactCallKeeps(s: Exec, cfg: Config, first: bool)
    requires Inv(s, cfg) && s.out.stack != [] && Top(s) == CompactCall(first)
    ensures Inv(Pop(s).(out := Pop(s).out.(compaction := Some(first))), cfg)
  {
    CountsWeigh(Pop(s).out.stack, cfg.marked(s.loop.step));
  }

  /** The guard of a compaction that is over: no other is under way, and its prompt still waits. */
  lemma CompactNoteIsLast(s: Exec, cfg: Config)
    requires Inv(s, cfg) && s.out.stack != [] && Top(s).CompactNote? && Active(s.loop)
    ensures var p := Pop(s);
            && Compactions(p.out.stack) == 0 && p.out.compaction.None? && p.out.flushResumes == 0
            && Weights(p.out.stack) == 0 && (if Top(s).first then Busy(p, cfg) == 0 else p.guards.pending && Busy(p, cfg) == 1)
            && !p.guards.endedAt && !Paused(p.loop) && !p.guards.verifying
  {
    CountsWeigh(Pop(s).out.stack, cfg.marked(s.loop.step));
  }

  lemma CompactNoteKeeps(s: Exec, cfg: Config)
    requires Inv(s, cfg) && s.out.stack != [] && Top(s).CompactNote?
    ensures Inv(LiftGuard(Pop(s), Top(s).first), cfg)
  {
    if Active(s.loop) {
      CompactNoteIsLast(s, cfg);
      CountsWeigh(Pop(s).out.stack, cfg.marked(s.loop.step));
    }
  }

  lemma UngateKeeps(s: Exec, cfg: Config)
    requires Inv(s, cfg) && s.out.stack != [] && Top(s).SettleEnd?
    ensures Inv(Pop(s).(guards := s.guards.(settling := false)), cfg)
  {
  }

  lemma ReturnKeeps(s: Exec, cfg: Config, w: World)
    requires Inv(s, cfg) && Allowed(s, cfg, Return(w)) && s.out.stack != []
    ensures Inv(Continued(Pop(s), cfg, Top(s), w), cfg)
  {
    var f, p := Top(s), Pop(s);
    if f.CompactCall? {
      CompactCallKeeps(s, cfg, f.first);
    } else if f.CompactNote? {
      CompactNoteKeeps(s, cfg);
    } else if f.SettleEnd? {
      UngateKeeps(s, cfg);
    } else if f.VerifyCall? {
      CallVerifierKeeps(s, cfg, w);
    } else if f.StartVerify? || f.StepVerify? || f.RetryVerify? || f.Answering? {
      JudgingKeeps(s, cfg, w);
    } else if f.StartSend? || f.StartSent? || f.FlushSend? {
      SendingFrameKeeps(s, cfg, w);
    } else if f.FlushHeld? {
      PopKeeps(s, cfg);
      FlushKeeps(p, cfg, w);
    } else {
      PopKeeps(s, cfg);
      RestKeeps(p, cfg, w);
    }
  }

  // ---------------------------------------------------------------- steps with nothing under way

  lemma StartKeeps(s: Exec, cfg: Config)
    requires Inv(s, cfg) && !s.life.started && s.life.live
    ensures Inv(Started(s, cfg), cfg)
  {
    var n := Begun(s, cfg);
    assert n.out.stack == [];
    PushCounts(n, StartVerify, cfg.marked(s.loop.step));
    PushCounts(n, StartSend, cfg.marked(s.loop.step));
    PushOrders(n, StartVerify, None);
    PushOrders(n, StartSend, None);
  }

  /** A section that was read leaves nothing going on. */
  lemma SectionIsClear(s: Exec, cfg: Config)
    requires Inv(s, cfg) && s.out.sectionReads > 0
    ensures Clear(s.(out := s.out.(sectionReads := s.out.sectionReads - 1)), cfg)
    ensures Active(s.loop) ==> !s.guards.endedAt && cfg.marked(s.loop.step) && (s.loop.awaiting ==> !s.guards.settling)
  {
    CountsWeigh(s.out.stack, cfg.marked(s.loop.step));
  }

  lemma SectionReadKeeps(s: Exec, cfg: Config, section: Section)
    requires Inv(s, cfg)
    ensures Inv(SectionRead(s, cfg, section), cfg)
  {
    if s.out.sectionReads > 0 {
      var n := s.(out := s.out.(sectionReads := s.out.sectionReads - 1));
      SectionIsClear(s, cfg);
      if Current(n) && section != Missing {
        ClearMayJudge(n, cfg);
        VerifyRoundKeeps(n, cfg);
      } else if Current(n) {
        HoldPromptKeeps(n, cfg);
      }
    }
  }

  lemma CompactDoneKeeps(s: Exec, cfg: Config)
    requires Inv(s, cfg)
    ensures Inv(CompactDone(s), cfg)
  {
    if s.out.compaction.Some? {
      var n := s.(out := s.out.(compaction := None));
      PushCounts(n, CompactNote(s.out.compaction.value), cfg.marked(s.loop.step));
      PushOrders(n, CompactNote(s.out.compaction.value), s.tasks.verifyTask);
    }
  }

  lemma StartResumedKeeps(s: Exec, cfg: Config)
    requires Inv(s, cfg) && s.out.startResume
    ensures Inv(StartResumed(s), cfg)
  {
    var n := s.(out := s.out.(startResume := false));
    CountsWeigh(s.out.stack, cfg.marked(s.loop.step));
    assert Clear(n, cfg);
    if Current(n) {
      SendStartKeeps(n, cfg);
    }
  }

  lemma FlushResumedKeeps(s: Exec, cfg: Config)
    requires Inv(s, cfg) && s.out.flushResumes > 0
    ensures Inv(SendPending(s.(out := s.out.(flushResumes := s.out.flushResumes - 1))), cfg)
  {
    SendPendingKeeps(s.(out := s.out.(flushResumes := s.out.flushResumes - 1)), cfg);
  }

  lemma AnswerKeeps(s: Exec, cfg: Config)
    requires Inv(s, cfg) && s.out.stack == [] && Current(s) && Paused(s.loop)
    ensures Inv(Answered(s), cfg)
  {
    var n := s.(loop := Resume(s.loop), life := s.life.(answers := s.life.answers + 1));
    PushCounts(n, Answering, cfg.marked(s.loop.step));
    PushOrders(n, Answering, s.tasks.verifyTask);
  }

  // ---------------------------------------------------------------- every step

  lemma ReadingKeeps(s: Exec, cfg: Config, e: LoopMachine.Event)
    requires Inv(s, cfg) && s.out.stack == []
    requires e.SectionReturns? || e.CheckReturns? || e.VerifyReturns? || e.CompactReturns?
    ensures Inv(TopStep(s, cfg, e), cfg)
  {
    match e
    case SectionReturns(section) => SectionReadKeeps(s, cfg, section);
    case CheckReturns(section) => if !section.Unchecked? { CheckReadKeeps(s, cfg, section); }
    case VerifyReturns(n, outcome, w) => if n in s.tasks.verifies { AfterVerifyKeeps(s, cfg, n, outcome, w); }
    case CompactReturns => CompactDoneKeeps(s, cfg);
  }

  lemma SendFailedKeeps(s: Exec, cfg: Config)
    requires Inv(s, cfg) && s.out.sends > 0
    ensures Inv(Rejected(s.(out := s.out.(sends := s.out.sends - 1))), cfg)
  {
    var n := s.(out := s.out.(sends := s.out.sends - 1));
    assert Inv(n, cfg);
    RejectedKeeps(n, cfg);
  }

  lemma SendReturnedKeeps(s: Exec, cfg: Config)
    requires Inv(s, cfg) && s.out.sends > 0
    ensures Inv(s.(out := s.out.(sends := s.out.sends - 1)), cfg)
  {
  }

  lemma SendingKeeps(s: Exec, cfg: Config, e: LoopMachine.Event)
    requires Inv(s, cfg) && s.out.stack == [] && (e.StartResumes? || e.FlushResumes? || e.SendReturns? || e.SendFails?)
    ensures Inv(TopStep(s, cfg, e), cfg)
  {
    match e
    case StartResumes => if s.out.startResume { StartResumedKeeps(s, cfg); }
    case FlushResumes => if s.out.flushResumes > 0 { FlushResumedKeeps(s, cfg); }
    case SendReturns => if s.out.sends > 0 { SendReturnedKeeps(s, cfg); }
    case SendFails => if s.out.sends > 0 { SendFailedKeeps(s, cfg); }
  }

  lemma ClosingKeeps(s: Exec, cfg: Config, e: LoopMachine.Event)
    requires Inv(s, cfg) && s.out.stack == [] && (e.DeadlineFires? || e.StopRun? || e.Forget? || e.Close?)
    ensures Inv(TopStep(s, cfg, e), cfg)
  {
    match e
    case DeadlineFires => if s.life.deadlineTimer { ExpiredKeeps(s, cfg); }
    case StopRun => StoppedKeeps(s, cfg, UserCancelled);
    case Forget => LeavingKeeps(s, cfg, Replaced);
    case Close => LeavingKeeps(s, cfg, UserCancelled);
  }

  lemma TimeoutKeeps(s: Exec, cfg: Config, w: World)
    requires Inv(s, cfg) && s.guards.settleTimer
    ensures Inv(TrySettle(s.(guards := s.guards.(settleTimer := false)), cfg, w), cfg)
  {
    var n := s.(guards := s.guards.(settleTimer := false));
    assert Inv(n, cfg);
    TrySettleKeeps(n, cfg, w);
  }

  lemma OperatingKeeps(s: Exec, cfg: Config, e: LoopMachine.Event)
    requires Inv(s, cfg) && s.out.stack == [] && (e.Start? || e.SettleTimeout? || e.Answer?)
    ensures Inv(TopStep(s, cfg, e), cfg)
  {
    match e
    case Start => if !s.life.started && s.life.live { StartKeeps(s, cfg); }
    case SettleTimeout(w) => if s.guards.settleTimer { TimeoutKeeps(s, cfg, w); }
    case Answer => if s.life.live && s.life.owned && Paused(s.loop) { AnswerKeeps(s, cfg); }
  }

  lemma TopStepKeeps(s: Exec, cfg: Config, e: LoopMachine.Event)
    requires Inv(s, cfg) && s.out.stack == []
    ensures Inv(TopStep(s, cfg, e), cfg)
  {
    if e.SectionReturns? || e.CheckReturns? || e.VerifyReturns? || e.CompactReturns? {
      ReadingKeeps(s, cfg, e);
    } else if e.StartResumes? || e.FlushResumes? || e.SendReturns? || e.SendFails? {
      SendingKeeps(s, cfg, e);
    } else if e.DeadlineFires? || e.StopRun? || e.Forget? || e.Close? {
      ClosingKeeps(s, cfg, e);
    } else if e.Start? || e.SettleTimeout? || e.Answer? {
      OperatingKeeps(s, cfg, e);
    }
  }

  /** Every allowed step keeps one thing going on at most. */
  lemma StepKeepsInv(s: Exec, cfg: Config, e: LoopMachine.Event)
    requires Inv(s, cfg) && Allowed(s, cfg, e)
    ensures Inv(LoopMachine.Step(s, cfg, e), cfg)
  {
    match e
    case Return(w) => if s.out.stack != [] { ReturnKeeps(s, cfg, w); }
    case Changed(w) => if s.life.live { ChangedKeeps(s, cfg, w); }
    case Idle(w) => if s.life.live { IdleKeeps(s, cfg, w); }
    case _ => if s.out.stack == [] { TopStepKeeps(s, cfg, e); }
  }
}
