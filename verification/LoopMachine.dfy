/** One execution of the scored loop as a state machine (src/controller/loop-coordinator.ts).
  *
  * Each segment of code between two awaits is one atomic step. A publish inside a segment is a point where the
  * application may call back, so the rest of the segment is kept as a frame: callbacks run above it, and it continues when
  * it is returned to. The host, the verifier, the file system and the timers are the environment: any answer, any time. */
module LoopMachine {
  import opened Collections
  import opened ScoredLoop

  // ---------------------------------------------------------------- configuration and environment

  /** What a run is created with. Judged: a verifier and a verifier prompt are there. Marked: the step's section must be
    * in the artifact. */
  datatype Config = Config(
    limits: Limits,
    judged: bool,
    verifyFirst: bool,
    marked: int -> bool,
    compacts: bool,
    hasDeadline: bool,
    selfFallback: bool
  )

  /** What the application answers when a segment asks: whether a prompt can be sent, whether the history is over its
    * threshold, the result block in the reply, and whether the grace period is over. */
  datatype World = World(ready: bool, due: bool, reply: Option<Verdict>, late: bool)

  datatype Section = Unchecked | Present | Missing | Unreadable

  datatype Outcome = Verified(verdict: Verdict) | Outage(retryable: bool) | AsksPerson | NoOutcome

  /** Where a consumed verdict came from. */
  datatype Source = FromTask(seqNo: nat) | FromReply

  const VerifierRetries := 2

  // ---------------------------------------------------------------- state

  /** The rest of a segment after one of its publishes. */
  datatype Frame =
    | StartVerify // the first step is about to be verified
    | StartSend // the opening prompt is about to be sent, or compacted for
    | StartSent // the opening prompt is marked sent and about to go out
    | VerifyCall(seqNo: nat) // the verifier is about to be called
    | RetryVerify
    | FlushHeld // the held prompt is about to be flushed
    | FlushSend // the held prompt is consumed and about to go out
    | CompactCall(first: bool) // the compaction is about to be called
    | CompactNote(first: bool) // its note is published, its guard about to be lifted
    | StepVerify // the next step is about to be verified
    | SettleEnd // the gate around a consumed verdict is about to be lifted
    | Answering // the answer is about to be judged or sent
    | ChangedRest // the second half of a change callback

  /** A verdict whose artifact check is being read, and the step whose section is looked for. */
  datatype Check = Check(step: int, verdict: Verdict, source: Source)

  /** A consumed attempt: where the run stood, the verdict as given, what the artifact check found, and its source. */
  datatype Consumed = Consumed(step: int, attempt: nat, verdict: Option<Verdict>, section: Section, source: Source)

  /** Whether the run was begun, is still the coordinator's, was not dropped; its deadline; what was traced of it. */
  datatype Life = Life(
    started: bool,
    live: bool, // the coordinator still points at this execution and is open
    owned: bool, // the run was not dropped
    deadlineTimer: bool,
    endTraced: bool,
    begins: nat,
    ends: nat,
    answers: nat
  )

  /** The prompt that is held, the turn that ended, and the gates around work in progress. */
  datatype Guards =
    Guards(pending: bool, endedAt: bool, settleTimer: bool, verifying: bool, settling: bool, compacting: bool)

  /** The verification tasks: whose abort handle is kept, whose result may decide, how many there were, how many outages in
    * a row, and the outstanding calls with whether each was aborted. */
  datatype Tasks = Tasks(
    verifyTask: Option<nat>,
    identity: Option<nat>,
    lastSeq: nat,
    misses: nat,
    verifies: map<nat, bool>
  )

  /** Frames and continuations that wait for the world; a compaction says whether it is the opening one. */
  datatype Out = Out(
    stack: seq<Frame>,
    compaction: Option<bool>,
    sectionReads: nat,
    check: Option<Check>,
    startResume: bool,
    flushResumes: nat,
    sends: nat
  )

  /** What an observer saw: the consumed attempts; whether a prompt went out while the run's own verification or compaction
    * was in flight; whether a verdict was consumed that did not come from the newest task. */
  datatype Log = Log(consumed: seq<Consumed>, collided: bool, superseded: bool)

  datatype Exec = Exec(life: Life, loop: Loop, guards: Guards, tasks: Tasks, out: Out, log: Log)

  function Fresh(cfg: Config): Exec {
    Exec(Life(false, true, false, false, false, 0, 0, 0), Begin(cfg.limits),
         Guards(false, false, false, false, false, false), Tasks(None, None, 0, 0, map[]),
         Out([], None, 0, None, false, 0, 0), Log([], false, false))
  }

  /** The run still decides things: it is the current one, not dropped, and not ended. */
  predicate Current(s: Exec) {
    s.life.live && s.life.owned && Active(s.loop)
  }

  function Bit(b: bool): nat {
    if b then 1 else 0
  }

  function Push(s: Exec, f: Frame): Exec {
    s.(out := s.out.(stack := s.out.stack + [f]))
  }

  function Top(s: Exec): Frame
    requires s.out.stack != []
  {
    s.out.stack[|s.out.stack| - 1]
  }

  function Pop(s: Exec): Exec
    requires s.out.stack != []
  {
    s.(out := s.out.(stack := s.out.stack[..|s.out.stack| - 1]))
  }

  /** An unaborted verifier call, or a compaction, that has not come back. */
  predicate InFlight(s: Exec) {
    (exists n :: n in s.tasks.verifies && !s.tasks.verifies[n]) || (s.out.compaction.Some? && s.guards.compacting)
  }

  // ---------------------------------------------------------------- ending

  function TraceEnd(s: Exec): Exec {
    if s.life.endTraced then s else s.(life := s.life.(endTraced := true, ends := s.life.ends + 1))
  }

  function AbortWork(s: Exec): Exec {
    var t := s.tasks;
    var aborted :=
      if t.verifyTask.Some? && t.verifyTask.value in t.verifies then t.verifies[t.verifyTask.value := true] else t.verifies;
    s.(tasks := t.(verifies := aborted, verifyTask := None), guards := s.guards.(verifying := false, compacting := false))
  }

  function DropPrompt(s: Exec): Exec {
    s.(guards := s.guards.(pending := false))
  }

  function HoldPrompt(s: Exec): Exec {
    s.(guards := s.guards.(pending := true))
  }

  /** No turn's end is waited for any more. */
  function ForgetEnd(s: Exec): Exec {
    s.(guards := s.guards.(settleTimer := false, endedAt := false))
  }

  function Disarm(s: Exec): Exec {
    s.(life := s.life.(deadlineTimer := false))
  }

  function Leave(s: Exec): Exec {
    s.(life := s.life.(live := false))
  }

  function Disown(s: Exec): Exec {
    s.(life := s.life.(owned := false))
  }

  /** A prompt or a verification is outstanding for this attempt. */
  function Await(s: Exec): Exec {
    s.(loop := s.loop.(awaiting := true))
  }

  /** A verification that ends the run by itself. */
  function EndedByTask(s: Exec, phase: Phase, reason: Reason): Exec {
    TraceEnd(Disarm(s).(loop := End(s.loop, phase, reason)))
  }

  function Stopped(s: Exec, reason: Reason): Exec {
    if !s.life.owned || !Active(s.loop) then s
    else
      var n := AbortWork(Disarm(ForgetEnd(s)));
      DropPrompt(TraceEnd(n.(loop := End(s.loop, Cancelled, reason))))
  }

  function Rejected(s: Exec): Exec {
    if !Current(s) then s
    else
      var n := AbortWork(Disarm(s.(guards := s.guards.(settleTimer := false))));
      DropPrompt(TraceEnd(n.(loop := End(s.loop, NeedsHuman, SendRejected))))
  }

  function Expired(s: Exec): Exec {
    var n := Disarm(s);
    if !s.life.owned || !Active(s.loop) then n
    else TraceEnd(AbortWork(ForgetEnd(n)).(loop := End(s.loop, PastDeadline, ByDeadline)))
  }

  // ---------------------------------------------------------------- verifying

  /** Every started verification is a task of its own. */
  function Tasked(s: Exec): Exec {
    var n := s.tasks.lastSeq + 1;
    s.(tasks := s.tasks.(lastSeq := n, identity := Some(n), verifyTask := Some(n)), guards := s.guards.(verifying := true))
  }

  function VerifyRound(s: Exec, cfg: Config): Exec {
    if !Current(s) || s.guards.verifying || !cfg.judged then s
    else Push(Await(Tasked(s)), VerifyCall(s.tasks.lastSeq + 1))
  }

  function VerifySection(s: Exec, cfg: Config): Exec {
    if !Current(s) then s
    else if !cfg.marked(s.loop.step) then VerifyRound(s, cfg)
    else s.(out := s.out.(sectionReads := s.out.sectionReads + 1))
  }

  function SectionRead(s: Exec, cfg: Config, section: Section): Exec {
    if s.out.sectionReads == 0 then s
    else
      var n := s.(out := s.out.(sectionReads := s.out.sectionReads - 1));
      if !Current(n) then n
      else if section != Missing then VerifyRound(n, cfg)
      else Push(HoldPrompt(n), FlushHeld)
  }

  // ---------------------------------------------------------------- settling

  /** The verdict a consumed attempt counts as: a missing section takes the score away. */
  function Effective(v: Option<Verdict>, section: Section): Option<Verdict> {
    if v.Some? && section == Missing then Some(v.value.(score := None)) else v
  }

  /** The verdict is in: the run moves on, and the log says from where and by which verdict. */
  function Taken(s: Exec, l: Loop, c: Consumed): Exec {
    var stale := c.source.FromTask? && s.tasks.identity != Some(c.source.seqNo);
    s.(loop := l, log := s.log.(consumed := s.log.consumed + [c], superseded := s.log.superseded || stale))
  }

  function SettleWith(s: Exec, cfg: Config, v: Option<Verdict>, section: Section, source: Source): Exec {
    if !Current(s) || !s.loop.awaiting then s
    else
      var r := Settle(s.loop, cfg.limits, Effective(v, section));
      var n := Taken(s, r.0, Consumed(s.loop.step, s.loop.attempt, v, section, source));
      if r.1 == Continue then
        if r.0.step != s.loop.step && cfg.verifyFirst && cfg.judged then Push(n, StepVerify)
        else Push(HoldPrompt(n), FlushHeld)
      else if Active(r.0) then n
      else TraceEnd(Disarm(n))
  }

  predicate NeedsCheck(s: Exec, cfg: Config, v: Option<Verdict>) {
    v.Some? && !v.value.blocked && !v.value.abstained && cfg.marked(s.loop.step)
  }

  function SettleChecked(s: Exec, cfg: Config, v: Option<Verdict>, source: Source): Exec {
    if !Current(s) || !s.loop.awaiting || s.guards.settling then s
    else
      var n := s.(guards := s.guards.(settling := true));
      if NeedsCheck(s, cfg, v) then n.(out := n.out.(check := Some(Check(s.loop.step, v.value, source))))
      else SettleWith(Push(n, SettleEnd), cfg, v, Unchecked, source)
  }

  function CheckRead(s: Exec, cfg: Config, section: Section): Exec {
    if s.out.check.None? then s
    else
      var n := s.(out := s.out.(check := None));
      if !Current(n) || !n.loop.awaiting then n.(guards := n.guards.(settling := false))
      else
        SettleWith(Push(n, SettleEnd), cfg, Some(s.out.check.value.verdict), section, s.out.check.value.source)
  }

  function TrySettle(s: Exec, cfg: Config, w: World): Exec {
    if !s.life.owned || !Active(s.loop) || !s.loop.awaiting then ForgetEnd(s)
    else if !s.guards.endedAt then s.(guards := s.guards.(settleTimer := false))
    else if cfg.judged then
      if !s.guards.verifying && !s.guards.settling then VerifyRound(s, cfg) else s
    else if w.reply.None? && !w.late then s.(guards := s.guards.(settleTimer := true))
    else SettleChecked(ForgetEnd(s), cfg, w.reply, FromReply)
  }

  // ---------------------------------------------------------------- a verification comes back

  function TaskDone(s: Exec, n: nat): Exec {
    var m := s.(tasks := s.tasks.(verifies := s.tasks.verifies - {n}));
    if s.tasks.verifyTask == Some(n) then m.(tasks := m.tasks.(verifyTask := None), guards := m.guards.(verifying := false))
    else m
  }

  /** A miss was counted: retry, or fall back on the reply where the operator allowed it, or give up. */
  function Missed(s: Exec, cfg: Config, n: nat, w: World): Exec {
    if s.tasks.misses <= VerifierRetries then Push(s, RetryVerify)
    else if cfg.selfFallback then SettleChecked(s, cfg, w.reply, FromTask(n))
    else EndedByTask(s, Unavailable, VerifierUnavailable)
  }

  function Miss(s: Exec): Exec {
    s.(tasks := s.tasks.(misses := s.tasks.misses + 1))
  }

  function AfterOutage(s: Exec, cfg: Config, n: nat, retryable: bool, w: World): Exec {
    if !retryable then EndedByTask(s, Unavailable, VerifierUnavailable)
    else Missed(Miss(s), cfg, n, w)
  }

  /** The task is the newest one, its run is current, and an attempt is outstanding. */
  predicate Decides(s: Exec, n: nat) {
    s.tasks.identity == Some(n) && Current(s) && s.loop.awaiting
  }

  function AfterVerify(s: Exec, cfg: Config, n: nat, outcome: Outcome, w: World): Exec {
    var d := TaskDone(s, n);
    if !Decides(d, n) then d
    else
      var m := ForgetEnd(d);
      match outcome
      case NoOutcome => m
      case AsksPerson => EndedByTask(m, NeedsHuman, VerifierNeedsHuman)
      case Verified(v) => SettleChecked(m.(tasks := m.tasks.(misses := 0)), cfg, Some(v), FromTask(n))
      case Outage(retryable) => AfterOutage(m, cfg, n, retryable, w)
  }

  // ---------------------------------------------------------------- sending

  function CompactStart(s: Exec, first: bool): Exec {
    Push(s.(guards := s.guards.(compacting := true)), CompactCall(first))
  }

  /** The part of a flush after the compaction question: the prompt is consumed before anything is awaited. */
  function SendPending(s: Exec): Exec {
    if !s.guards.pending || !Current(s) then s
    else Push(Await(DropPrompt(s)), FlushSend)
  }

  function Flush(s: Exec, cfg: Config, w: World): Exec {
    if !s.guards.pending || !Current(s) || s.guards.verifying || s.guards.compacting || !w.ready then s
    else if w.due && cfg.compacts then CompactStart(s, false)
    else SendPending(s)
  }

  /** The prompt is handed to the host. */
  function Send(s: Exec): Exec {
    s.(out := s.out.(sends := s.out.sends + 1), log := s.log.(collided := s.log.collided || InFlight(s)))
  }

  function CompactDone(s: Exec): Exec {
    if s.out.compaction.None? then s
    else
      var n := s.(out := s.out.(compaction := None));
      if Current(n) then Push(n, CompactNote(s.out.compaction.value)) else n.(guards := n.guards.(compacting := false))
  }

  // ---------------------------------------------------------------- callbacks

  function RestOfChange(s: Exec, cfg: Config, w: World): Exec {
    if s.guards.endedAt then TrySettle(s, cfg, w) else s
  }

  function ChangedStep(s: Exec, cfg: Config, w: World): Exec {
    if s.guards.pending then Flush(Push(s, ChangedRest), cfg, w) else RestOfChange(s, cfg, w)
  }

  function IdleStep(s: Exec, cfg: Config, w: World): Exec {
    if !s.life.owned || !Active(s.loop) || !s.loop.awaiting then s
    else TrySettle(s.(guards := s.guards.(endedAt := true)), cfg, w)
  }

  // ---------------------------------------------------------------- continuing a segment

  /** The opening prompt goes out, after a compaction when one is due. */
  function SendOpening(s: Exec, cfg: Config, w: World): Exec {
    if !Current(s) then s
    else if w.due && cfg.compacts then CompactStart(s, true)
    else Push(Await(s), StartSent)
  }

  /** The compaction is over; its caller resumes once the microtasks before it have run. */
  function LiftGuard(s: Exec, first: bool): Exec {
    if first then s.(guards := s.guards.(compacting := false), out := s.out.(startResume := true))
    else s.(guards := s.guards.(compacting := false), out := s.out.(flushResumes := s.out.flushResumes + 1))
  }

  /** A task that was aborted before its call counts as cancelled at once. */
  function CallVerifier(s: Exec, cfg: Config, n: nat, w: World): Exec {
    if s.tasks.verifyTask == Some(n) then s.(tasks := s.tasks.(verifies := s.tasks.verifies[n := false]))
    else AfterVerify(s, cfg, n, NoOutcome, w)
  }

  /** An answer is a condition for the next judgement, or, when nobody judges, the next prompt. */
  function TakeAnswer(s: Exec, cfg: Config, w: World): Exec {
    if cfg.judged then VerifySection(s, cfg) else Flush(HoldPrompt(s), cfg, w)
  }

  /** The frame on top continues. */
  function Continued(s: Exec, cfg: Config, f: Frame, w: World): Exec {
    match f
    case StartVerify => VerifySection(s, cfg)
    case StartSend => SendOpening(s, cfg, w)
    case StartSent => Send(s)
    case VerifyCall(n) => CallVerifier(s, cfg, n, w)
    case RetryVerify => VerifyRound(s, cfg)
    case FlushHeld => Flush(s, cfg, w)
    case FlushSend => if Current(s) then Send(s) else s
    case CompactCall(first) => s.(out := s.out.(compaction := Some(first)))
    case CompactNote(first) => LiftGuard(s, first)
    case StepVerify => VerifySection(s, cfg)
    case SettleEnd => s.(guards := s.guards.(settling := false))
    case Answering => TakeAnswer(s, cfg, w)
    case ChangedRest => RestOfChange(s, cfg, w)
  }

  // ---------------------------------------------------------------- steps

  datatype Event =
    | Start
    | Return(w: World)
    | Changed(w: World)
    | Idle(w: World)
    | SectionReturns(section: Section)
    | CheckReturns(section: Section)
    | VerifyReturns(seqNo: nat, outcome: Outcome, w: World)
    | CompactReturns
    | StartResumes
    | FlushResumes
    | SendReturns
    | SendFails
    | SettleTimeout(w: World)
    | DeadlineFires
    | StopRun
    | Forget
    | Close
    | Answer

  /** The run is traced, owned, and given its deadline. */
  function Begun(s: Exec, cfg: Config): Exec {
    s.(life := s.life.(started := true, owned := true, begins := s.life.begins + 1, deadlineTimer := cfg.hasDeadline))
  }

  function Started(s: Exec, cfg: Config): Exec {
    Push(Begun(s, cfg), if cfg.verifyFirst && cfg.judged then StartVerify else StartSend)
  }

  function StartResumed(s: Exec): Exec {
    var n := s.(out := s.out.(startResume := false));
    if Current(n) then Push(Await(n), StartSent) else n
  }

  function Answered(s: Exec): Exec {
    Push(s.(loop := Resume(s.loop), life := s.life.(answers := s.life.answers + 1)), Answering)
  }

  /** Steps that begin with nothing under way. */
  function TopStep(s: Exec, cfg: Config, e: Event): Exec {
    match e
    case Start => if s.life.started || !s.life.live then s else Started(s, cfg)
    case SectionReturns(section) => if section.Unchecked? then s else SectionRead(s, cfg, section)
    case CheckReturns(section) => if section.Unchecked? then s else CheckRead(s, cfg, section)
    case VerifyReturns(n, outcome, w) => if n in s.tasks.verifies then AfterVerify(s, cfg, n, outcome, w) else s
    case CompactReturns => CompactDone(s)
    case StartResumes => if s.out.startResume then StartResumed(s) else s
    case FlushResumes =>
      if s.out.flushResumes > 0 then SendPending(s.(out := s.out.(flushResumes := s.out.flushResumes - 1))) else s
    case SendReturns => if s.out.sends > 0 then s.(out := s.out.(sends := s.out.sends - 1)) else s
    case SendFails =>
      if s.out.sends > 0 then Rejected(s.(out := s.out.(sends := s.out.sends - 1))) else s
    case SettleTimeout(w) =>
      if s.guards.settleTimer then TrySettle(s.(guards := s.guards.(settleTimer := false)), cfg, w) else s
    case DeadlineFires => if s.life.deadlineTimer then Expired(s) else s
    case StopRun => Stopped(s, UserCancelled)
    case Forget => Disown(Stopped(Leave(s), Replaced))
    case Close => Stopped(Leave(s), UserCancelled)
    case Answer =>
      if s.life.live && s.life.owned && Paused(s.loop) then Answered(s) else s
    case _ => s
  }

  /** One atomic step; an event that is not enabled changes nothing. Callbacks come in above any frame: that is every
    * publish of the code, and a few points more. */
  function Step(s: Exec, cfg: Config, e: Event): Exec {
    match e
    case Return(w) =>
      if s.out.stack == [] then s
      else Continued(Pop(s), cfg, Top(s), w)
    case Changed(w) => if s.life.live then ChangedStep(s, cfg, w) else s
    case Idle(w) => if s.life.live then IdleStep(s, cfg, w) else s
    case _ => if s.out.stack == [] then TopStep(s, cfg, e) else s
  }

  function Run(cfg: Config, events: seq<Event>): Exec {
    if events == [] then Fresh(cfg) else Step(Run(cfg, events[..|events| - 1]), cfg, events[|events| - 1])
  }
}
