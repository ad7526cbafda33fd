/** The environment's part is exactly what is needed (src/controller/loop-coordinator.ts:361-397, 437-541, 627-710).
  *
  * From any state of an allowed run, an event that is not allowed has an otherwise allowed continuation in which a prompt
  * goes out into the run's own verification or compaction, or a superseded verdict is consumed. */
module LoopExact {
  import opened Collections
  import opened ScoredLoop
  import opened LoopMachine
  import opened LoopOutcome
  import opened LoopGuards
  import LoopJudged
  import LoopUnjudged
  import LoopSafety

  // ---------------------------------------------------------------- continuations

  function Steps(s: Exec, cfg: Config, events: seq<LoopMachine.Event>): Exec
    decreases |events|
  {
    if events == [] then s else Steps(LoopMachine.Step(s, cfg, events[0]), cfg, events[1..])
  }

  /** Every event of a continuation is allowed where it comes. */
  predicate AllowedFrom(s: Exec, cfg: Config, events: seq<LoopMachine.Event>)
    decreases |events|
  {
    events == [] || (Allowed(s, cfg, events[0]) && AllowedFrom(LoopMachine.Step(s, cfg, events[0]), cfg, events[1..]))
  }

  /** Some allowed continuation collides, or consumes a superseded verdict. */
  ghost predicate Harmful(s: Exec, cfg: Config) {
    exists events :: AllowedFrom(s, cfg, events) && !Clean(Steps(s, cfg, events))
  }

  lemma HarmNow(s: Exec, cfg: Config)
    requires !Clean(s)
    ensures Harmful(s, cfg)
  {
    assert AllowedFrom(s, cfg, []) && Steps(s, cfg, []) == s;
  }

  lemma HarmNext(s: Exec, cfg: Config, e: LoopMachine.Event)
    requires Allowed(s, cfg, e) && Harmful(LoopMachine.Step(s, cfg, e), cfg)
    ensures Harmful(s, cfg)
  {
    var n := LoopMachine.Step(s, cfg, e);
    var events :| AllowedFrom(n, cfg, events) && !Clean(Steps(n, cfg, events));
    var all := [e] + events;
    assert all[1..] == events && all[0] == e;
    assert AllowedFrom(s, cfg, all) && Steps(s, cfg, all) == Steps(n, cfg, events);
  }

  lemma {:induction false} InvStaysClean(s: Exec, cfg: Config, events: seq<LoopMachine.Event>)
    requires LoopSafety.Inv(s, cfg) && AllowedFrom(s, cfg, events)
    ensures Clean(Steps(s, cfg, events))
    decreases |events|
  {
    if events != [] {
      LoopSafety.StepKeepsInv(s, cfg, events[0]);
      InvStaysClean(LoopMachine.Step(s, cfg, events[0]), cfg, events[1..]);
    }
  }

  lemma InvIsHarmless(s: Exec, cfg: Config)
    requires LoopSafety.Inv(s, cfg)
    ensures !Harmful(s, cfg)
  {
    forall events | AllowedFrom(s, cfg, events) ensures Clean(Steps(s, cfg, events)) {
      InvStaysClean(s, cfg, events);
    }
  }

  /** The client is not ready, no compaction is due, and no reply is there yet. */
  const Quiet: World := World(false, false, None, false)

  /** The client is ready, and no compaction is due. */
  const Ready: World := World(true, false, None, false)

  const NoScore: Verdict := Verdict(None, false, false)

  const Abstains: Verdict := Verdict(None, false, true)

  lemma PushPop(s: Exec, f: Frame)
    ensures Top(Push(s, f)) == f && Pop(Push(s, f)) == s
  {
    assert (s.out.stack + [f])[..|s.out.stack|] == s.out.stack;
  }

  // ---------------------------------------------------------------- frames that do nothing more

  predicate Inert(f: Frame) {
    f.ChangedRest? || f.FlushHeld? || f.SettleEnd?
  }

  predicate AllInert(stack: seq<Frame>) {
    forall i :: 0 <= i < |stack| ==> Inert(stack[i])
  }

  /** A run is current and judged, and an end that is noted is being judged, or waits behind an artifact check. */
  predicate Parked(s: Exec, cfg: Config) {
    && cfg.judged && Current(s)
    && (s.guards.endedAt ==> s.loop.awaiting && (s.guards.verifying || (s.guards.settling && Gates(s.out.stack) == 0)))
  }

  /** The state once such frames returned while the client is not ready. */
  function Drained(s: Exec): Exec {
    s.(out := s.out.(stack := []), guards := s.guards.(settling := s.guards.settling && Gates(s.out.stack) == 0))
  }

  lemma InertReturns(s: Exec, cfg: Config)
    requires Parked(s, cfg) && s.out.stack != [] && Inert(Top(s))
    ensures LoopMachine.Step(s, cfg, Return(Quiet))
         == if Top(s).SettleEnd? then Pop(s).(guards := s.guards.(settling := false)) else Pop(s)
  {
  }

  lemma {:induction false} DrainHarms(s: Exec, cfg: Config)
    requires Parked(s, cfg) && AllInert(s.out.stack) && Harmful(Drained(s), cfg)
    ensures Harmful(s, cfg)
    decreases |s.out.stack|
  {
    if s.out.stack == [] {
      assert Drained(s) == s;
    } else {
      var n := LoopMachine.Step(s, cfg, Return(Quiet));
      InertReturns(s, cfg);
      assert forall i :: 0 <= i < |n.out.stack| ==> n.out.stack[i] == s.out.stack[i];
      assert Drained(n) == Drained(s);
      DrainHarms(n, cfg);
      HarmNext(s, cfg, Return(Quiet));
    }
  }

  /** In an active run with nothing going on, or one send or answer, every other frame is inert. */
  lemma {:induction false} StackIsInert(stack: seq<Frame>)
    requires LoopJudged.Weights(stack) == 0 && LoopJudged.CallsAre(stack, None) && Compactions(stack) == 0
    ensures AllInert(stack)
  {
    if stack != [] {
      StackIsInert(stack[..|stack| - 1]);
      assert forall i :: 0 <= i < |stack| - 1 ==> stack[..|stack| - 1][i] == stack[i];
    }
  }

  // ---------------------------------------------------------------- an end that starts a verification

  /** A verification of the newest task is in flight. */
  predicate Judging(s: Exec, cfg: Config) {
    && cfg.judged && Current(s) && s.loop.awaiting && s.guards.verifying
    && s.tasks.verifyTask == Some(s.tasks.lastSeq) && s.tasks.identity == Some(s.tasks.lastSeq)
    && s.tasks.lastSeq in s.tasks.verifies && !s.tasks.verifies[s.tasks.lastSeq]
  }

  /** The state once a verification was started here and called. */
  function Called(s: Exec): Exec {
    var t := Await(Tasked(s));
    t.(tasks := t.tasks.(verifies := t.tasks.verifies[t.tasks.lastSeq := false]))
  }

  function Noted(s: Exec): Exec {
    s.(guards := s.guards.(endedAt := true))
  }

  lemma RoundIsCalled(s: Exec, cfg: Config)
    requires cfg.judged && Current(s) && !s.guards.verifying
    ensures Judging(Called(s), cfg)
    ensures Harmful(Called(s), cfg) ==> Harmful(VerifyRound(s, cfg), cfg)
  {
    var v := VerifyRound(s, cfg);
    PushPop(Await(Tasked(s)), VerifyCall(s.tasks.lastSeq + 1));
    assert LoopMachine.Step(v, cfg, Return(Quiet)) == Called(s);
    if Harmful(Called(s), cfg) {
      HarmNext(v, cfg, Return(Quiet));
    }
  }

  lemma EndIsCalled(s: Exec, cfg: Config, w: World)
    requires cfg.judged && Current(s) && s.loop.awaiting && !s.guards.verifying && !s.guards.settling
    ensures Judging(Called(Noted(s)), cfg)
    ensures Harmful(Called(Noted(s)), cfg) ==> Harmful(LoopMachine.Step(s, cfg, Idle(w)), cfg)
  {
    assert LoopMachine.Step(s, cfg, Idle(w)) == VerifyRound(Noted(s), cfg);
    RoundIsCalled(Noted(s), cfg);
  }

  // ---------------------------------------------------------------- a send

  predicate InertOrSend(stack: seq<Frame>) {
    forall i :: 0 <= i < |stack| ==> Inert(stack[i]) || stack[i].StartSent? || stack[i].FlushSend?
  }

  /** A prompt that waits goes out into the verification. */
  lemma {:induction false} SentIntoTask(s: Exec, cfg: Config)
    requires Judging(s, cfg) && InertOrSend(s.out.stack) && Sends(s.out.stack) > 0
    ensures Harmful(s, cfg)
    decreases |s.out.stack|
  {
    var n := LoopMachine.Step(s, cfg, Return(Quiet));
    if Top(s).StartSent? || Top(s).FlushSend? {
      assert InFlight(Pop(s));
      assert n == Send(Pop(s));
      HarmNow(n, cfg);
    } else {
      InertReturns(s, cfg);
      assert forall i :: 0 <= i < |n.out.stack| ==> n.out.stack[i] == s.out.stack[i];
      SentIntoTask(n, cfg);
    }
    HarmNext(s, cfg, Return(Quiet));
  }

  lemma {:induction false} OneSend(stack: seq<Frame>)
    requires LoopJudged.Weights(stack) <= 1 && Sends(stack) > 0 && LoopJudged.CallsAre(stack, None) && Compactions(stack) == 0
    ensures InertOrSend(stack)
  {
    var front := stack[..|stack| - 1];
    if Sends(front) > 0 {
      OneSend(front);
    } else {
      StackIsInert(front);
    }
    assert forall i :: 0 <= i < |front| ==> front[i] == stack[i];
    LoopJudged.CountsWeigh(front, false);
  }

  /** Nothing is compacted while something else of an active run is going on. */
  lemma NothingCompacts(s: Exec, cfg: Config)
    requires LoopJudged.Inv(s, cfg) && Current(s) && s.life.started && !s.guards.pending
    requires Sends(s.out.stack) > 0 || Answers(s.out.stack) > 0 || s.out.sectionReads > 0 || s.out.check.Some?
    ensures !s.guards.compacting && Compactions(s.out.stack) == 0
  {
    LoopJudged.CountsWeigh(s.out.stack, cfg.marked(s.loop.step));
  }

  lemma EndAtSendHarms(s: Exec, cfg: Config, w: World)
    requires LoopJudged.Inv(s, cfg) && Current(s) && s.loop.awaiting && !s.guards.verifying && !s.guards.settling
    requires Sends(s.out.stack) > 0
    ensures Harmful(LoopMachine.Step(s, cfg, Idle(w)), cfg)
  {
    LoopJudged.CountsWeigh(s.out.stack, cfg.marked(s.loop.step));
    NothingCompacts(s, cfg);
    OneSend(s.out.stack);
    EndIsCalled(s, cfg, w);
    SentIntoTask(Called(Noted(s)), cfg);
  }

  // ---------------------------------------------------------------- a section that is read, an answer that is judged

  /** A verdict's artifact is being checked while the section of its step is still being read. */
  predicate CheckedAndRead(s: Exec, cfg: Config) {
    && cfg.judged && Current(s) && s.loop.awaiting && !s.guards.verifying && s.out.stack == [] && s.out.sectionReads > 0
    && s.out.check.Some? && s.out.check.value.source == FromTask(s.tasks.lastSeq)
  }

  /** The section starts another verification, and the verdict that is consumed then is superseded. */
  lemma CheckedAndReadHarms(s: Exec, cfg: Config)
    requires CheckedAndRead(s, cfg)
    ensures Harmful(s, cfg)
  {
    var r := s.(out := s.out.(sectionReads := s.out.sectionReads - 1));
    assert LoopMachine.Step(s, cfg, SectionReturns(Present)) == VerifyRound(r, cfg);
    var c := Called(r);
    var d := LoopMachine.Step(c, cfg, CheckReturns(Present));
    CheckedLate(c, cfg);
    HarmNow(d, cfg);
    HarmNext(c, cfg, CheckReturns(Present));
    RoundIsCalled(r, cfg);
    HarmNext(s, cfg, SectionReturns(Present));
  }

  lemma CheckedLate(s: Exec, cfg: Config)
    requires Current(s) && s.loop.awaiting && s.out.stack == [] && s.out.check.Some?
    requires s.out.check.value.source.FromTask? && s.tasks.identity != Some(s.out.check.value.source.seqNo)
    ensures LoopMachine.Step(s, cfg, CheckReturns(Present)).log.superseded
  {
  }

  /** The verdict of a task in flight, at a step with a section, is checked. */
  lemma VerdictIsChecked(s: Exec, cfg: Config)
    requires Judging(s, cfg) && s.out.stack == [] && !s.guards.settling && cfg.marked(s.loop.step)
    ensures var n := LoopMachine.Step(s, cfg, VerifyReturns(s.tasks.lastSeq, Verified(NoScore), Quiet));
            && n.out == s.out.(check := Some(Check(s.loop.step, NoScore, FromTask(s.tasks.lastSeq))))
            && n.loop == s.loop && n.life == s.life && !n.guards.verifying && n.tasks.lastSeq == s.tasks.lastSeq
            && n.guards.pending == s.guards.pending
  {
  }

  lemma JudgedAndReadHarms(s: Exec, cfg: Config)
    requires Judging(s, cfg) && s.out.stack == [] && !s.guards.settling && cfg.marked(s.loop.step) && s.out.sectionReads > 0
    ensures Harmful(s, cfg)
  {
    var e := VerifyReturns(s.tasks.lastSeq, Verified(NoScore), Quiet);
    VerdictIsChecked(s, cfg);
    CheckedAndReadHarms(LoopMachine.Step(s, cfg, e), cfg);
    HarmNext(s, cfg, e);
  }

  /** A run whose gate, with no check being read, is up only for a verdict on the stack. */
  predicate Gated(s: Exec) {
    s.guards.settling ==> Gates(s.out.stack) > 0
  }

  lemma DrainedAndReadHarms(s: Exec, cfg: Config)
    requires Judging(s, cfg) && Gated(s) && AllInert(s.out.stack) && cfg.marked(s.loop.step) && s.out.sectionReads > 0
    ensures Harmful(s, cfg)
  {
    JudgedAndReadHarms(Drained(s), cfg);
    DrainHarms(s, cfg);
  }

  lemma EndAtReadHarms(s: Exec, cfg: Config, w: World)
    requires LoopJudged.Inv(s, cfg) && Current(s) && s.loop.awaiting && !s.guards.verifying && !s.guards.settling
    requires s.out.sectionReads > 0
    ensures Harmful(LoopMachine.Step(s, cfg, Idle(w)), cfg)
  {
    LoopJudged.CountsWeigh(s.out.stack, cfg.marked(s.loop.step));
    NothingCompacts(s, cfg);
    StackIsInert(s.out.stack);
    EndIsCalled(s, cfg, w);
    DrainedAndReadHarms(Called(Noted(s)), cfg);
  }

  predicate InertOrAnswer(stack: seq<Frame>) {
    forall i :: 0 <= i < |stack| ==> Inert(stack[i]) || stack[i].Answering?
  }

  /** An answer at a step with a section has that section read. */
  lemma {:induction false} AnsweredWhileJudged(s: Exec, cfg: Config)
    requires Judging(s, cfg) && Gated(s) && InertOrAnswer(s.out.stack) && cfg.marked(s.loop.step)
    requires Answers(s.out.stack) > 0 || s.out.sectionReads > 0
    requires Gates(s.out.stack) == 0
    ensures Harmful(s, cfg)
    decreases |s.out.stack|
  {
    if s.out.stack == [] {
      JudgedAndReadHarms(s, cfg);
    } else {
      var n := LoopMachine.Step(s, cfg, Return(Quiet));
      if !Top(s).Answering? {
        InertReturns(s, cfg);
      }
      assert forall i :: 0 <= i < |n.out.stack| ==> n.out.stack[i] == s.out.stack[i];
      AnsweredWhileJudged(n, cfg);
      HarmNext(s, cfg, Return(Quiet));
    }
  }

  lemma {:induction false} OneAnswer(stack: seq<Frame>)
    requires LoopJudged.Weights(stack) <= 1 && Answers(stack) > 0 && LoopJudged.CallsAre(stack, None) && Compactions(stack) == 0
    ensures InertOrAnswer(stack)
  {
    var front := stack[..|stack| - 1];
    if Answers(front) > 0 {
      OneAnswer(front);
    } else {
      StackIsInert(front);
    }
    assert forall i :: 0 <= i < |front| ==> front[i] == stack[i];
    LoopJudged.CountsWeigh(front, false);
  }

  lemma EndAtAnswerHarms(s: Exec, cfg: Config, w: World)
    requires LoopJudged.Inv(s, cfg) && Current(s) && s.loop.awaiting && !s.guards.verifying && !s.guards.settling
    requires Answers(s.out.stack) > 0 && cfg.marked(s.loop.step)
    ensures Harmful(LoopMachine.Step(s, cfg, Idle(w)), cfg)
  {
    LoopJudged.CountsWeigh(s.out.stack, cfg.marked(s.loop.step));
    NothingCompacts(s, cfg);
    OneAnswer(s.out.stack);
    EndIsCalled(s, cfg, w);
    AnsweredWhileJudged(Called(Noted(s)), cfg);
  }

  // ---------------------------------------------------------------- a prompt that is held

  /** A prompt is held for a flush that does not ask again: after a compaction that is over or under way. */
  predicate Committed(s: Exec) {
    s.guards.pending && (s.out.flushResumes > 0 || s.out.compaction.Some? || Compactions(s.out.stack) > 0)
  }

  predicate InertOrCompaction(stack: seq<Frame>) {
    forall i :: 0 <= i < |stack| ==> Inert(stack[i]) || (IsCompaction(stack[i]) && !stack[i].first)
  }

  /** The flush that resumes sends into what is in flight. */
  lemma ResumedFlushHarms(s: Exec, cfg: Config)
    requires Current(s) && s.out.stack == [] && s.guards.pending && s.out.flushResumes > 0 && InFlight(s)
    ensures Harmful(s, cfg)
  {
    var n := Await(DropPrompt(s.(out := s.out.(flushResumes := s.out.flushResumes - 1))));
    assert LoopMachine.Step(s, cfg, FlushResumes) == Push(n, FlushSend);
    PushPop(n, FlushSend);
    assert InFlight(n);
    assert LoopMachine.Step(Push(n, FlushSend), cfg, Return(Quiet)) == Send(n);
    HarmNow(Send(n), cfg);
    HarmNext(Push(n, FlushSend), cfg, Return(Quiet));
    HarmNext(s, cfg, FlushResumes);
  }

  /** A compaction that comes back lets its flush resume, into the verification. */
  lemma CompactedIntoTask(s: Exec, cfg: Config)
    requires Judging(s, cfg) && s.out.stack == [] && s.guards.pending && s.out.compaction.Some? && !s.out.compaction.value
    ensures Harmful(s, cfg)
  {
    var n := s.(out := s.out.(compaction := None));
    assert LoopMachine.Step(s, cfg, CompactReturns) == Push(n, CompactNote(false));
    PushPop(n, CompactNote(false));
    var l := LiftGuard(n, false);
    assert LoopMachine.Step(Push(n, CompactNote(false)), cfg, Return(Quiet)) == l;
    assert Judging(l, cfg);
    ResumedFlushHarms(l, cfg);
    HarmNext(Push(n, CompactNote(false)), cfg, Return(Quiet));
    HarmNext(s, cfg, CompactReturns);
  }

  lemma CommittedReturns(s: Exec, cfg: Config)
    requires Judging(s, cfg) && Committed(s) && InertOrCompaction(s.out.stack) && s.out.compaction != Some(true)
    requires s.out.stack != []
    ensures var n := LoopMachine.Step(s, cfg, Return(Quiet));
            && Judging(n, cfg) && Committed(n) && InertOrCompaction(n.out.stack) && n.out.compaction != Some(true)
            && n.out.stack == s.out.stack[..|s.out.stack| - 1]
  {
    if Inert(Top(s)) {
      InertReturns(s, cfg);
    }
    assert forall i :: 0 <= i < |s.out.stack| - 1 ==> Pop(s).out.stack[i] == s.out.stack[i];
  }

  lemma {:induction false} CommittedIntoTask(s: Exec, cfg: Config)
    requires Judging(s, cfg) && Committed(s) && InertOrCompaction(s.out.stack) && s.out.compaction != Some(true)
    ensures Harmful(s, cfg)
    decreases |s.out.stack|
  {
    if s.out.stack == [] {
      if s.out.flushResumes > 0 {
        ResumedFlushHarms(s, cfg);
      } else {
        CompactedIntoTask(s, cfg);
      }
    } else {
      var n := LoopMachine.Step(s, cfg, Return(Quiet));
      CommittedReturns(s, cfg);
      CommittedIntoTask(n, cfg);
      HarmNext(s, cfg, Return(Quiet));
    }
  }

  /** A verdict that asks for a person pauses the run, with its prompt still held. */
  lemma AbstainPauses(s: Exec, cfg: Config)
    requires Judging(s, cfg) && s.out.stack == [] && !s.guards.settling && s.out.check.None? && s.loop.reason.None?
    ensures var n := LoopMachine.Step(s, cfg, VerifyReturns(s.tasks.lastSeq, Verified(Abstains), Quiet));
            && n.out == s.out.(stack := [SettleEnd]) && n.life == s.life && Paused(n.loop) && !n.loop.awaiting
            && n.loop.step == s.loop.step && n.guards == ForgetEnd(s).guards.(verifying := false, settling := true)
            && n.tasks.lastSeq == s.tasks.lastSeq
  {
    var g := s.(guards := s.guards.(settling := true));
    assert Push(g, SettleEnd).out.stack == [SettleEnd];
  }

  /** A paused run holds a prompt at a step with a section. */
  predicate HeldPaused(s: Exec, cfg: Config) {
    && cfg.judged && Current(s) && Paused(s.loop) && s.out.stack == [] && s.guards.pending && cfg.marked(s.loop.step)
    && !s.guards.verifying && !s.guards.settling && !s.guards.compacting && !s.guards.endedAt
    && s.out.check.None? && s.out.sectionReads == 0
  }

  /** The prompt goes out although the run is paused, and its turn ends. */
  lemma HeldPausedHarms(s: Exec, cfg: Config)
    requires HeldPaused(s, cfg)
    ensures Harmful(s, cfg)
  {
    var a := Await(DropPrompt(Push(s, ChangedRest)));
    assert LoopMachine.Step(s, cfg, Changed(Ready)) == Push(a, FlushSend);
    PushPop(a, FlushSend);
    PushPop(s, ChangedRest);
    var b := Send(a);
    assert LoopMachine.Step(Push(a, FlushSend), cfg, Return(Quiet)) == b;
    assert b.out.stack == [ChangedRest];
    var c := Pop(b);
    assert LoopMachine.Step(b, cfg, Return(Quiet)) == c && c.out.stack == [];
    TurnOfPausedHarms(c, cfg);
    HarmNext(b, cfg, Return(Quiet));
    HarmNext(Push(a, FlushSend), cfg, Return(Quiet));
    HarmNext(s, cfg, Changed(Ready));
  }

  predicate TurnOfPaused(s: Exec, cfg: Config) {
    && cfg.judged && Current(s) && Paused(s.loop) && s.loop.awaiting && s.out.stack == [] && cfg.marked(s.loop.step)
    && !s.guards.pending && !s.guards.verifying && !s.guards.settling && !s.guards.endedAt
    && s.out.check.None? && s.out.sectionReads == 0
  }

  /** That turn is judged while the run is paused, and the answer reads the section while the verdict is checked. */
  lemma TurnOfPausedHarms(s: Exec, cfg: Config)
    requires TurnOfPaused(s, cfg)
    ensures Harmful(s, cfg)
  {
    var c := Called(Noted(s));
    var e := VerifyReturns(c.tasks.lastSeq, Verified(NoScore), Quiet);
    EndIsCalled(s, cfg, Quiet);
    VerdictIsChecked(c, cfg);
    AnsweredWhileChecked(LoopMachine.Step(c, cfg, e), cfg);
    HarmNext(c, cfg, e);
    HarmNext(s, cfg, Idle(Quiet));
  }

  /** An answer at a step with a section has the section read. */
  lemma AnswerReads(s: Exec, cfg: Config)
    requires cfg.judged && Current(s) && cfg.marked(s.loop.step)
    ensures LoopMachine.Step(Push(s, Answering), cfg, Return(Quiet))
         == s.(out := s.out.(sectionReads := s.out.sectionReads + 1))
  {
    PushPop(s, Answering);
  }

  lemma AnsweredWhileChecked(s: Exec, cfg: Config)
    requires cfg.judged && Current(s) && Paused(s.loop) && s.out.stack == [] && cfg.marked(s.loop.step)
    requires !s.guards.verifying && s.out.check.Some? && s.out.check.value.source == FromTask(s.tasks.lastSeq)
    ensures Harmful(s, cfg)
  {
    var n := s.(loop := Resume(s.loop), life := s.life.(answers := s.life.answers + 1));
    assert LoopMachine.Step(s, cfg, Answer) == Push(n, Answering);
    AnswerReads(n, cfg);
    CheckedAndReadHarms(n.(out := n.out.(sectionReads := n.out.sectionReads + 1)), cfg);
    HarmNext(Push(n, Answering), cfg, Return(Quiet));
    HarmNext(s, cfg, Answer);
  }

  lemma HeldWhileJudgedHarms(s: Exec, cfg: Config)
    requires Judging(s, cfg) && Gated(s) && AllInert(s.out.stack) && s.guards.pending && !s.guards.compacting
    requires cfg.marked(s.loop.step) && s.out.check.None? && s.out.sectionReads == 0 && s.loop.reason.None?
    ensures Harmful(s, cfg)
  {
    var d := Drained(s);
    var e := VerifyReturns(d.tasks.lastSeq, Verified(Abstains), Quiet);
    AbstainPauses(d, cfg);
    var p := LoopMachine.Step(d, cfg, e);
    var q := Pop(p).(guards := p.guards.(settling := false));
    assert LoopMachine.Step(p, cfg, Return(Quiet)) == q && q.out.stack == [];
    HeldPausedHarms(q, cfg);
    HarmNext(p, cfg, Return(Quiet));
    HarmNext(d, cfg, e);
    DrainHarms(s, cfg);
  }

  lemma {:induction false} HeldStack(stack: seq<Frame>)
    requires LoopJudged.Weights(stack) == 0 && LoopJudged.CallsAre(stack, None)
    ensures InertOrCompaction(stack)
  {
    if stack != [] {
      HeldStack(stack[..|stack| - 1]);
      assert forall i :: 0 <= i < |stack| - 1 ==> stack[..|stack| - 1][i] == stack[i];
    }
  }

  lemma EndWhileHeldHarms(s: Exec, cfg: Config, w: World)
    requires LoopJudged.Inv(s, cfg) && Current(s) && s.loop.awaiting && !s.guards.verifying && !s.guards.settling
    requires s.guards.pending && s.loop.reason.None?
    ensures Harmful(LoopMachine.Step(s, cfg, Idle(w)), cfg)
  {
    var c := Called(Noted(s));
    EndIsCalled(s, cfg, w);
    HeldStack(s.out.stack);
    if s.guards.compacting || s.out.flushResumes > 0 {
      CommittedIntoTask(c, cfg);
    } else {
      StackIsInert(s.out.stack);
      HeldWhileJudgedHarms(c, cfg);
    }
  }

  // ---------------------------------------------------------------- a verdict that is checked

  /** The next prompt is held, and an end that was reported too early is still noted. */
  predicate HeldLate(s: Exec, cfg: Config) {
    && cfg.judged && Current(s) && s.out.stack == [] && s.guards.pending && s.guards.endedAt
    && !s.guards.verifying && !s.guards.settling && !s.guards.compacting
  }

  /** The change that sends the prompt is followed by one that starts the verification it goes into. */
  lemma HeldLateHarms(s: Exec, cfg: Config)
    requires HeldLate(s, cfg)
    ensures Harmful(s, cfg)
  {
    var a := Push(Await(DropPrompt(Push(s, ChangedRest))), FlushSend);
    assert LoopMachine.Step(s, cfg, Changed(Ready)) == a;
    assert a.out.stack == [ChangedRest, FlushSend];
    assert LoopMachine.Step(a, cfg, Changed(Quiet)) == VerifyRound(a, cfg);
    RoundIsCalled(a, cfg);
    SentIntoTask(Called(a), cfg);
    HarmNext(a, cfg, Changed(Quiet));
    HarmNext(s, cfg, Changed(Ready));
  }

  /** A prompt was held behind the gate of its verdict. */
  lemma HeldBehindGate(s: Exec, cfg: Config)
    requires cfg.judged && Current(s) && s.out.stack == [SettleEnd, FlushHeld] && s.guards.pending && s.guards.endedAt
    requires !s.guards.verifying && !s.guards.compacting
    ensures Harmful(s, cfg)
  {
    var a := Pop(s);
    assert LoopMachine.Step(s, cfg, Return(Quiet)) == a && a.out.stack == [SettleEnd];
    var b := Pop(a).(guards := a.guards.(settling := false));
    assert LoopMachine.Step(a, cfg, Return(Quiet)) == b && b.out.stack == [];
    HeldLateHarms(b, cfg);
    HarmNext(a, cfg, Return(Quiet));
    HarmNext(s, cfg, Return(Quiet));
  }

  /** A step with a section is about to be verified behind the gate of the verdict that passed the one before. */
  lemma StepBehindGate(s: Exec, cfg: Config)
    requires cfg.judged && Current(s) && s.out.stack == [SettleEnd, StepVerify] && s.guards.endedAt && cfg.marked(s.loop.step)
    requires !s.guards.verifying && !s.guards.compacting
    ensures Harmful(s, cfg)
  {
    var a := Pop(s).(out := Pop(s).out.(sectionReads := s.out.sectionReads + 1));
    assert LoopMachine.Step(s, cfg, Return(Quiet)) == a && a.out.stack == [SettleEnd];
    var b := Pop(a).(guards := a.guards.(settling := false));
    assert LoopMachine.Step(a, cfg, Return(Quiet)) == b && b.out.stack == [];
    MissingSectionHarms(b, cfg);
    HarmNext(a, cfg, Return(Quiet));
    HarmNext(s, cfg, Return(Quiet));
  }

  lemma MissingSectionHarms(s: Exec, cfg: Config)
    requires cfg.judged && Current(s) && s.out.stack == [] && s.out.sectionReads > 0 && s.guards.endedAt
    requires !s.guards.verifying && !s.guards.compacting && !s.guards.settling
    ensures Harmful(s, cfg)
  {
    var n := HoldPrompt(s.(out := s.out.(sectionReads := s.out.sectionReads - 1)));
    assert LoopMachine.Step(s, cfg, SectionReturns(Missing)) == Push(n, FlushHeld);
    PushPop(n, FlushHeld);
    assert LoopMachine.Step(Push(n, FlushHeld), cfg, Return(Quiet)) == n;
    HeldLateHarms(n, cfg);
    HarmNext(Push(n, FlushHeld), cfg, Return(Quiet));
    HarmNext(s, cfg, SectionReturns(Missing));
  }

  /** A check that is read leads to another prompt while an end is noted. */
  lemma CheckAsksAgain(s: Exec, cfg: Config, section: Section)
    requires cfg.judged && Current(s) && s.loop.awaiting && s.out.stack == [] && s.out.check.Some? && s.guards.endedAt
    requires !s.guards.verifying && !s.guards.compacting && s.loop.phase.Running? && s.loop.reason.None?
    requires !section.Unchecked? && AsksAgain(s, cfg, s.out.check.value.verdict, section)
    ensures Harmful(s, cfg)
  {
    var c := s.out.check.value;
    var g := Push(s.(out := s.out.(check := None)), SettleEnd);
    var r := Settle(s.loop, cfg.limits, Effective(Some(c.verdict), section));
    var n := Taken(g, r.0, Consumed(s.loop.step, s.loop.attempt, Some(c.verdict), section, c.source));
    assert g.out.stack == [SettleEnd];
    if r.0.step != s.loop.step && cfg.verifyFirst {
      var m := Push(n, StepVerify);
      assert LoopMachine.Step(s, cfg, CheckReturns(section)) == m && m.out.stack == [SettleEnd, StepVerify];
      StepBehindGate(m, cfg);
    } else {
      var m := Push(HoldPrompt(n), FlushHeld);
      assert LoopMachine.Step(s, cfg, CheckReturns(section)) == m && m.out.stack == [SettleEnd, FlushHeld];
      HeldBehindGate(m, cfg);
    }
    HarmNext(s, cfg, CheckReturns(section));
  }

  lemma EndWhileCheckedHarms(s: Exec, cfg: Config, w: World)
    requires LoopJudged.Inv(s, cfg) && Current(s) && s.loop.awaiting && !s.guards.verifying
    requires Retryable(s, cfg) && s.loop.reason.None?
    ensures Harmful(LoopMachine.Step(s, cfg, Idle(w)), cfg)
  {
    var n := Noted(s);
    var section := if AsksAgain(s, cfg, s.out.check.value.verdict, Present) then Present else Missing;
    LoopJudged.CountsWeigh(s.out.stack, cfg.marked(s.loop.step));
    NothingCompacts(s, cfg);
    StackIsInert(s.out.stack);
    assert LoopMachine.Step(s, cfg, Idle(w)) == n;
    CheckAsksAgain(Drained(n), cfg, section);
    DrainHarms(n, cfg);
  }

  // ---------------------------------------------------------------- ends of turns, exactly

  /** Every end that is not allowed can do harm. */
  lemma RefusedEndHarms(s: Exec, cfg: Config, w: World)
    requires LoopJudged.Inv(s, cfg) && Sound(s, cfg) && !EndAllowed(s, cfg)
    ensures Harmful(LoopMachine.Step(s, cfg, Idle(w)), cfg)
  {
    if Retryable(s, cfg) {
      EndWhileCheckedHarms(s, cfg, w);
    } else if s.guards.pending {
      EndWhileHeldHarms(s, cfg, w);
    } else if s.out.sectionReads > 0 {
      EndAtReadHarms(s, cfg, w);
    } else if Answers(s.out.stack) > 0 && cfg.marked(s.loop.step) {
      EndAtAnswerHarms(s, cfg, w);
    } else {
      EndAtSendHarms(s, cfg, w);
    }
  }

  // ---------------------------------------------------------------- compactions

  /** A compaction is in flight although its prompt is already committed to going out. */
  predicate Compacting(s: Exec) {
    Current(s) && s.guards.pending && s.guards.compacting && s.out.compaction == Some(false)
  }

  lemma JudgedCompactionHarms(s: Exec, cfg: Config)
    requires Compacting(s) && Parked(s, cfg) && AllInert(s.out.stack) && s.out.flushResumes > 0
    ensures Harmful(s, cfg)
  {
    ResumedFlushHarms(Drained(s), cfg);
    DrainHarms(s, cfg);
  }

  predicate Plain(f: Frame) {
    Inert(f) || f.Answering? || f.StartSent? || f.FlushSend?
  }

  predicate AllPlain(stack: seq<Frame>) {
    forall i :: 0 <= i < |stack| ==> Plain(stack[i])
  }

  /** A frame of a run that nobody judges returns, and the compaction goes on. */
  lemma PlainReturns(s: Exec, cfg: Config)
    requires !cfg.judged && Compacting(s) && s.out.stack != [] && AllPlain(s.out.stack)
    requires !Top(s).StartSent? && !Top(s).FlushSend?
    ensures var n := LoopMachine.Step(s, cfg, Return(Quiet));
            && Compacting(n) && n.out == Pop(s).out && AllPlain(n.out.stack)
  {
    assert forall i :: 0 <= i < |s.out.stack| - 1 ==> Pop(s).out.stack[i] == s.out.stack[i];
  }

  lemma {:induction false} UnjudgedCompactionHarms(s: Exec, cfg: Config)
    requires !cfg.judged && Compacting(s) && AllPlain(s.out.stack)
    requires Sends(s.out.stack) > 0 || s.out.flushResumes > 0
    ensures Harmful(s, cfg)
    decreases |s.out.stack|
  {
    if s.out.stack == [] {
      ResumedFlushHarms(s, cfg);
    } else {
      var n := LoopMachine.Step(s, cfg, Return(Quiet));
      if Top(s).StartSent? || Top(s).FlushSend? {
        assert n == Send(Pop(s)) && InFlight(Pop(s));
        HarmNow(n, cfg);
      } else {
        PlainReturns(s, cfg);
        UnjudgedCompactionHarms(n, cfg);
      }
      HarmNext(s, cfg, Return(Quiet));
    }
  }

  /** The compaction is called. */
  function InCompaction(s: Exec): Exec {
    s.(guards := s.guards.(compacting := true), out := s.out.(compaction := Some(false)))
  }

  lemma CompactionIsCalled(s: Exec, cfg: Config)
    requires Harmful(InCompaction(s), cfg)
    ensures Harmful(CompactStart(s, false), cfg)
  {
    var n := s.(guards := s.guards.(compacting := true));
    PushPop(n, CompactCall(false));
    assert LoopMachine.Step(CompactStart(s, false), cfg, Return(Quiet)) == InCompaction(s);
    HarmNext(CompactStart(s, false), cfg, Return(Quiet));
  }

  /** In a run that nobody judges, every frame behind an open prompt is plain. */
  lemma {:induction false} StackIsPlain(stack: seq<Frame>)
    requires LoopUnjudged.NoTasks(stack) && LoopUnjudged.NoOpenings(stack) && Compactions(stack) == 0
    ensures AllPlain(stack)
  {
    if stack != [] {
      var front := stack[..|stack| - 1];
      assert forall i :: 0 <= i < |front| ==> front[i] == stack[i];
      StackIsPlain(front);
    }
  }

  /** A held prompt is compacted for although one waits to go out: whatever else is on the stack is done with first. */
  lemma HeldCompactionHarms(s: Exec, cfg: Config, w: World)
    requires LoopSafety.Inv(s, cfg) && s.guards.pending && WouldCompact(s, cfg, w) && Waits(s)
    ensures Harmful(CompactStart(s, false), cfg)
    ensures Harmful(CompactStart(Push(s, ChangedRest), false), cfg)
  {
    assert s.life.started;
    var c, d := InCompaction(s), InCompaction(Push(s, ChangedRest));
    if cfg.judged {
      LoopJudged.CountsWeigh(s.out.stack, cfg.marked(s.loop.step));
      StackIsInert(s.out.stack);
      PushStacks(s);
      JudgedCompactionHarms(c, cfg);
      JudgedCompactionHarms(d, cfg);
    } else {
      LoopUnjudged.OpeningsShow(s.out.stack);
      StackIsPlain(s.out.stack);
      PushStacks(s);
      UnjudgedCompactionHarms(c, cfg);
      UnjudgedCompactionHarms(d, cfg);
    }
    CompactionIsCalled(s, cfg);
    CompactionIsCalled(Push(s, ChangedRest), cfg);
  }

  lemma PushStacks(s: Exec)
    ensures AllInert(s.out.stack) ==> AllInert(Push(s, ChangedRest).out.stack)
    ensures AllPlain(s.out.stack) ==> AllPlain(Push(s, ChangedRest).out.stack)
    ensures Sends(Push(s, ChangedRest).out.stack) == Sends(s.out.stack)
    ensures Gates(Push(s, ChangedRest).out.stack) == Gates(s.out.stack)
  {
    var stack := s.out.stack + [ChangedRest];
    assert stack[..|s.out.stack|] == s.out.stack;
    assert forall i :: 0 <= i < |s.out.stack| ==> stack[i] == s.out.stack[i];
  }

  lemma RefusedChangeHarms(s: Exec, cfg: Config, w: World)
    requires LoopSafety.Inv(s, cfg) && !Allowed(s, cfg, Changed(w))
    ensures Harmful(LoopMachine.Step(s, cfg, Changed(w)), cfg)
  {
    HeldCompactionHarms(s, cfg, w);
    assert LoopMachine.Step(s, cfg, Changed(w)) == CompactStart(Push(s, ChangedRest), false);
  }

  /** The opening prompt is compacted for only when nothing waits. */
  lemma OpeningIsAllowed(s: Exec, cfg: Config)
    requires LoopSafety.Inv(s, cfg) && Current(s) && s.out.stack != [] && Top(s).StartSend?
    ensures !Waits(Pop(s))
  {
    assert s.life.started;
    if cfg.judged {
      LoopJudged.CountsWeigh(Pop(s).out.stack, cfg.marked(s.loop.step));
    } else {
      LoopUnjudged.OpeningIsAlone(s, cfg);
    }
  }

  /** A held frame that flushes is taken off. */
  lemma HeldFramePops(s: Exec, cfg: Config)
    requires LoopSafety.Inv(s, cfg) && s.out.stack != [] && (Top(s).FlushHeld? || (Top(s).Answering? && !cfg.judged))
    ensures LoopSafety.Inv(Pop(s), cfg) && (!cfg.judged && Current(s) ==> LoopSafety.Inv(HoldPrompt(Pop(s)), cfg))
  {
    if cfg.judged {
      LoopJudged.PopKeeps(s, cfg);
    } else {
      LoopUnjudged.PopKeeps(s, cfg);
      if Current(s) {
        LoopUnjudged.SameKeeps(Pop(s), HoldPrompt(Pop(s)), cfg);
      }
    }
  }

  lemma RefusedReturnHarms(s: Exec, cfg: Config, w: World)
    requires LoopSafety.Inv(s, cfg) && !Allowed(s, cfg, Return(w))
    ensures Harmful(LoopMachine.Step(s, cfg, Return(w)), cfg)
  {
    var p := Pop(s);
    if Top(s).StartSend? {
      OpeningIsAllowed(s, cfg);
    } else {
      HeldFramePops(s, cfg);
      if Top(s).FlushHeld? {
        HeldCompactionHarms(p, cfg, w);
        assert LoopMachine.Step(s, cfg, Return(w)) == CompactStart(p, false);
      } else {
        HeldCompactionHarms(HoldPrompt(p), cfg, w);
        assert LoopMachine.Step(s, cfg, Return(w)) == CompactStart(HoldPrompt(p), false);
      }
    }
  }

  // ---------------------------------------------------------------- exactly

  /** From every state of an allowed run, an event is allowed exactly when every otherwise allowed continuation of it is
    * clean. */
  lemma AllowedExactly(s: Exec, cfg: Config, e: LoopMachine.Event)
    requires LoopSafety.Inv(s, cfg) && Sound(s, cfg)
    ensures Allowed(s, cfg, e) <==> !Harmful(LoopMachine.Step(s, cfg, e), cfg)
  {
    if Allowed(s, cfg, e) {
      LoopSafety.StepKeepsInv(s, cfg, e);
      InvIsHarmless(LoopMachine.Step(s, cfg, e), cfg);
    } else {
      match e
      case Idle(w) => RefusedEndHarms(s, cfg, w);
      case Changed(w) => RefusedChangeHarms(s, cfg, w);
      case Return(w) => RefusedReturnHarms(s, cfg, w);
    }
  }

  /** So of the whole runs: after any allowed run, the next event may be let through exactly when it is allowed. */
  lemma RunsAreSafeExactlyWhenAllowed(cfg: Config, events: seq<LoopMachine.Event>, e: LoopMachine.Event)
    requires AllAllowed(cfg, events)
    ensures Clean(LoopMachine.Run(cfg, events))
    ensures Allowed(LoopMachine.Run(cfg, events), cfg, e)
       <==> !Harmful(LoopMachine.Step(LoopMachine.Run(cfg, events), cfg, e), cfg)
  {
    LoopSafety.EveryRunKeepsInv(cfg, events);
    LoopSafety.NothingCollides(cfg, events);
    EveryRunIsSound(cfg, events);
    AllowedExactly(LoopMachine.Run(cfg, events), cfg, e);
  }
}
