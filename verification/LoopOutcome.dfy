/** What every run of the loop ends with (src/controller/loop-coordinator.ts, src/controller/loop.ts). Nothing here
  * assumes anything of the host, the verifier, the timers or the operator. */
module LoopOutcome {
  import opened Collections
  import opened ScoredLoop
  import opened LoopMachine

  // ---------------------------------------------------------------- what holds throughout

  /** One begin; no end while the run is active, exactly one once it is not; an armed deadline means it is active. */
  predicate LifeOk(s: Exec) {
    && s.life.begins == Bit(s.life.started) && s.life.ends == Bit(s.life.endTraced)
    && (s.life.endTraced <==> !Active(s.loop))
    && (s.life.deadlineTimer ==> s.life.started && Active(s.loop))
    && (!s.life.started ==> !s.life.owned && Active(s.loop))
    && (s.loop.reason.None? <==> Active(s.loop))
  }

  /** A consumed attempt passed a step: a score at or above the limit, whose artifact check did not report a missing
    * section, and was made when the step has one. */
  predicate PassedBy(cfg: Config, c: LoopMachine.Consumed, step: int) {
    && c.step == step && c.verdict.Some? && !c.verdict.value.blocked && !c.verdict.value.abstained
    && c.verdict.value.score.Some? && c.verdict.value.score.value >= cfg.limits.score
    && c.section != Missing && (cfg.marked(step) ==> c.section != Unchecked)
  }

  ghost predicate WasPassed(cfg: Config, log: seq<LoopMachine.Consumed>, step: int) {
    exists i :: 0 <= i < |log| && PassedBy(cfg, log[i], step)
  }

  /** Consumed attempts that cost one: a score, or nothing usable. */
  function Attempts(log: seq<LoopMachine.Consumed>): nat {
    if log == [] then 0 else Attempts(log[..|log| - 1]) + Bit(Scores(log[|log| - 1].verdict))
  }

  /** Gates that are up for a verdict being consumed. */
  function Gates(stack: seq<Frame>): nat {
    if stack == [] then 0 else Gates(stack[..|stack| - 1]) + Bit(stack[|stack| - 1].SettleEnd?)
  }

  /** One verdict at a time is being consumed, and an artifact check is for the step in flight. */
  predicate GateOk(s: Exec) {
    && Bit(s.out.check.Some?) + Gates(s.out.stack) == Bit(s.guards.settling)
    && (s.out.check.Some? ==> s.out.check.value.step == s.loop.step)
  }

  /** Every step behind the run was passed; and the attempts are within the budget. */
  ghost predicate Ledger(s: Exec, cfg: Config) {
    && (forall k :: cfg.limits.from <= k < s.loop.step ==> WasPassed(cfg, s.log.consumed, k))
    && (s.loop.phase.Passed? ==> s.loop.step >= cfg.limits.to && WasPassed(cfg, s.log.consumed, s.loop.step))
    && (cfg.limits.from <= cfg.limits.to && cfg.limits.tries >= 1 ==>
          Within(cfg.limits, s.loop) && Attempts(s.log.consumed) <= Spent(cfg.limits, s.loop))
  }

  ghost predicate Sound(s: Exec, cfg: Config) {
    LifeOk(s) && GateOk(s) && Ledger(s, cfg)
  }

  /** An ended run stays as it ended. */
  predicate Stays(s: Exec, n: Exec) {
    !Active(s.loop) ==> n.loop == s.loop && n.log.consumed == s.log.consumed && n.life.ends == s.life.ends
  }

  /** Two loops stand at the same attempt, with the same score to beat. */
  predicate SameNumbers(l: Loop, m: Loop) {
    m.step == l.step && m.attempt == l.attempt && m.best == l.best && m.noProgress == l.noProgress
  }

  predicate ByVerdict(phase: Phase) {
    phase.Passed? || phase.Exhausted? || phase.Stalled? || phase.Blocked?
  }

  /** A run moves only by consuming one verdict, at the attempt where it stands and while that is outstanding; then it moves
    * as the scoring rules say. */
  predicate Moves(s: Exec, n: Exec, cfg: Config) {
    if n.log.consumed == s.log.consumed then
      SameNumbers(s.loop, n.loop) && (ByVerdict(n.loop.phase) ==> n.loop.phase == s.loop.phase)
    else
      && |n.log.consumed| == |s.log.consumed| + 1 && n.log.consumed[..|s.log.consumed|] == s.log.consumed
      && var c := n.log.consumed[|s.log.consumed|];
         && Current(s) && s.loop.awaiting && c.step == s.loop.step && c.attempt == s.loop.attempt
         && n.loop == Settle(s.loop, cfg.limits, Effective(c.verdict, c.section)).0
  }

  ghost predicate Goes(s: Exec, n: Exec, cfg: Config) {
    Sound(n, cfg) && Stays(s, n) && Moves(s, n, cfg)
  }

  // ---------------------------------------------------------------- parts that decide nothing

  /** A part of a segment that neither starts, ends nor judges: at most an attempt becomes outstanding. */
  predicate Quiet(s: Exec, n: Exec) {
    && n.life == s.life && n.log.consumed == s.log.consumed && n.loop.(awaiting := s.loop.awaiting) == s.loop
    && (!Active(s.loop) ==> n.loop == s.loop)
    && n.out.check == s.out.check && n.guards.settling == s.guards.settling && Gates(n.out.stack) == Gates(s.out.stack)
  }

  lemma QuietGoes(s: Exec, n: Exec, cfg: Config)
    requires Sound(s, cfg) && Quiet(s, n)
    ensures Goes(s, n, cfg)
  {
  }

  lemma PushGates(s: Exec, f: Frame)
    ensures Gates(Push(s, f).out.stack) == Gates(s.out.stack) + Bit(f.SettleEnd?)
  {
    assert (s.out.stack + [f])[..|s.out.stack|] == s.out.stack;
  }

  lemma VerifyRoundQuiet(s: Exec, cfg: Config)
    ensures Quiet(s, VerifyRound(s, cfg))
  {
    PushGates(s, VerifyCall(s.tasks.lastSeq + 1));
  }

  lemma VerifySectionQuiet(s: Exec, cfg: Config)
    ensures Quiet(s, VerifySection(s, cfg))
  {
    VerifyRoundQuiet(s, cfg);
  }

  lemma SendPendingQuiet(s: Exec)
    ensures Quiet(s, SendPending(s))
  {
    var n := Await(DropPrompt(s));
    PushGates(n, FlushSend);
  }

  lemma FlushQuiet(s: Exec, cfg: Config, w: World)
    ensures Quiet(s, Flush(s, cfg, w))
  {
    SendPendingQuiet(s);
    PushGates(s.(guards := s.guards.(compacting := true)), CompactCall(false));
  }

  lemma SendOpeningQuiet(s: Exec, cfg: Config, w: World)
    ensures Quiet(s, SendOpening(s, cfg, w))
  {
    PushGates(s.(guards := s.guards.(compacting := true)), CompactCall(true));
    PushGates(Await(s), StartSent);
  }

  lemma TakeAnswerQuiet(s: Exec, cfg: Config, w: World)
    ensures Quiet(s, TakeAnswer(s, cfg, w))
  {
    VerifySectionQuiet(s, cfg);
    FlushQuiet(HoldPrompt(s), cfg, w);
  }

  lemma SectionReadQuiet(s: Exec, cfg: Config, section: Section)
    ensures Quiet(s, SectionRead(s, cfg, section))
  {
    if s.out.sectionReads > 0 {
      VerifyRoundQuiet(s.(out := s.out.(sectionReads := s.out.sectionReads - 1)), cfg);
      PushGates(s, FlushHeld);
    }
  }

  lemma CompactDoneQuiet(s: Exec)
    ensures Quiet(s, CompactDone(s))
  {
    if s.out.compaction.Some? {
      PushGates(s.(out := s.out.(compaction := None)), CompactNote(s.out.compaction.value));
    }
  }

  lemma StartResumedQuiet(s: Exec)
    ensures Quiet(s, StartResumed(s))
  {
    var n := Await(s.(out := s.out.(startResume := false)));
    PushGates(n, StartSent);
  }

  // ---------------------------------------------------------------- parts that end the run

  /** The run was active and ended for a reason of its own, with no attempt consumed. */
  predicate Ending(s: Exec, n: Exec) {
    && Active(s.loop) && SameNumbers(s.loop, n.loop) && n.loop.reason.Some?
    && (n.loop.phase.NeedsHuman? || n.loop.phase.Cancelled? || n.loop.phase.Unavailable? || n.loop.phase.PastDeadline?)
    && n.log.consumed == s.log.consumed && n.out == s.out && n.guards.settling == s.guards.settling
    && n.life.ends == s.life.ends + 1 && n.life.endTraced && !n.life.deadlineTimer
    && n.life.started == s.life.started && n.life.begins == s.life.begins
  }

  lemma EndingGoes(s: Exec, n: Exec, cfg: Config)
    requires Sound(s, cfg) && s.life.started && Ending(s, n)
    ensures Goes(s, n, cfg)
  {
  }

  lemma StoppedGoes(s: Exec, cfg: Config, reason: Reason)
    requires Sound(s, cfg)
    ensures Goes(s, Stopped(s, reason), cfg)
  {
    if s.life.owned && Active(s.loop) {
      EndingGoes(s, Stopped(s, reason), cfg);
    }
  }

  lemma RejectedGoes(s: Exec, cfg: Config)
    requires Sound(s, cfg)
    ensures Goes(s, Rejected(s), cfg)
  {
    if Current(s) {
      EndingGoes(s, Rejected(s), cfg);
    }
  }

  lemma ExpiredGoes(s: Exec, cfg: Config)
    requires Sound(s, cfg)
    ensures Goes(s, Expired(s), cfg)
  {
    if s.life.owned && Active(s.loop) {
      EndingGoes(s, Expired(s), cfg);
    }
  }

  lemma EndedByTaskGoes(s: Exec, cfg: Config, phase: Phase, reason: Reason)
    requires Sound(s, cfg) && Current(s) && (phase.Unavailable? || phase.NeedsHuman?)
    ensures Goes(s, EndedByTask(s, phase, reason), cfg)
  {
    EndingGoes(s, EndedByTask(s, phase, reason), cfg);
  }

  lemma LeavingGoes(s: Exec, cfg: Config, reason: Reason)
    requires Sound(s, cfg)
    ensures Goes(s, Stopped(Leave(s), reason), cfg) && Goes(s, Disown(Stopped(Leave(s), Replaced)), cfg)
  {
    StoppedGoes(Leave(s), cfg, reason);
    StoppedGoes(Leave(s), cfg, Replaced);
  }

  // ---------------------------------------------------------------- parts that judge

  /** What the artifact check may have found for a verdict: it is skipped only where there is nothing to check. */
  predicate Examined(s: Exec, cfg: Config, v: Option<Verdict>, section: Section) {
    section == Unchecked ==> !NeedsCheck(s, cfg, v)
  }

  lemma LongerLog(cfg: Config, log: seq<LoopMachine.Consumed>, c: LoopMachine.Consumed)
    ensures forall k :: WasPassed(cfg, log, k) || PassedBy(cfg, c, k) ==> WasPassed(cfg, log + [c], k)
    ensures Attempts(log + [c]) == Attempts(log) + Bit(Scores(c.verdict))
  {
    assert (log + [c])[..|log|] == log;
    forall k | WasPassed(cfg, log, k) || PassedBy(cfg, c, k) ensures WasPassed(cfg, log + [c], k) {
      if WasPassed(cfg, log, k) {
        var i :| 0 <= i < |log| && PassedBy(cfg, log[i], k);
        assert (log + [c])[i] == log[i];
      } else {
        assert (log + [c])[|log|] == c;
      }
    }
  }

  /** A decision ends the run, or leaves it active: continuing, or asking a person. */
  lemma DecisionMeans(l: Loop, limits: Limits, v: Option<Verdict>)
    requires Active(l) && l.reason.None?
    ensures var r := Settle(l, limits, v);
            (r.1 == Continue || r.1 == Asks <==> Active(r.0)) && (Active(r.0) <==> r.0.reason.None?)
  {
  }

  /** A step is left behind, or the run passed, exactly by a consumed attempt that passed it. */
  lemma StepIsPassed(s: Exec, cfg: Config, v: Option<Verdict>, section: Section, source: Source)
    requires Active(s.loop) && Examined(s, cfg, v, section)
    ensures var r := Settle(s.loop, cfg.limits, Effective(v, section));
            var c := Consumed(s.loop.step, s.loop.attempt, v, section, source);
            && (r.0.step > s.loop.step || r.0.phase.Passed? <==> PassedBy(cfg, c, s.loop.step))
            && s.loop.step <= r.0.step <= s.loop.step + 1
            && (r.0.phase.Passed? ==> r.0.step == s.loop.step >= cfg.limits.to)
  {
  }

  lemma BudgetIsSpent(l: Loop, limits: Limits, v: Option<Verdict>)
    requires limits.from <= limits.to && limits.tries >= 1 && Within(limits, l) && Active(l)
    ensures Within(limits, Settle(l, limits, v).0)
    ensures Spent(limits, l) + Bit(Scores(v)) <= Spent(limits, Settle(l, limits, v).0)
  {
    if Scores(v) {
      AttemptIsSpent(l, limits, v);
    }
  }

  lemma TakenLedger(s: Exec, cfg: Config, v: Option<Verdict>, section: Section, source: Source)
    requires Ledger(s, cfg) && Active(s.loop) && Examined(s, cfg, v, section)
    ensures var c := Consumed(s.loop.step, s.loop.attempt, v, section, source);
            Ledger(Taken(s, Settle(s.loop, cfg.limits, Effective(v, section)).0, c), cfg)
  {
    var c := Consumed(s.loop.step, s.loop.attempt, v, section, source);
    LongerLog(cfg, s.log.consumed, c);
    StepIsPassed(s, cfg, v, section, source);
    if cfg.limits.from <= cfg.limits.to && cfg.limits.tries >= 1 {
      BudgetIsSpent(s.loop, cfg.limits, Effective(v, section));
    }
  }

  lemma SettleWithGoes(s: Exec, cfg: Config, v: Option<Verdict>, section: Section, source: Source)
    requires Sound(s, cfg) && s.out.check.None? && Examined(s, cfg, v, section)
    ensures Goes(s, SettleWith(s, cfg, v, section, source), cfg)
  {
    if Current(s) && s.loop.awaiting {
      var r := Settle(s.loop, cfg.limits, Effective(v, section));
      var n := Taken(s, r.0, Consumed(s.loop.step, s.loop.attempt, v, section, source));
      DecisionMeans(s.loop, cfg.limits, Effective(v, section));
      TakenLedger(s, cfg, v, section, source);
      PushGates(n, StepVerify);
      PushGates(HoldPrompt(n), FlushHeld);
    }
  }

  lemma SettleCheckedGoes(s: Exec, cfg: Config, v: Option<Verdict>, source: Source)
    requires Sound(s, cfg)
    ensures Goes(s, SettleChecked(s, cfg, v, source), cfg)
  {
    if Current(s) && s.loop.awaiting && !s.guards.settling && !NeedsCheck(s, cfg, v) {
      var n := s.(guards := s.guards.(settling := true));
      PushGates(n, SettleEnd);
      SettleWithGoes(Push(n, SettleEnd), cfg, v, Unchecked, source);
    }
  }

  lemma CheckReadGoes(s: Exec, cfg: Config, section: Section)
    requires Sound(s, cfg) && !section.Unchecked?
    ensures Goes(s, CheckRead(s, cfg, section), cfg)
  {
    if s.out.check.Some? {
      var n := s.(out := s.out.(check := None));
      PushGates(n, SettleEnd);
      if Current(n) && n.loop.awaiting {
        SettleWithGoes(Push(n, SettleEnd), cfg, Some(s.out.check.value.verdict), section, s.out.check.value.source);
      }
    }
  }

  lemma TrySettleGoes(s: Exec, cfg: Config, w: World)
    requires Sound(s, cfg)
    ensures Goes(s, TrySettle(s, cfg, w), cfg)
  {
    VerifyRoundQuiet(s, cfg);
    SettleCheckedGoes(ForgetEnd(s), cfg, w.reply, FromReply);
  }

  lemma AfterOutageGoes(s: Exec, cfg: Config, n: nat, retryable: bool, w: World)
    requires Sound(s, cfg) && Current(s)
    ensures Goes(s, AfterOutage(s, cfg, n, retryable, w), cfg)
  {
    var m := Miss(s);
    if !retryable {
      EndedByTaskGoes(s, cfg, Unavailable, VerifierUnavailable);
    } else if m.tasks.misses <= VerifierRetries {
      PushGates(m, RetryVerify);
    } else {
      SettleCheckedGoes(m, cfg, w.reply, FromTask(n));
      EndedByTaskGoes(m, cfg, Unavailable, VerifierUnavailable);
    }
  }

  lemma AfterVerifyGoes(s: Exec, cfg: Config, n: nat, outcome: Outcome, w: World)
    requires Sound(s, cfg)
    ensures Goes(s, AfterVerify(s, cfg, n, outcome, w), cfg)
  {
    var d := TaskDone(s, n);
    assert Quiet(s, d);
    if Decides(d, n) {
      var m := ForgetEnd(d);
      assert Quiet(s, m);
      match outcome
      case NoOutcome =>
      case AsksPerson => EndedByTaskGoes(m, cfg, NeedsHuman, VerifierNeedsHuman);
      case Verified(v) => SettleCheckedGoes(m.(tasks := m.tasks.(misses := 0)), cfg, Some(v), FromTask(n));
      case Outage(retryable) => AfterOutageGoes(m, cfg, n, retryable, w);
    }
  }

  lemma CallVerifierGoes(s: Exec, cfg: Config, n: nat, w: World)
    requires Sound(s, cfg)
    ensures Goes(s, CallVerifier(s, cfg, n, w), cfg)
  {
    AfterVerifyGoes(s, cfg, n, NoOutcome, w);
  }

  lemma RestGoes(s: Exec, cfg: Config, w: World)
    requires Sound(s, cfg)
    ensures Goes(s, RestOfChange(s, cfg, w), cfg)
  {
    TrySettleGoes(s, cfg, w);
  }

  // ---------------------------------------------------------------- steps

  lemma UngatedGoes(s: Exec, cfg: Config)
    requires Sound(s, cfg) && s.out.stack != [] && Top(s).SettleEnd?
    ensures Goes(s, Pop(s).(guards := s.guards.(settling := false)), cfg)
  {
  }

  lemma PoppedQuiet(s: Exec)
    requires s.out.stack != [] && !Top(s).SettleEnd?
    ensures Quiet(s, Pop(s))
  {
  }

  /** Frames that send, compact, or flush. */
  lemma HandlingQuiet(s: Exec, cfg: Config, f: Frame, w: World)
    requires f.StartSend? || f.StartSent? || f.FlushSend? || f.FlushHeld? || f.CompactCall? || f.CompactNote?
    ensures Quiet(s, Continued(s, cfg, f, w))
  {
    match f
    case StartSend => SendOpeningQuiet(s, cfg, w);
    case FlushHeld => FlushQuiet(s, cfg, w);
    case _ =>
  }

  /** Frames that are about to have something judged. */
  lemma JudgingQuiet(s: Exec, cfg: Config, f: Frame, w: World)
    requires f.StartVerify? || f.StepVerify? || f.RetryVerify? || f.Answering?
    ensures Quiet(s, Continued(s, cfg, f, w))
  {
    match f
    case StartVerify => VerifySectionQuiet(s, cfg);
    case StepVerify => VerifySectionQuiet(s, cfg);
    case RetryVerify => VerifyRoundQuiet(s, cfg);
    case Answering => TakeAnswerQuiet(s, cfg, w);
  }

  lemma GoesOn(s: Exec, p: Exec, n: Exec, cfg: Config)
    requires Quiet(s, p) && Goes(p, n, cfg) && Sound(s, cfg) && p.loop == s.loop
    ensures Goes(s, n, cfg)
  {
  }

  lemma ReturnGoes(s: Exec, cfg: Config, w: World)
    requires Sound(s, cfg) && s.out.stack != []
    ensures Goes(s, Continued(Pop(s), cfg, Top(s), w), cfg)
  {
    var p, f := Pop(s), Top(s);
    if f.SettleEnd? {
      UngatedGoes(s, cfg);
    } else {
      var n := Continued(p, cfg, f, w);
      PoppedQuiet(s);
      QuietGoes(s, p, cfg);
      if f.VerifyCall? {
        CallVerifierGoes(p, cfg, f.seqNo, w);
      } else if f.ChangedRest? {
        RestGoes(p, cfg, w);
      } else if f.StartVerify? || f.StepVerify? || f.RetryVerify? || f.Answering? {
        JudgingQuiet(p, cfg, f, w);
        QuietGoes(p, n, cfg);
      } else {
        HandlingQuiet(p, cfg, f, w);
        QuietGoes(p, n, cfg);
      }
      GoesOn(s, p, n, cfg);
    }
  }

  lemma ChangedGoes(s: Exec, cfg: Config, w: World)
    requires Sound(s, cfg)
    ensures Goes(s, ChangedStep(s, cfg, w), cfg)
  {
    if s.guards.pending {
      PushGates(s, ChangedRest);
      FlushQuiet(Push(s, ChangedRest), cfg, w);
      QuietGoes(s, ChangedStep(s, cfg, w), cfg);
    } else {
      RestGoes(s, cfg, w);
    }
  }

  lemma IdleGoes(s: Exec, cfg: Config, w: World)
    requires Sound(s, cfg)
    ensures Goes(s, IdleStep(s, cfg, w), cfg)
  {
    TrySettleGoes(s.(guards := s.guards.(endedAt := true)), cfg, w);
  }

  lemma StartedGoes(s: Exec, cfg: Config)
    requires Sound(s, cfg) && !s.life.started
    ensures Goes(s, Started(s, cfg), cfg)
  {
    PushGates(s, StartVerify);
    PushGates(s, StartSend);
  }

  lemma AnswerGoes(s: Exec, cfg: Config)
    requires Sound(s, cfg) && s.life.owned && Paused(s.loop)
    ensures Goes(s, Answered(s), cfg)
  {
    PushGates(s, Answering);
  }

  lemma ReadingGoes(s: Exec, cfg: Config, e: LoopMachine.Event)
    requires Sound(s, cfg) && (e.SectionReturns? || e.CheckReturns? || e.VerifyReturns? || e.CompactReturns?)
    ensures Goes(s, TopStep(s, cfg, e), cfg)
  {
    match e
    case SectionReturns(section) =>
      SectionReadQuiet(s, cfg, section);
      QuietGoes(s, SectionRead(s, cfg, section), cfg);
    case CheckReturns(section) => if !section.Unchecked? { CheckReadGoes(s, cfg, section); }
    case VerifyReturns(n, outcome, w) => AfterVerifyGoes(s, cfg, n, outcome, w);
    case CompactReturns =>
      CompactDoneQuiet(s);
      QuietGoes(s, CompactDone(s), cfg);
  }

  lemma SendFailedGoes(s: Exec, cfg: Config)
    requires Sound(s, cfg) && s.out.sends > 0
    ensures Goes(s, Rejected(s.(out := s.out.(sends := s.out.sends - 1))), cfg)
  {
    var n := s.(out := s.out.(sends := s.out.sends - 1));
    assert Quiet(s, n);
    RejectedGoes(n, cfg);
  }

  lemma FlushResumedGoes(s: Exec, cfg: Config)
    requires Sound(s, cfg) && s.out.flushResumes > 0
    ensures Goes(s, SendPending(s.(out := s.out.(flushResumes := s.out.flushResumes - 1))), cfg)
  {
    var n := s.(out := s.out.(flushResumes := s.out.flushResumes - 1));
    SendPendingQuiet(n);
    assert Quiet(s, SendPending(n));
    QuietGoes(s, SendPending(n), cfg);
  }

  lemma SendReturnedGoes(s: Exec, cfg: Config)
    requires Sound(s, cfg) && s.out.sends > 0
    ensures Goes(s, s.(out := s.out.(sends := s.out.sends - 1)), cfg)
  {
  }

  lemma SendingGoes(s: Exec, cfg: Config, e: LoopMachine.Event)
    requires Sound(s, cfg) && (e.StartResumes? || e.FlushResumes? || e.SendReturns? || e.SendFails?)
    ensures Goes(s, TopStep(s, cfg, e), cfg)
  {
    match e
    case StartResumes =>
      StartResumedQuiet(s);
      QuietGoes(s, StartResumed(s), cfg);
    case FlushResumes => if s.out.flushResumes > 0 { FlushResumedGoes(s, cfg); }
    case SendReturns => if s.out.sends > 0 { SendReturnedGoes(s, cfg); }
    case SendFails => if s.out.sends > 0 { SendFailedGoes(s, cfg); }
  }

  lemma ClosingGoes(s: Exec, cfg: Config, e: LoopMachine.Event)
    requires Sound(s, cfg) && (e.DeadlineFires? || e.StopRun? || e.Forget? || e.Close?)
    ensures Goes(s, TopStep(s, cfg, e), cfg)
  {
    match e
    case DeadlineFires => ExpiredGoes(s, cfg);
    case StopRun => StoppedGoes(s, cfg, UserCancelled);
    case Forget => LeavingGoes(s, cfg, Replaced);
    case Close => LeavingGoes(s, cfg, UserCancelled);
  }

  lemma OperatingGoes(s: Exec, cfg: Config, e: LoopMachine.Event)
    requires Sound(s, cfg) && (e.Start? || e.SettleTimeout? || e.Answer?)
    ensures Goes(s, TopStep(s, cfg, e), cfg)
  {
    match e
    case Start => if !s.life.started { StartedGoes(s, cfg); }
    case SettleTimeout(w) => TrySettleGoes(s.(guards := s.guards.(settleTimer := false)), cfg, w);
    case Answer => if s.life.live && s.life.owned && Paused(s.loop) { AnswerGoes(s, cfg); }
  }

  lemma TopStepGoes(s: Exec, cfg: Config, e: LoopMachine.Event)
    requires Sound(s, cfg)
    ensures Goes(s, TopStep(s, cfg, e), cfg)
  {
    if e.SectionReturns? || e.CheckReturns? || e.VerifyReturns? || e.CompactReturns? {
      ReadingGoes(s, cfg, e);
    } else if e.StartResumes? || e.FlushResumes? || e.SendReturns? || e.SendFails? {
      SendingGoes(s, cfg, e);
    } else if e.DeadlineFires? || e.StopRun? || e.Forget? || e.Close? {
      ClosingGoes(s, cfg, e);
    } else if e.Start? || e.SettleTimeout? || e.Answer? {
      OperatingGoes(s, cfg, e);
    }
  }

  /** Every step keeps what holds throughout, and an ended run keeps its phase, its reason and everything it consumed. */
  lemma StepGoes(s: Exec, cfg: Config, e: LoopMachine.Event)
    requires Sound(s, cfg)
    ensures Goes(s, LoopMachine.Step(s, cfg, e), cfg)
  {
    match e
    case Return(w) => if s.out.stack != [] { ReturnGoes(s, cfg, w); }
    case Changed(w) => ChangedGoes(s, cfg, w);
    case Idle(w) => IdleGoes(s, cfg, w);
    case _ => TopStepGoes(s, cfg, e);
  }

  // ---------------------------------------------------------------- main results

  lemma {:induction false} EveryRunIsSound(cfg: Config, events: seq<LoopMachine.Event>)
    ensures Sound(LoopMachine.Run(cfg, events), cfg)
  {
    if events != [] {
      EveryRunIsSound(cfg, events[..|events| - 1]);
      StepGoes(LoopMachine.Run(cfg, events[..|events| - 1]), cfg, events[|events| - 1]);
    }
  }

  /** In every run one begin is traced, no end while it is active, exactly one once it is not, and an armed deadline means
    * it is active. */
  lemma OneBeginOneEnd(cfg: Config, events: seq<LoopMachine.Event>)
    ensures var s := LoopMachine.Run(cfg, events);
            && s.life.begins == (if s.life.started then 1 else 0)
            && s.life.ends == (if Active(s.loop) then 0 else 1)
            && (s.life.deadlineTimer ==> s.life.started && Active(s.loop))
            && (s.loop.reason.Some? <==> !Active(s.loop))
  {
    EveryRunIsSound(cfg, events);
  }

  lemma RunNext(cfg: Config, events: seq<LoopMachine.Event>, e: LoopMachine.Event)
    ensures LoopMachine.Run(cfg, events + [e]) == LoopMachine.Step(LoopMachine.Run(cfg, events), cfg, e)
  {
    assert (events + [e])[..|events|] == events;
  }

  lemma StaysOn(s: Exec, m: Exec, n: Exec)
    requires Stays(s, m) && Stays(m, n)
    ensures Stays(s, n)
  {
  }

  /** Whatever happens after a run ended, it ends with the phase, the reason and the attempts it ended with. */
  lemma {:induction false} EndedRunsStay(cfg: Config, events: seq<LoopMachine.Event>, more: seq<LoopMachine.Event>)
    ensures Stays(LoopMachine.Run(cfg, events), LoopMachine.Run(cfg, events + more))
  {
    if more == [] {
      assert events + more == events;
    } else {
      var k := |more| - 1;
      var before := events + more[..k];
      assert events + more == before + [more[k]];
      EndedRunsStay(cfg, events, more[..k]);
      RunNext(cfg, before, more[k]);
      EveryRunIsSound(cfg, before);
      StepGoes(LoopMachine.Run(cfg, before), cfg, more[k]);
      StaysOn(LoopMachine.Run(cfg, events), LoopMachine.Run(cfg, before), LoopMachine.Run(cfg, events + more));
    }
  }

  /** Every run moves only by the verdicts it consumes. */
  lemma OnlyVerdictsMove(cfg: Config, events: seq<LoopMachine.Event>, e: LoopMachine.Event)
    ensures Moves(LoopMachine.Run(cfg, events), LoopMachine.Run(cfg, events + [e]), cfg)
  {
    RunNext(cfg, events, e);
    EveryRunIsSound(cfg, events);
    StepGoes(LoopMachine.Run(cfg, events), cfg, e);
  }

  /** A run passes only if each of its steps was passed by an attempt that it consumed at that step. */
  lemma PassedMeansEveryStep(cfg: Config, events: seq<LoopMachine.Event>, step: int)
    requires LoopMachine.Run(cfg, events).loop.phase.Passed? && cfg.limits.from <= step <= cfg.limits.to
    ensures WasPassed(cfg, LoopMachine.Run(cfg, events).log.consumed, step)
  {
    EveryRunIsSound(cfg, events);
  }

  /** Every run consumes at most its number of tries for each step, whatever is reported to it. */
  lemma AttemptsStayWithinBudget(cfg: Config, events: seq<LoopMachine.Event>)
    requires cfg.limits.from <= cfg.limits.to && cfg.limits.tries >= 1
    ensures var s := LoopMachine.Run(cfg, events);
            Attempts(s.log.consumed) <= (cfg.limits.to - cfg.limits.from + 1) * cfg.limits.tries
  {
    EveryRunIsSound(cfg, events);
    SpentIsBounded(cfg.limits, LoopMachine.Run(cfg, events).loop);
  }
}
