/** How a run of the loop ends and what its verdicts add up to (src/controller/loop-coordinator.ts:220-244, 338-356, 443-507,
  * 547-611). */
module LoopEndings {
  import opened Collections
  import opened ScoredLoop
  import opened ScoredRuns
  import opened LoopMachine
  import opened LoopOutcome
  import opened LoopOutages

  // ---------------------------------------------------------------- what ends a run, and as what

  datatype Ending = Ending(phase: Phase, reason: Reason)

  /** What ends a working or waiting run from outside: its deadline, the operator, a newer run, the host that refuses a
    * prompt, or a verifier that needs a person or is not to be had. */
  function EndingBy(s: Exec, cfg: Config, outages: nat, e: LoopMachine.Event): Option<Ending> {
    if s.out.stack != [] then None
    else
      match e
      case DeadlineFires => if s.life.deadlineTimer && s.life.owned then Some(Ending(PastDeadline, ByDeadline)) else None
      case StopRun => if s.life.owned then Some(Ending(Cancelled, UserCancelled)) else None
      case Forget => if s.life.owned then Some(Ending(Cancelled, Replaced)) else None
      case Close => if s.life.owned then Some(Ending(Cancelled, UserCancelled)) else None
      case SendFails => if s.out.sends > 0 && Current(s) then Some(Ending(NeedsHuman, SendRejected)) else None
      case VerifyReturns(n, outcome, _) =>
        if !Deciding(s, e) then None
        else if outcome.AsksPerson? then Some(Ending(NeedsHuman, VerifierNeedsHuman))
        else if outcome.Outage? && (!outcome.retryable || (outages >= 2 && !cfg.selfFallback))
        then Some(Ending(Unavailable, VerifierUnavailable))
        else None
      case _ => None
  }

  /** The run ended like this, at the attempt where it stood. */
  predicate EndedAs(s: Exec, n: Exec, end: Ending) {
    && n.loop == s.loop.(phase := end.phase, reason := Some(end.reason), awaiting := false)
    && n.log.consumed == s.log.consumed && !n.life.deadlineTimer
  }

  /** It goes on as it was, or by one verdict. */
  predicate GoesOn(s: Exec, n: Exec) {
    n.log.consumed != s.log.consumed || n.loop == s.loop || n.loop == s.loop.(awaiting := true)
    || (Paused(s.loop) && n.loop == s.loop.(phase := Running, awaiting := true))
  }

  // ---------------------------------------------------------------- parts that do not end a run from outside

  lemma SettlesOn(s: Exec, cfg: Config, v: Option<Verdict>, section: Section, source: Source)
    ensures GoesOn(s, SettleWith(s, cfg, v, section, source))
  {
  }

  lemma ChecksOn(s: Exec, cfg: Config, v: Option<Verdict>, source: Source)
    ensures GoesOn(s, SettleChecked(s, cfg, v, source))
  {
    SettlesOn(Push(s.(guards := s.guards.(settling := true)), SettleEnd), cfg, v, Unchecked, source);
  }

  lemma ReadsOn(s: Exec, cfg: Config, section: Section)
    ensures GoesOn(s, CheckRead(s, cfg, section))
  {
    if s.out.check.Some? {
      var n := s.(out := s.out.(check := None));
      SettlesOn(Push(n, SettleEnd), cfg, Some(s.out.check.value.verdict), section, s.out.check.value.source);
    }
  }

  lemma TriesOn(s: Exec, cfg: Config, w: World)
    ensures GoesOn(s, TrySettle(s, cfg, w))
  {
    ChecksOn(ForgetEnd(s), cfg, w.reply, FromReply);
  }

  lemma SendsOn(s: Exec, cfg: Config, w: World)
    ensures GoesOn(s, Flush(s, cfg, w)) && GoesOn(s, SendPending(s)) && GoesOn(s, SendOpening(s, cfg, w))
    ensures GoesOn(s, TakeAnswer(s, cfg, w)) && GoesOn(s, VerifySection(s, cfg)) && GoesOn(s, VerifyRound(s, cfg))
  {
  }

  /** A verification that comes back: its outcome ends the run, is settled, is tried again, or decides nothing. */
  lemma VerifiesOn(s: Exec, cfg: Config, n: nat, outcome: Outcome, w: World)
    requires Decides(s, n) ==> !outcome.AsksPerson? && !(outcome.Outage? && !outcome.retryable)
                               && !(outcome.Outage? && s.tasks.misses >= 2 && !cfg.selfFallback)
    ensures GoesOn(s, AfterVerify(s, cfg, n, outcome, w))
  {
    var m := ForgetEnd(TaskDone(s, n));
    if outcome.Verified? {
      ChecksOn(m.(tasks := m.tasks.(misses := 0)), cfg, Some(outcome.verdict), FromTask(n));
    } else {
      ChecksOn(Miss(m), cfg, w.reply, FromTask(n));
    }
  }

  lemma VerifierEnds(s: Exec, cfg: Config, e: LoopMachine.Event)
    requires Deciding(s, e) && EndingBy(s, cfg, s.tasks.misses, e).Some?
    ensures EndedAs(s, LoopMachine.Step(s, cfg, e), EndingBy(s, cfg, s.tasks.misses, e).value)
  {
    var d := ForgetEnd(TaskDone(s, e.seqNo));
    assert TaskDone(s, e.seqNo).loop == s.loop && d.loop == s.loop && d.log == s.log;
  }

  lemma FramesGoOn(s: Exec, cfg: Config, f: Frame, w: World)
    ensures GoesOn(s, Continued(s, cfg, f, w))
  {
    SendsOn(s, cfg, w);
    if f.VerifyCall? {
      VerifiesOn(s, cfg, f.seqNo, NoOutcome, w);
    } else if f.ChangedRest? {
      TriesOn(s, cfg, w);
    }
  }

  lemma CallbacksGoOn(s: Exec, cfg: Config, e: LoopMachine.Event)
    requires e.Return? || e.Changed? || e.Idle?
    ensures GoesOn(s, LoopMachine.Step(s, cfg, e))
  {
    if e.Return? {
      if s.out.stack != [] {
        FramesGoOn(Pop(s), cfg, Top(s), e.w);
      }
    } else if e.Changed? {
      SendsOn(Push(s, ChangedRest), cfg, e.w);
      TriesOn(s, cfg, e.w);
    } else {
      TriesOn(s.(guards := s.guards.(endedAt := true)), cfg, e.w);
    }
  }

  lemma ReturnsGoOn(s: Exec, cfg: Config, e: LoopMachine.Event)
    requires e.SectionReturns? || e.CheckReturns? || e.CompactReturns? || e.StartResumes? || e.FlushResumes? || e.SendReturns?
    ensures GoesOn(s, TopStep(s, cfg, e))
  {
    match e
    case SectionReturns(section) => SectionReadQuiet(s, cfg, section);
    case CheckReturns(section) => ReadsOn(s, cfg, section);
    case FlushResumes =>
      if s.out.flushResumes > 0 {
        SendsOn(s.(out := s.out.(flushResumes := s.out.flushResumes - 1)), cfg, World(false, false, None, false));
      }
    case _ =>
  }

  lemma OperatorGoesOn(s: Exec, cfg: Config, e: LoopMachine.Event)
    requires e.Start? || e.SettleTimeout? || e.Answer?
    ensures GoesOn(s, TopStep(s, cfg, e))
  {
    if e.SettleTimeout? {
      TriesOn(s.(guards := s.guards.(settleTimer := false)), cfg, e.w);
    }
  }

  lemma OutsideEnds(s: Exec, cfg: Config, e: LoopMachine.Event)
    requires Active(s.loop) && s.out.stack == []
    requires e.DeadlineFires? || e.StopRun? || e.Forget? || e.Close? || e.SendFails?
    ensures var n := LoopMachine.Step(s, cfg, e);
            if EndingBy(s, cfg, s.tasks.misses, e).Some? then EndedAs(s, n, EndingBy(s, cfg, s.tasks.misses, e).value)
            else GoesOn(s, n)
  {
  }

  // ---------------------------------------------------------------- main results

  /** A step ends an active run from outside exactly as listed, with that phase and that reason, at the attempt where it
    * stood; any other step lets it go on, or consumes one verdict. */
  lemma StepEndsAsListed(s: Exec, cfg: Config, e: LoopMachine.Event)
    requires Active(s.loop)
    ensures var n, end := LoopMachine.Step(s, cfg, e), EndingBy(s, cfg, s.tasks.misses, e);
            if end.Some? then EndedAs(s, n, end.value) else GoesOn(s, n)
  {
    if e.Return? || e.Changed? || e.Idle? {
      CallbacksGoOn(s, cfg, e);
    } else if s.out.stack == [] {
      if e.VerifyReturns? {
        if EndingBy(s, cfg, s.tasks.misses, e).Some? {
          VerifierEnds(s, cfg, e);
        } else if e.seqNo in s.tasks.verifies {
          VerifiesOn(s, cfg, e.seqNo, e.outcome, e.w);
        }
      } else if e.DeadlineFires? || e.StopRun? || e.Forget? || e.Close? || e.SendFails? {
        OutsideEnds(s, cfg, e);
      } else if e.Start? || e.SettleTimeout? || e.Answer? {
        OperatorGoesOn(s, cfg, e);
      } else {
        ReturnsGoOn(s, cfg, e);
      }
    }
  }

  /** So over runs: which event ends a run, in which phase, and for which reason. */
  lemma RunEndsAsListed(cfg: Config, events: seq<LoopMachine.Event>, e: LoopMachine.Event)
    requires Active(LoopMachine.Run(cfg, events).loop)
    ensures var s, n := LoopMachine.Run(cfg, events), LoopMachine.Run(cfg, events + [e]);
            var end := EndingBy(s, cfg, OutagesInRow(cfg, events), e);
            if end.Some? then EndedAs(s, n, end.value) else GoesOn(s, n)
  {
    RunCounts(cfg, events);
    RunNext(cfg, events, e);
    StepEndsAsListed(LoopMachine.Run(cfg, events), cfg, e);
  }

  // ---------------------------------------------------------------- the scores of a run

  /** A consumed verdict as its step is scored: without the score when its section was missing. */
  function Counted(c: LoopMachine.Consumed): Option<Verdict> {
    if c.verdict.Some? && c.section.Missing? then Some(Verdict(None, c.verdict.value.blocked, c.verdict.value.abstained))
    else c.verdict
  }

  /** What happened to a run by its log: its verdicts, and an answer before each in case one was waited for. */
  function Happened(log: seq<LoopMachine.Consumed>): seq<Happening> {
    if log == [] then [] else Happened(log[..|log| - 1]) + [AnswerGiven] + [Judged(Counted(log[|log| - 1]))]
  }

  /** Up to its own end, a run stands where its verdicts put it. */
  predicate Follows(cfg: Config, s: Exec) {
    var l := After(cfg.limits, Happened(s.log.consumed));
    && SameNumbers(l, s.loop)
    && (Active(s.loop) ==> l.reason.None? && (l.phase.Running? || Paused(l)))
    && (ByVerdict(s.loop.phase) ==> l.phase == s.loop.phase && l.reason == s.loop.reason)
  }

  lemma HappenedSnoc(limits: Limits, log: seq<LoopMachine.Consumed>, c: LoopMachine.Consumed)
    ensures var l := After(limits, Happened(log));
            After(limits, Happened(log + [c])) == Happens(Happens(l, limits, AnswerGiven), limits, Judged(Counted(c)))
  {
    var h := Happened(log);
    assert (log + [c])[..|log|] == log;
    assert (h + [AnswerGiven])[..|h|] == h;
    assert (h + [AnswerGiven] + [Judged(Counted(c))])[..|h| + 1] == h + [AnswerGiven];
  }

  /** The rules look only at the numbers of a run. */
  lemma NumbersDecide(l: Loop, m: Loop, limits: Limits, v: Option<Verdict>)
    requires SameNumbers(l, m) && l.phase.Running? && l.reason.None? && Active(m)
    ensures var (x, d) := Settle(l, limits, v);
            var (y, e) := Settle(m, limits, v);
            && SameNumbers(x, y) && (Active(y) ==> x.reason.None? && (x.phase.Running? || Paused(x)))
            && (ByVerdict(y.phase) ==> x.phase == y.phase && x.reason == y.reason)
  {
  }

  lemma StepFollows(cfg: Config, s: Exec, n: Exec)
    requires Follows(cfg, s) && Moves(s, n, cfg) && (Active(n.loop) ==> Active(s.loop))
    requires n.log.consumed == s.log.consumed && ByVerdict(n.loop.phase) ==> n.loop.reason == s.loop.reason
    ensures Follows(cfg, n)
  {
    if n.log.consumed != s.log.consumed {
      var k := |s.log.consumed|;
      var c := n.log.consumed[k];
      assert n.log.consumed == s.log.consumed + [c];
      HappenedSnoc(cfg.limits, s.log.consumed, c);
      var l := Happens(After(cfg.limits, Happened(s.log.consumed)), cfg.limits, AnswerGiven);
      assert Effective(c.verdict, c.section) == Counted(c);
      NumbersDecide(l, s.loop, cfg.limits, Counted(c));
    }
  }

  lemma FreshFollows(cfg: Config)
    ensures Follows(cfg, Fresh(cfg))
  {
  }

  /** In every run, step, attempt, best score and a verdict's ending are what the scoring rules make of the verdicts it
    * consumed, those without their section without their score. */
  lemma {:induction false} RunIsScored(cfg: Config, events: seq<LoopMachine.Event>)
    ensures Follows(cfg, LoopMachine.Run(cfg, events))
  {
    if events == [] {
      FreshFollows(cfg);
    } else {
      var front, e := events[..|events| - 1], events[|events| - 1];
      assert events == front + [e];
      var s, n := LoopMachine.Run(cfg, front), LoopMachine.Run(cfg, events);
      RunIsScored(cfg, front);
      OnlyVerdictsMove(cfg, front, e);
      RunNext(cfg, front, e);
      EveryRunIsSound(cfg, front);
      StepGoes(s, cfg, e);
      if Active(s.loop) {
        RunEndsAsListed(cfg, front, e);
      }
      StepFollows(cfg, s, n);
    }
  }

  /** So a run stalls, or uses up a step's attempts, exactly when its scores say so. */
  lemma RunStallsByItsScores(cfg: Config, events: seq<LoopMachine.Event>)
    requires cfg.limits.from <= cfg.limits.to && cfg.limits.tries >= 1
    ensures var s := LoopMachine.Run(cfg, events);
            var xs := ScoresNow(cfg.limits, Happened(s.log.consumed));
            && (s.loop.phase.Stalled? ==> Converged(xs, cfg.limits.score))
            && (Active(s.loop) ==> !Converged(xs, cfg.limits.score) && |xs| < cfg.limits.tries)
            && IsBest(xs, s.loop.best)
  {
    var limits, h := cfg.limits, Happened(LoopMachine.Run(cfg, events).log.consumed);
    RunIsScored(cfg, events);
    StalledExactlyWhen(limits, h);
    EveryRunTracks(limits, h);
  }

  // ---------------------------------------------------------------- what an ending leaves behind

  /** Its timers are off, its verification is aborted, and neither guard is up. */
  predicate Quieted(s: Exec, n: Exec) {
    && !n.guards.settleTimer && !n.life.deadlineTimer && !n.guards.verifying && !n.guards.compacting && n.tasks.verifyTask.None?
    && (s.tasks.verifyTask.Some? && s.tasks.verifyTask.value in n.tasks.verifies ==> n.tasks.verifies[s.tasks.verifyTask.value])
  }

  /** A run that its deadline, the operator, a newer run or a refused prompt ends has no work and no timer left; a stopped or
    * refused one holds no prompt. */
  lemma EndedFromOutsideIsQuiet(s: Exec, cfg: Config, e: LoopMachine.Event)
    requires e.DeadlineFires? || e.StopRun? || e.Forget? || e.Close? || e.SendFails?
    requires Active(s.loop) && !Active(Step(s, cfg, e).loop)
    ensures Quieted(s, Step(s, cfg, e))
    ensures !e.DeadlineFires? ==> !Step(s, cfg, e).guards.pending
    ensures !e.SendFails? ==> !Step(s, cfg, e).guards.endedAt
  {
  }

  /** The coordinator points elsewhere or is closed, and the run was never begun or is over. */
  predicate Left(s: Exec) {
    !s.life.live && (!s.life.owned || !Active(s.loop))
  }

  predicate StaysLeft(s: Exec, n: Exec) {
    Left(n) && n.life.begins == s.life.begins && n.log.consumed == s.log.consumed && n.tasks.lastSeq == s.tasks.lastSeq
  }

  lemma LeftByStep(s: Exec, cfg: Config, e: LoopMachine.Event)
    requires (e.Forget? || e.Close?) && s.out.stack == []
    ensures Left(Step(s, cfg, e))
  {
  }

  lemma LeftTask(s: Exec, cfg: Config, n: nat, outcome: Outcome, w: World)
    requires Left(s)
    ensures StaysLeft(s, AfterVerify(s, cfg, n, outcome, w))
  {
  }

  lemma LeftFrame(s: Exec, cfg: Config, f: Frame, w: World)
    requires Left(s)
    ensures StaysLeft(s, Continued(s, cfg, f, w))
  {
  }

  lemma LeftTop(s: Exec, cfg: Config, e: LoopMachine.Event)
    requires Left(s) && s.out.stack == []
    ensures StaysLeft(s, TopStep(s, cfg, e))
  {
    if e.VerifyReturns? {
      LeftTask(s, cfg, e.seqNo, e.outcome, e.w);
    }
  }

  lemma LeftStep(s: Exec, cfg: Config, e: LoopMachine.Event)
    requires Left(s)
    ensures StaysLeft(s, Step(s, cfg, e))
  {
    if e.Return? {
      if s.out.stack != [] {
        LeftFrame(Pop(s), cfg, Top(s), e.w);
      }
    } else if !e.Changed? && !e.Idle? && s.out.stack == [] {
      LeftTop(s, cfg, e);
    }
  }

  /** Once it was forgotten or closed, whatever comes, no run begins, no verdict is consumed and no verification starts. */
  lemma {:induction false} LeftForGood(cfg: Config, before: seq<LoopMachine.Event>, e: LoopMachine.Event,
                                       more: seq<LoopMachine.Event>)
    requires (e.Forget? || e.Close?) && LoopMachine.Run(cfg, before).out.stack == []
    ensures StaysLeft(LoopMachine.Run(cfg, before + [e]), LoopMachine.Run(cfg, before + [e] + more))
  {
    var left := before + [e];
    if more == [] {
      assert left + more == left && left[..|before|] == before;
      LeftByStep(LoopMachine.Run(cfg, before), cfg, e);
    } else {
      var front, last := more[..|more| - 1], more[|more| - 1];
      LeftForGood(cfg, before, e, front);
      assert (left + more)[..|left + more| - 1] == left + front;
      LeftStep(LoopMachine.Run(cfg, left + front), cfg, last);
    }
  }
}
