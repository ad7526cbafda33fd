/** What becomes of outages of the verifier (src/controller/loop-coordinator.ts:443-507): how often an attempt is retried, and
  * what comes after. */
module LoopOutages {
  import opened Collections
  import opened ScoredLoop
  import opened LoopMachine
  import opened LoopOutcome

  // ---------------------------------------------------------------- outages in a row

  /** A verification comes back that may decide: it is the newest one, and its run is current and waits for it. */
  predicate Deciding(s: Exec, e: LoopMachine.Event) {
    && e.VerifyReturns? && s.out.stack == [] && e.seqNo in s.tasks.verifies
    && s.tasks.identity == Some(e.seqNo) && Current(s) && s.loop.awaiting
  }

  /** Retryable outages of deciding verifications since the last verdict of one. */
  function OutagesInRow(cfg: Config, events: seq<LoopMachine.Event>): nat {
    if events == [] then 0
    else
      var front, e := events[..|events| - 1], events[|events| - 1];
      var row := OutagesInRow(cfg, front);
      if !Deciding(LoopMachine.Run(cfg, front), e) then row
      else if e.outcome.Verified? then 0
      else if e.outcome.Outage? && e.outcome.retryable then row + 1
      else row
  }

  // ---------------------------------------------------------------- tasks and their guard

  /** The guard is up exactly while a task is kept, and that is the newest; only judged runs have any. */
  predicate Tied(s: Exec, cfg: Config) {
    && (s.guards.verifying <==> s.tasks.verifyTask.Some?)
    && (s.tasks.verifyTask.Some? ==> s.tasks.identity == s.tasks.verifyTask)
    && (s.tasks.identity.Some? ==> cfg.judged && s.tasks.identity == Some(s.tasks.lastSeq))
  }

  /** A part that counts no outage. */
  predicate Keeps(s: Exec, n: Exec, cfg: Config) {
    n.tasks.misses == s.tasks.misses && (Tied(s, cfg) ==> Tied(n, cfg))
  }

  predicate SameTask(s: Exec, n: Exec) {
    n.tasks == s.tasks && n.guards.verifying == s.guards.verifying
  }

  lemma VerifyRoundTies(s: Exec, cfg: Config)
    ensures Keeps(s, VerifyRound(s, cfg), cfg)
  {
  }

  lemma VerifySectionTies(s: Exec, cfg: Config)
    ensures Keeps(s, VerifySection(s, cfg), cfg)
  {
    VerifyRoundTies(s, cfg);
  }

  lemma SectionReadTies(s: Exec, cfg: Config, section: Section)
    ensures Keeps(s, SectionRead(s, cfg, section), cfg)
  {
    if s.out.sectionReads > 0 {
      VerifyRoundTies(s.(out := s.out.(sectionReads := s.out.sectionReads - 1)), cfg);
    }
  }

  lemma SettleWithTies(s: Exec, cfg: Config, v: Option<Verdict>, section: Section, source: Source)
    ensures SameTask(s, SettleWith(s, cfg, v, section, source))
  {
  }

  lemma SettleCheckedTies(s: Exec, cfg: Config, v: Option<Verdict>, source: Source)
    ensures SameTask(s, SettleChecked(s, cfg, v, source))
  {
    SettleWithTies(Push(s.(guards := s.guards.(settling := true)), SettleEnd), cfg, v, Unchecked, source);
  }

  lemma CheckReadTies(s: Exec, cfg: Config, section: Section)
    ensures SameTask(s, CheckRead(s, cfg, section))
  {
    if s.out.check.Some? {
      var n := s.(out := s.out.(check := None));
      SettleWithTies(Push(n, SettleEnd), cfg, Some(s.out.check.value.verdict), section, s.out.check.value.source);
    }
  }

  lemma TrySettleTies(s: Exec, cfg: Config, w: World)
    ensures Keeps(s, TrySettle(s, cfg, w), cfg)
  {
    VerifyRoundTies(s, cfg);
    SettleCheckedTies(ForgetEnd(s), cfg, w.reply, FromReply);
  }

  lemma FlushTies(s: Exec, cfg: Config, w: World)
    ensures SameTask(s, Flush(s, cfg, w)) && SameTask(s, SendPending(s))
  {
  }

  lemma SendOpeningTies(s: Exec, cfg: Config, w: World)
    ensures SameTask(s, SendOpening(s, cfg, w))
  {
  }

  lemma TakeAnswerTies(s: Exec, cfg: Config, w: World)
    ensures Keeps(s, TakeAnswer(s, cfg, w), cfg)
  {
    VerifySectionTies(s, cfg);
    FlushTies(HoldPrompt(s), cfg, w);
  }

  lemma TaskDoneTies(s: Exec, n: nat, cfg: Config)
    ensures Keeps(s, TaskDone(s, n), cfg)
    ensures Tied(s, cfg) && s.tasks.identity == Some(n) ==> !TaskDone(s, n).guards.verifying
  {
  }

  lemma CallVerifierTies(s: Exec, cfg: Config, n: nat, w: World)
    ensures Keeps(s, CallVerifier(s, cfg, n, w), cfg)
  {
    TaskDoneTies(s, n, cfg);
  }

  lemma StoppedTies(s: Exec, cfg: Config, reason: Reason)
    ensures Keeps(s, Stopped(s, reason), cfg) && Keeps(s, Rejected(s), cfg) && Keeps(s, Expired(s), cfg)
  {
  }

  lemma RestTies(s: Exec, cfg: Config, w: World)
    ensures Keeps(s, RestOfChange(s, cfg, w), cfg)
  {
    TrySettleTies(s, cfg, w);
  }

  /** What an outage counts, and what it leads to, is said of the state with the task taken off. */
  lemma AfterVerifyTies(s: Exec, cfg: Config, n: nat, outcome: Outcome, w: World)
    ensures var a := AfterVerify(s, cfg, n, outcome, w);
            && (Tied(s, cfg) ==> Tied(a, cfg))
            && a.tasks.misses == if !Decides(s, n) then s.tasks.misses
                                 else if outcome.Verified? then 0
                                 else if outcome.Outage? && outcome.retryable then s.tasks.misses + 1
                                 else s.tasks.misses
  {
    TaskDoneTies(s, n, cfg);
    var m := ForgetEnd(TaskDone(s, n));
    if outcome.Verified? {
      SettleCheckedTies(m.(tasks := m.tasks.(misses := 0)), cfg, Some(outcome.verdict), FromTask(n));
    } else {
      SettleCheckedTies(Miss(m), cfg, w.reply, FromTask(n));
    }
  }

  // ---------------------------------------------------------------- steps

  lemma JudgingTies(s: Exec, cfg: Config, f: Frame, w: World)
    requires f.StartVerify? || f.RetryVerify? || f.StepVerify? || f.VerifyCall? || f.ChangedRest? || f.Answering?
    ensures Keeps(s, Continued(s, cfg, f, w), cfg)
  {
    VerifySectionTies(s, cfg);
    VerifyRoundTies(s, cfg);
    RestTies(s, cfg, w);
    TakeAnswerTies(s, cfg, w);
    if f.VerifyCall? {
      CallVerifierTies(s, cfg, f.seqNo, w);
    }
  }

  lemma SendingTies(s: Exec, cfg: Config, f: Frame, w: World)
    requires !(f.StartVerify? || f.RetryVerify? || f.StepVerify? || f.VerifyCall? || f.ChangedRest? || f.Answering?)
    ensures Keeps(s, Continued(s, cfg, f, w), cfg)
  {
    FlushTies(s, cfg, w);
    SendOpeningTies(s, cfg, w);
  }

  lemma ReturnTies(s: Exec, cfg: Config, w: World)
    requires s.out.stack != []
    ensures Keeps(s, Continued(Pop(s), cfg, Top(s), w), cfg)
  {
    var f := Top(s);
    if f.StartVerify? || f.RetryVerify? || f.StepVerify? || f.VerifyCall? || f.ChangedRest? || f.Answering? {
      JudgingTies(Pop(s), cfg, f, w);
    } else {
      SendingTies(Pop(s), cfg, f, w);
    }
  }

  lemma CallbackTies(s: Exec, cfg: Config, e: LoopMachine.Event)
    requires e.Changed? || e.Idle?
    ensures Keeps(s, LoopMachine.Step(s, cfg, e), cfg)
  {
    if e.Changed? {
      FlushTies(Push(s, ChangedRest), cfg, e.w);
      RestTies(s, cfg, e.w);
    } else {
      TrySettleTies(s.(guards := s.guards.(endedAt := true)), cfg, e.w);
    }
  }

  lemma ReadingTies(s: Exec, cfg: Config, e: LoopMachine.Event)
    requires e.SectionReturns? || e.CheckReturns? || e.CompactReturns? || e.StartResumes? || e.FlushResumes?
    ensures Keeps(s, TopStep(s, cfg, e), cfg)
  {
    match e
    case SectionReturns(section) => SectionReadTies(s, cfg, section);
    case CheckReturns(section) => CheckReadTies(s, cfg, section);
    case FlushResumes =>
      if s.out.flushResumes > 0 {
        FlushTies(s.(out := s.out.(flushResumes := s.out.flushResumes - 1)), cfg, World(false, false, None, false));
      }
    case _ =>
  }

  lemma OperatingTies(s: Exec, cfg: Config, e: LoopMachine.Event)
    requires e.Start? || e.SettleTimeout? || e.Answer? || e.SendReturns? || e.SendFails?
    ensures Keeps(s, TopStep(s, cfg, e), cfg)
  {
    match e
    case SettleTimeout(w) => TrySettleTies(s.(guards := s.guards.(settleTimer := false)), cfg, w);
    case SendFails =>
      if s.out.sends > 0 {
        StoppedTies(s.(out := s.out.(sends := s.out.sends - 1)), cfg, Replaced);
      }
    case _ =>
  }

  lemma ClosingTies(s: Exec, cfg: Config, e: LoopMachine.Event)
    requires e.DeadlineFires? || e.StopRun? || e.Forget? || e.Close?
    ensures Keeps(s, TopStep(s, cfg, e), cfg)
  {
    StoppedTies(s, cfg, UserCancelled);
    StoppedTies(Leave(s), cfg, if e.Forget? then Replaced else UserCancelled);
  }

  /** A step counts exactly the retryable outage of a verification that decides, and starts again at its verdict. */
  lemma StepCounts(s: Exec, cfg: Config, e: LoopMachine.Event)
    ensures var n := LoopMachine.Step(s, cfg, e);
            && (Tied(s, cfg) ==> Tied(n, cfg))
            && n.tasks.misses == if !Deciding(s, e) then s.tasks.misses
                                 else if e.outcome.Verified? then 0
                                 else if e.outcome.Outage? && e.outcome.retryable then s.tasks.misses + 1
                                 else s.tasks.misses
  {
    if e.Return? {
      if s.out.stack != [] {
        ReturnTies(s, cfg, e.w);
      }
    } else if e.Changed? || e.Idle? {
      CallbackTies(s, cfg, e);
    } else if s.out.stack == [] {
      if e.VerifyReturns? {
        if e.seqNo in s.tasks.verifies {
          AfterVerifyTies(s, cfg, e.seqNo, e.outcome, e.w);
        }
      } else if e.SectionReturns? || e.CheckReturns? || e.CompactReturns? || e.StartResumes? || e.FlushResumes? {
        ReadingTies(s, cfg, e);
      } else if e.DeadlineFires? || e.StopRun? || e.Forget? || e.Close? {
        ClosingTies(s, cfg, e);
      } else {
        OperatingTies(s, cfg, e);
      }
    }
  }

  lemma {:induction false} RunCounts(cfg: Config, events: seq<LoopMachine.Event>)
    ensures Tied(LoopMachine.Run(cfg, events), cfg)
    ensures LoopMachine.Run(cfg, events).tasks.misses == OutagesInRow(cfg, events)
  {
    if events != [] {
      RunCounts(cfg, events[..|events| - 1]);
      StepCounts(LoopMachine.Run(cfg, events[..|events| - 1]), cfg, events[|events| - 1]);
    }
  }

  // ---------------------------------------------------------------- main results

  /** Nothing of the run but a new task for the same attempt: the next one, which decides, with the attempt outstanding. */
  predicate Retried(s: Exec, n: Exec) {
    && n.tasks.lastSeq == s.tasks.lastSeq + 1 && n.tasks.identity == Some(n.tasks.lastSeq)
    && n.out.stack == [VerifyCall(n.tasks.lastSeq)] && n.guards.verifying && n.tasks.verifyTask == n.tasks.identity
    && n.loop == s.loop && n.life == s.life && n.log == s.log
  }

  /** No task is started, and none is about to be. */
  predicate NotRetried(s: Exec, n: Exec) {
    n.tasks.lastSeq == s.tasks.lastSeq && RetryVerify !in n.out.stack && !n.guards.verifying
  }

  /** A retryable outage of the verification that decides is followed by another task of the same attempt exactly when fewer
    * than two came in a row before it. */
  lemma RetriedExactlyWhen(cfg: Config, events: seq<LoopMachine.Event>, n: nat, w: World, v: World)
    requires Deciding(LoopMachine.Run(cfg, events), VerifyReturns(n, Outage(true), w))
    ensures var s := LoopMachine.Run(cfg, events);
            var a := LoopMachine.Step(s, cfg, VerifyReturns(n, Outage(true), w));
            if OutagesInRow(cfg, events) < 2 then Retried(s, LoopMachine.Step(a, cfg, Return(v))) else NotRetried(s, a)
  {
    RunCounts(cfg, events);
    if OutagesInRow(cfg, events) < 2 {
      RetryFollows(LoopMachine.Run(cfg, events), cfg, n, w, v);
    } else {
      NoRetryFollows(LoopMachine.Run(cfg, events), cfg, n, w);
    }
  }

  lemma RetryFollows(s: Exec, cfg: Config, n: nat, w: World, v: World)
    requires Deciding(s, VerifyReturns(n, Outage(true), w)) && Tied(s, cfg) && s.tasks.misses < 2
    ensures Retried(s, LoopMachine.Step(LoopMachine.Step(s, cfg, VerifyReturns(n, Outage(true), w)), cfg, Return(v)))
  {
    TaskDoneTies(s, n, cfg);
    var m := Miss(ForgetEnd(TaskDone(s, n)));
    var a := Push(m, RetryVerify);
    assert LoopMachine.Step(s, cfg, VerifyReturns(n, Outage(true), w)) == a;
    assert Top(a) == RetryVerify && Pop(a) == m;
    TaskIsStarted(s, m, cfg);
  }

  lemma TaskIsStarted(s: Exec, m: Exec, cfg: Config)
    requires Current(m) && cfg.judged && !m.guards.verifying && m.out.stack == [] && m.loop.awaiting
    requires m.loop == s.loop && m.life == s.life && m.log == s.log && m.tasks.lastSeq == s.tasks.lastSeq
    ensures Retried(s, VerifyRound(m, cfg))
  {
    assert Await(Tasked(m)).loop == m.loop;
  }

  lemma NoRetryFollows(s: Exec, cfg: Config, n: nat, w: World)
    requires Deciding(s, VerifyReturns(n, Outage(true), w)) && Tied(s, cfg) && s.tasks.misses >= 2
    ensures NotRetried(s, LoopMachine.Step(s, cfg, VerifyReturns(n, Outage(true), w)))
  {
    TaskDoneTies(s, n, cfg);
    var m := Miss(ForgetEnd(TaskDone(s, n)));
    FallbackStacks(m, cfg, w.reply, FromTask(n));
    SettleCheckedTies(m, cfg, w.reply, FromTask(n));
  }

  lemma FallbackStacks(s: Exec, cfg: Config, v: Option<Verdict>, source: Source)
    requires s.out.stack == []
    ensures RetryVerify !in SettleChecked(s, cfg, v, source).out.stack
  {
  }

  /** The third outage in a row ends the run for want of a verifier where the operator allowed no other judge. */
  lemma ThirdOutageEnds(cfg: Config, events: seq<LoopMachine.Event>, n: nat, w: World)
    requires Deciding(LoopMachine.Run(cfg, events), VerifyReturns(n, Outage(true), w)) && OutagesInRow(cfg, events) >= 2
    requires !cfg.selfFallback
    ensures var s := LoopMachine.Run(cfg, events);
            LoopMachine.Step(s, cfg, VerifyReturns(n, Outage(true), w)).loop
            == s.loop.(phase := Unavailable, awaiting := false, reason := Some(VerifierUnavailable))
  {
    RunCounts(cfg, events);
  }

  /** Where the operator allowed it, the reply is judged instead: at once, or once its section was looked for. */
  lemma ThirdOutageFallsBack(cfg: Config, events: seq<LoopMachine.Event>, n: nat, w: World)
    requires Deciding(LoopMachine.Run(cfg, events), VerifyReturns(n, Outage(true), w)) && OutagesInRow(cfg, events) >= 2
    requires cfg.selfFallback && !LoopMachine.Run(cfg, events).guards.settling
    ensures var s := LoopMachine.Run(cfg, events);
            Judges(s, LoopMachine.Step(s, cfg, VerifyReturns(n, Outage(true), w)), cfg, w.reply, FromTask(n))
  {
    var s := LoopMachine.Run(cfg, events);
    RunCounts(cfg, events);
    var m := Miss(ForgetEnd(TaskDone(s, n)));
    FallbackSettles(m, cfg, w.reply, FromTask(n));
  }

  /** The verdict is taken for the attempt in flight, or held while the section it needs is looked for. */
  predicate Judges(s: Exec, a: Exec, cfg: Config, v: Option<Verdict>, source: Source) {
    if v.Some? && !v.value.blocked && !v.value.abstained && cfg.marked(s.loop.step)
    then a.loop == s.loop && a.out.check == Some(Check(s.loop.step, v.value, source))
    else a.log.consumed == s.log.consumed + [Consumed(s.loop.step, s.loop.attempt, v, Unchecked, source)]
  }

  lemma FallbackSettles(s: Exec, cfg: Config, v: Option<Verdict>, source: Source)
    requires Current(s) && s.loop.awaiting && !s.guards.settling
    ensures Judges(s, SettleChecked(s, cfg, v, source), cfg, v, source)
  {
  }

  /** The next outage after a verdict is the first of its row again. */
  lemma VerdictStartsOver(cfg: Config, events: seq<LoopMachine.Event>, n: nat, verdict: Verdict, w: World)
    requires Deciding(LoopMachine.Run(cfg, events), VerifyReturns(n, Verified(verdict), w))
    ensures OutagesInRow(cfg, events + [VerifyReturns(n, Verified(verdict), w)]) == 0
  {
    assert (events + [VerifyReturns(n, Verified(verdict), w)])[..|events|] == events;
  }

  /** What a retry takes: the outage comes back, the retry starts its task, and that is called. */
  function RetryOf(n: nat, w: World): seq<LoopMachine.Event> {
    [VerifyReturns(n, Outage(true), w)] + [Return(w)] + [Return(w)]
  }

  lemma RowSnoc(cfg: Config, front: seq<LoopMachine.Event>, e: LoopMachine.Event)
    ensures OutagesInRow(cfg, front + [e])
            == if !Deciding(LoopMachine.Run(cfg, front), e) then OutagesInRow(cfg, front)
               else if e.outcome.Verified? then 0
               else if e.outcome.Outage? && e.outcome.retryable then OutagesInRow(cfg, front) + 1
               else OutagesInRow(cfg, front)
  {
    assert (front + [e])[..|front|] == front;
  }

  /** The verifier is called for the retry, and its return will decide. */
  lemma RetryIsCalled(s: Exec, b: Exec, cfg: Config, w: World)
    requires Retried(s, b) && Current(s) && s.loop.awaiting
    ensures var t := LoopMachine.Step(b, cfg, Return(w));
            && t.tasks.lastSeq == s.tasks.lastSeq + 1 && t.loop == s.loop && t.log == s.log
            && Deciding(t, VerifyReturns(t.tasks.lastSeq, Outage(true), w))
  {
    assert Top(b) == VerifyCall(b.tasks.lastSeq) && Pop(b).out.stack == [];
    assert LoopMachine.Step(b, cfg, Return(w)) == CallVerifier(Pop(b), cfg, b.tasks.lastSeq, w);
  }

  lemma OneRetry(cfg: Config, events: seq<LoopMachine.Event>, n: nat, w: World)
    requires Deciding(LoopMachine.Run(cfg, events), VerifyReturns(n, Outage(true), w)) && OutagesInRow(cfg, events) < 2
    ensures var s, after := LoopMachine.Run(cfg, events), events + RetryOf(n, w);
            var t := LoopMachine.Run(cfg, after);
            && t.tasks.lastSeq == s.tasks.lastSeq + 1 && t.loop == s.loop && t.log == s.log
            && Deciding(t, VerifyReturns(t.tasks.lastSeq, Outage(true), w))
            && OutagesInRow(cfg, after) == OutagesInRow(cfg, events) + 1
  {
    var s, e := LoopMachine.Run(cfg, events), VerifyReturns(n, Outage(true), w);
    var one, two := events + [e], events + [e] + [Return(w)];
    RetriedExactlyWhen(cfg, events, n, w, w);
    RunNext(cfg, events, e);
    RunNext(cfg, one, Return(w));
    RunNext(cfg, two, Return(w));
    RetryIsCalled(s, LoopMachine.Run(cfg, two), cfg, w);
    RowSnoc(cfg, events, e);
    RowSnoc(cfg, one, Return(w));
    RowSnoc(cfg, two, Return(w));
    assert events + RetryOf(n, w) == two + [Return(w)];
  }

  /** The newest task is out and will decide, after this many outages in a row. */
  predicate TaskOut(cfg: Config, events: seq<LoopMachine.Event>, n: nat, row: nat, w: World) {
    var s := LoopMachine.Run(cfg, events);
    Deciding(s, VerifyReturns(n, Outage(true), w)) && s.tasks.lastSeq == n && OutagesInRow(cfg, events) == row
  }

  lemma NextTaskIsOut(cfg: Config, events: seq<LoopMachine.Event>, n: nat, row: nat, w: World)
    requires TaskOut(cfg, events, n, row, w) && row < 2
    ensures TaskOut(cfg, events + RetryOf(n, w), n + 1, row + 1, w)
    ensures LoopMachine.Run(cfg, events + RetryOf(n, w)).loop == LoopMachine.Run(cfg, events).loop
  {
    OneRetry(cfg, events, n, w);
  }

  /** Three tasks are reached: from a verification that decides and had no outage before it, two outages lead to the third
    * task of the same attempt. */
  lemma ThreeTasksAreReached(cfg: Config, events: seq<LoopMachine.Event>, n: nat, w: World)
    requires TaskOut(cfg, events, n, 0, w)
    ensures var after := events + RetryOf(n, w) + RetryOf(n + 1, w);
            && TaskOut(cfg, after, n + 2, 2, w) && LoopMachine.Run(cfg, after).loop == LoopMachine.Run(cfg, events).loop
  {
    NextTaskIsOut(cfg, events, n, 0, w);
    NextTaskIsOut(cfg, events + RetryOf(n, w), n + 1, 1, w);
  }
}
