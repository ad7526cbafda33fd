/** The scored loop as the application runs it (src/controller/loop-coordinator.ts:158-710): one execution whose fields
  * each segment changes step by step. Every method is tied to the segment of the machine it carries out, so what is proved
  * of the machine's runs holds of the object. */
module LoopCoordinator {
  import opened Collections
  import opened ScoredLoop
  import opened LoopMachine

  class LoopExecution {
    const cfg: Config
    const run: ScoredRun

    var started: bool
    var live: bool
    var owned: bool
    var deadlineTimer: bool
    var endTraced: bool
    var begins: nat
    var ends: nat
    var answers: nat

    var pendingPrompt: bool
    var endedAt: bool
    var settleTimer: bool
    var verifying: bool
    var settling: bool
    var compacting: bool

    var verifyTask: Option<nat>
    var identity: Option<nat>
    var verificationSeq: nat
    var verifierMisses: nat
    var verifies: map<nat, bool>

    var out: Out
    var log: Log

    predicate Valid() {
      run.limits == cfg.limits
    }

    ghost function State(): (s: Exec)
      reads this, run
    {
      Exec(Life(started, live, owned, deadlineTimer, endTraced, begins, ends, answers), run.State(),
           Guards(pendingPrompt, endedAt, settleTimer, verifying, settling, compacting),
           Tasks(verifyTask, identity, verificationSeq, verifierMisses, verifies), out, log)
    }

    constructor (cfg: Config)
      ensures Valid() && fresh(run) && this.cfg == cfg && State() == Fresh(cfg)
    {
      this.cfg := cfg;
      run := new ScoredRun(cfg.limits);
      started, live, owned, deadlineTimer, endTraced, begins, ends, answers := false, true, false, false, false, 0, 0, 0;
      pendingPrompt, endedAt, settleTimer, verifying, settling, compacting := false, false, false, false, false, false;
      verifyTask, identity, verificationSeq, verifierMisses, verifies := None, None, 0, 0, map[];
      out, log := Out([], None, 0, None, false, 0, 0), Log([], false, false);
    }

    predicate IsCurrent()
      reads this, run
      ensures IsCurrent() == Current(State())
    {
      live && owned && run.IsActive()
    }

    method Publish(f: Frame)
      modifies this`out
      ensures State() == Push(old(State()), f)
    {
      out := out.(stack := out.stack + [f]);
    }

    // -------------------------------------------------------------- ending

    method TraceLoopEnd()
      modifies this`endTraced, this`ends
      ensures State() == LoopMachine.TraceEnd(old(State()))
    {
      if endTraced {
        return;
      }
      endTraced, ends := true, ends + 1;
    }

    method AbortWork()
      modifies this`verifies, this`verifyTask, this`verifying, this`compacting
      ensures State() == LoopMachine.AbortWork(old(State()))
    {
      if verifyTask.Some? && verifyTask.value in verifies {
        verifies := verifies[verifyTask.value := true];
      }
      verifyTask, verifying, compacting := None, false, false;
    }

    /** The run ends in a phase of its own, and its trace span with it. */
    method EndRun(phase: Phase, reason: Reason)
      modifies this`endTraced, this`ends, run
      ensures State() == LoopMachine.TraceEnd(old(State()).(loop := End(old(State()).loop, phase, reason)))
    {
      run.Finish(phase, reason);
      assert State() == old(State()).(loop := End(old(State()).loop, phase, reason));
      TraceLoopEnd();
    }

    method ClearLoopDeadline()
      modifies this`deadlineTimer
      ensures State() == Disarm(old(State()))
    {
      deadlineTimer := false;
    }

    /** No turn's end is waited for any more. */
    method ForgetTurnEnd()
      modifies this`settleTimer, this`endedAt
      ensures State() == ForgetEnd(old(State()))
    {
      settleTimer, endedAt := false, false;
    }

    method EndAndDrop(phase: Phase, reason: Reason)
      modifies this`endTraced, this`ends, this`pendingPrompt, run
      ensures State() == DropPrompt(LoopMachine.TraceEnd(old(State()).(loop := End(old(State()).loop, phase, reason))))
    {
      EndRun(phase, reason);
      pendingPrompt := false;
    }

    method StopLoop(reason: Reason)
      requires Valid()
      modifies this, run
      ensures State() == Stopped(old(State()), reason)
    {
      if !owned || !run.IsActive() {
        return;
      }
      ForgetTurnEnd();
      ClearLoopDeadline();
      AbortWork();
      EndAndDrop(Cancelled, reason);
    }

    method ForgetLoop()
      requires Valid()
      modifies this, run
      ensures State() == Disown(Stopped(Leave(old(State())), Replaced))
    {
      live := false;
      StopLoop(Replaced);
      owned := false;
    }

    method CloseLoop()
      requires Valid()
      modifies this, run
      ensures State() == Stopped(Leave(old(State())), UserCancelled)
    {
      live := false;
      StopLoop(UserCancelled);
    }

    /** Timers and the running verification are given up. */
    method DisarmAndAbort()
      modifies this`settleTimer, this`deadlineTimer, this`verifies, this`verifyTask, this`verifying, this`compacting
      ensures var s := old(State());
              State() == LoopMachine.AbortWork(Disarm(s.(guards := s.guards.(settleTimer := false))))
    {
      settleTimer := false;
      ClearLoopDeadline();
      AbortWork();
    }

    method RejectLoopSend()
      requires Valid()
      modifies this, run
      ensures State() == Rejected(old(State()))
    {
      if !IsCurrent() {
        return;
      }
      DisarmAndAbort();
      EndAndDrop(NeedsHuman, SendRejected);
    }

    method ExpireLoopDeadline()
      requires Valid()
      modifies this, run
      ensures State() == Expired(old(State()))
    {
      ClearLoopDeadline();
      if !owned || !run.IsActive() {
        return;
      }
      ForgetTurnEnd();
      AbortWork();
      EndRun(PastDeadline, ByDeadline);
    }

    method EndByTask(phase: Phase, reason: Reason)
      requires Valid()
      modifies this, run
      ensures State() == EndedByTask(old(State()), phase, reason)
    {
      ClearLoopDeadline();
      EndRun(phase, reason);
    }

    // -------------------------------------------------------------- verifying

    method VerifyRound()
      requires Valid()
      modifies this, run
      ensures State() == LoopMachine.VerifyRound(old(State()), cfg)
    {
      if !IsCurrent() || verifying || !cfg.judged {
        return;
      }
      NextTask();
      run.Sent();
      assert State() == Await(Tasked(old(State())));
      Publish(VerifyCall(verificationSeq));
    }

    /** Every started verification is a task of its own. */
    method NextTask()
      modifies this`verificationSeq, this`verifying, this`identity, this`verifyTask
      ensures State() == Tasked(old(State())) && verificationSeq == old(verificationSeq) + 1
    {
      verificationSeq := verificationSeq + 1;
      verifying := true;
      identity := Some(verificationSeq);
      verifyTask := Some(verificationSeq);
    }

    method VerifySection()
      requires Valid()
      modifies this, run
      ensures State() == LoopMachine.VerifySection(old(State()), cfg)
    {
      if !IsCurrent() {
        return;
      }
      if !cfg.marked(run.step) {
        VerifyRound();
        return;
      }
      out := out.(sectionReads := out.sectionReads + 1);
    }

    method SectionArrives(section: Section)
      requires Valid()
      modifies this, run
      ensures State() == SectionRead(old(State()), cfg, section)
    {
      if out.sectionReads == 0 {
        return;
      }
      out := out.(sectionReads := out.sectionReads - 1);
      if !IsCurrent() {
        return;
      }
      if section != Missing {
        VerifyRound();
        return;
      }
      pendingPrompt := true;
      Publish(FlushHeld);
    }

    // -------------------------------------------------------------- settling

    /** The verdict is in: the run moves on, and the log says from where and by which verdict. */
    method Consume(v: Option<Verdict>, section: Section, source: Source) returns (decision: Decision)
      requires Valid()
      modifies this`log, run
      ensures var s := old(State());
              var r := Settle(s.loop, cfg.limits, Effective(v, section));
              State() == Taken(s, r.0, Consumed(s.loop.step, s.loop.attempt, v, section, source)) && decision == r.1
    {
      var stale := source.FromTask? && identity != Some(source.seqNo);
      log := log.(consumed := log.consumed + [Consumed(run.step, run.attempt, v, section, source)],
                  superseded := log.superseded || stale);
      decision := run.SettleAttempt(Effective(v, section));
    }

    method SettleWith(v: Option<Verdict>, section: Section, source: Source)
      requires Valid()
      modifies this, run
      ensures State() == LoopMachine.SettleWith(old(State()), cfg, v, section, source)
    {
      if !IsCurrent() || !run.awaiting {
        return;
      }
      var before := run.step;
      var decision := Consume(v, section, source);
      if decision != Continue && !run.IsActive() {
        deadlineTimer := false;
        TraceLoopEnd();
      }
      if decision == Continue {
        ContinueFrom(before);
      }
    }

    /** A new step is verified first where the protocol asks for it; otherwise the next prompt is held. */
    method ContinueFrom(before: int)
      modifies this`pendingPrompt, this`out
      ensures State() == if run.step != before && cfg.verifyFirst && cfg.judged then Push(old(State()), StepVerify)
                         else Push(HoldPrompt(old(State())), FlushHeld)
    {
      if run.step != before && cfg.verifyFirst && cfg.judged {
        Publish(StepVerify);
        return;
      }
      pendingPrompt := true;
      Publish(FlushHeld);
    }

    method SettleChecked(v: Option<Verdict>, source: Source)
      requires Valid()
      modifies this, run
      ensures State() == LoopMachine.SettleChecked(old(State()), cfg, v, source)
    {
      if !IsCurrent() || !run.awaiting || settling {
        return;
      }
      settling := true;
      if v.Some? && !v.value.blocked && !v.value.abstained && cfg.marked(run.step) {
        out := out.(check := Some(Check(run.step, v.value, source)));
        return;
      }
      Publish(SettleEnd);
      SettleWith(v, Unchecked, source);
    }

    method CheckArrives(section: Section)
      requires Valid()
      modifies this, run
      ensures State() == CheckRead(old(State()), cfg, section)
    {
      if out.check.None? {
        return;
      }
      var check := out.check.value;
      out := out.(check := None);
      if !IsCurrent() || !run.awaiting {
        settling := false;
        return;
      }
      Publish(SettleEnd);
      SettleWith(Some(check.verdict), section, check.source);
    }

    method TrySettleLoop(w: World)
      requires Valid()
      modifies this, run
      ensures State() == TrySettle(old(State()), cfg, w)
    {
      if !owned || !run.IsActive() || !run.awaiting {
        ForgetTurnEnd();
        return;
      }
      if !endedAt {
        settleTimer := false;
        return;
      }
      if cfg.judged {
        if !verifying && !settling {
          VerifyRound();
        }
        return;
      }
      if w.reply.None? && !w.late {
        settleTimer := true;
        return;
      }
      ForgetTurnEnd();
      SettleChecked(w.reply, FromReply);
    }

    // -------------------------------------------------------------- a verification comes back

    method TaskReturns(n: nat)
      modifies this`verifies, this`verifyTask, this`verifying
      ensures State() == TaskDone(old(State()), n)
    {
      verifies := verifies - {n};
      if verifyTask == Some(n) {
        verifyTask, verifying := None, false;
      }
    }

    method OutageReported(n: nat, retryable: bool, w: World)
      requires Valid()
      modifies this, run
      ensures State() == AfterOutage(old(State()), cfg, n, retryable, w)
    {
      if !retryable {
        EndByTask(Unavailable, VerifierUnavailable);
        return;
      }
      verifierMisses := verifierMisses + 1;
      assert State() == Miss(old(State()));
      if verifierMisses <= VerifierRetries {
        Publish(RetryVerify);
        return;
      }
      if cfg.selfFallback {
        SettleChecked(w.reply, FromTask(n));
        return;
      }
      EndByTask(Unavailable, VerifierUnavailable);
    }

    method VerificationReturns(n: nat, outcome: Outcome, w: World)
      requires Valid()
      modifies this, run
      ensures State() == AfterVerify(old(State()), cfg, n, outcome, w)
    {
      TaskReturns(n);
      if identity != Some(n) || !IsCurrent() || !run.awaiting {
        return;
      }
      ForgetTurnEnd();
      match outcome
      case NoOutcome =>
      case AsksPerson => EndByTask(NeedsHuman, VerifierNeedsHuman);
      case Verified(v) =>
        verifierMisses := 0;
        SettleChecked(Some(v), FromTask(n));
      case Outage(retryable) => OutageReported(n, retryable, w);
    }

    // -------------------------------------------------------------- sending

    method CompactNow(first: bool)
      modifies this`compacting, this`out
      ensures State() == CompactStart(old(State()), first)
    {
      compacting := true;
      Publish(CompactCall(first));
    }

    method SendHeld()
      requires Valid()
      modifies this, run
      ensures State() == SendPending(old(State()))
    {
      if !pendingPrompt || !IsCurrent() {
        return;
      }
      pendingPrompt := false;
      run.Sent();
      Publish(FlushSend);
    }

    method FlushLoop(w: World)
      requires Valid()
      modifies this, run
      ensures State() == Flush(old(State()), cfg, w)
    {
      if !pendingPrompt || !IsCurrent() {
        return;
      }
      if verifying || compacting {
        return;
      }
      if !w.ready {
        return;
      }
      if w.due && cfg.compacts {
        CompactNow(false);
        return;
      }
      SendHeld();
    }

    method HandOver()
      modifies this`out, this`log
      ensures State() == Send(old(State()))
    {
      ghost var s := State();
      log := log.(collided := log.collided || (exists n <- verifies :: !verifies[n]) || (out.compaction.Some? && compacting));
      out := out.(sends := out.sends + 1);
      assert InFlight(s) <==> (exists n <- verifies :: !verifies[n]) || (s.out.compaction.Some? && compacting);
    }

    method CompactionReturns()
      requires Valid()
      modifies this
      ensures State() == CompactDone(old(State()))
    {
      if out.compaction.None? {
        return;
      }
      var first := out.compaction.value;
      out := out.(compaction := None);
      if IsCurrent() {
        Publish(CompactNote(first));
      } else {
        compacting := false;
      }
    }

    // -------------------------------------------------------------- callbacks

    method ChangeContinues(w: World)
      requires Valid()
      modifies this, run
      ensures State() == RestOfChange(old(State()), cfg, w)
    {
      if endedAt {
        TrySettleLoop(w);
      }
    }

    method OnChange(w: World)
      requires Valid()
      modifies this, run
      ensures State() == ChangedStep(old(State()), cfg, w)
    {
      if pendingPrompt {
        Publish(ChangedRest);
        FlushLoop(w);
      } else {
        ChangeContinues(w);
      }
    }

    method SettleLoop(w: World)
      requires Valid()
      modifies this, run
      ensures State() == IdleStep(old(State()), cfg, w)
    {
      if !owned || !run.IsActive() || !run.awaiting {
        return;
      }
      endedAt := true;
      TrySettleLoop(w);
    }

    // -------------------------------------------------------------- starting and answering

    method BeginLoop()
      modifies this`begins, this`started, this`owned, this`deadlineTimer
      ensures State() == Begun(old(State()), cfg)
    {
      begins := begins + 1;
      started, owned := true, true;
      deadlineTimer := cfg.hasDeadline;
    }

    method StartLoop()
      requires Valid()
      modifies this
      ensures State() == Started(old(State()), cfg)
    {
      BeginLoop();
      Publish(if cfg.verifyFirst && cfg.judged then StartVerify else StartSend);
    }

    method OpenWith(w: World)
      requires Valid()
      modifies this, run
      ensures State() == SendOpening(old(State()), cfg, w)
    {
      if !IsCurrent() {
        return;
      }
      if w.due && cfg.compacts {
        CompactNow(true);
        return;
      }
      run.Sent();
      Publish(StartSent);
    }

    method AnswerLoop()
      requires Valid()
      modifies this, run
      ensures State() == LoopMachine.Answered(old(State()))
    {
      answers := answers + 1;
      run.Answered();
      Publish(Answering);
    }

    method AnswerContinues(w: World)
      requires Valid()
      modifies this, run
      ensures State() == TakeAnswer(old(State()), cfg, w)
    {
      if cfg.judged {
        VerifySection();
        return;
      }
      pendingPrompt := true;
      FlushLoop(w);
    }

    method CallVerifierNow(n: nat, w: World)
      requires Valid()
      modifies this, run
      ensures State() == CallVerifier(old(State()), cfg, n, w)
    {
      if verifyTask == Some(n) {
        verifies := verifies[n := false];
      } else {
        VerificationReturns(n, NoOutcome, w);
      }
    }

    method CompactionIsOver(first: bool)
      modifies this`compacting, this`out
      ensures State() == LiftGuard(old(State()), first)
    {
      compacting := false;
      out := if first then out.(startResume := true) else out.(flushResumes := out.flushResumes + 1);
    }

    method OpeningResumes()
      requires Valid()
      modifies this, run
      ensures State() == StartResumed(old(State()))
    {
      out := out.(startResume := false);
      if IsCurrent() {
        run.Sent();
        Publish(StartSent);
      }
    }

    // -------------------------------------------------------------- steps

    /** The segment on top of the others goes on. */
    method Resumes(w: World)
      requires Valid() && out.stack != []
      modifies this, run
      ensures State() == Continued(Pop(old(State())), cfg, Top(old(State())), w)
    {
      var f := out.stack[|out.stack| - 1];
      out := out.(stack := out.stack[..|out.stack| - 1]);
      assert State() == Pop(old(State()));
      ContinueWith(f, w);
    }

    method ContinueWith(f: Frame, w: World)
      requires Valid()
      modifies this, run
      ensures State() == Continued(old(State()), cfg, f, w)
    {
      match f
      case StartVerify => VerifySection();
      case StartSend => OpenWith(w);
      case StartSent => HandOver();
      case VerifyCall(n) => CallVerifierNow(n, w);
      case RetryVerify => VerifyRound();
      case FlushHeld => FlushLoop(w);
      case FlushSend => if IsCurrent() { HandOver(); }
      case CompactCall(first) => out := out.(compaction := Some(first));
      case CompactNote(first) => CompactionIsOver(first);
      case StepVerify => VerifySection();
      case SettleEnd => settling := false;
      case Answering => AnswerContinues(w);
      case ChangedRest => ChangeContinues(w);
    }

    method Reads(e: LoopMachine.Event)
      requires Valid() && (e.SectionReturns? || e.CheckReturns? || e.VerifyReturns? || e.CompactReturns?)
      modifies this, run
      ensures State() == TopStep(old(State()), cfg, e)
    {
      match e
      case SectionReturns(section) => if section != Unchecked { SectionArrives(section); }
      case CheckReturns(section) => if section != Unchecked { CheckArrives(section); }
      case VerifyReturns(n, outcome, w) => if n in verifies { VerificationReturns(n, outcome, w); }
      case CompactReturns => CompactionReturns();
    }

    method Sends(e: LoopMachine.Event)
      requires Valid() && (e.StartResumes? || e.FlushResumes? || e.SendReturns? || e.SendFails?)
      modifies this, run
      ensures State() == TopStep(old(State()), cfg, e)
    {
      match e
      case StartResumes =>
        if out.startResume {
          OpeningResumes();
        }
      case FlushResumes =>
        if out.flushResumes > 0 {
          out := out.(flushResumes := out.flushResumes - 1);
          SendHeld();
        }
      case SendReturns =>
        if out.sends > 0 {
          out := out.(sends := out.sends - 1);
        }
      case SendFails =>
        if out.sends > 0 {
          out := out.(sends := out.sends - 1);
          RejectLoopSend();
        }
    }

    method Closes(e: LoopMachine.Event)
      requires Valid() && (e.DeadlineFires? || e.StopRun? || e.Forget? || e.Close?)
      modifies this, run
      ensures State() == TopStep(old(State()), cfg, e)
    {
      match e
      case DeadlineFires => if deadlineTimer { ExpireLoopDeadline(); }
      case StopRun => StopLoop(UserCancelled);
      case Forget => ForgetLoop();
      case Close => CloseLoop();
    }

    method Operates(e: LoopMachine.Event)
      requires Valid() && (e.Start? || e.SettleTimeout? || e.Answer?)
      modifies this, run
      ensures State() == TopStep(old(State()), cfg, e)
    {
      match e
      case Start => if !started && live { StartLoop(); }
      case SettleTimeout(w) =>
        if settleTimer {
          settleTimer := false;
          TrySettleLoop(w);
        }
      case Answer => if live && owned && run.phase == NeedsHuman && run.reason == None { AnswerLoop(); }
    }

    /** What the environment does next is handled as the machine handles it. */
    method Handle(e: LoopMachine.Event)
      requires Valid()
      modifies this, run
      ensures State() == LoopMachine.Step(old(State()), cfg, e)
    {
      if e.Return? {
        if out.stack != [] {
          Resumes(e.w);
        }
      } else if e.Changed? {
        if live {
          OnChange(e.w);
        }
      } else if e.Idle? {
        if live {
          SettleLoop(e.w);
        }
      } else if out.stack == [] {
        if e.SectionReturns? || e.CheckReturns? || e.VerifyReturns? || e.CompactReturns? {
          Reads(e);
        } else if e.StartResumes? || e.FlushResumes? || e.SendReturns? || e.SendFails? {
          Sends(e);
        } else if e.DeadlineFires? || e.StopRun? || e.Forget? || e.Close? {
          Closes(e);
        } else {
          Operates(e);
        }
      }
    }
  }
}
