/** That a run of the loop gets on (src/controller/loop-coordinator.ts:361-397, 599-648, 684-709): an ended turn is consumed
  * after its grace at the latest, and a held prompt goes out once, after a compaction too. */
module LoopDelivery {
  import opened Collections
  import opened ScoredLoop
  import opened LoopMachine

  // ---------------------------------------------------------------- the grace timer

  /** The timer waits for an ended turn's reply and for nothing else; where the reply is what is judged, it always does. */
  predicate TimerOk(s: Exec, cfg: Config) {
    && (s.guards.settleTimer ==> s.guards.endedAt)
    && (!cfg.judged && Active(s.loop) && s.guards.endedAt ==> s.guards.settleTimer)
  }

  /** Both are off, or neither changed, or the run is over. */
  predicate SameTimer(s: Exec, n: Exec) {
    || (!n.guards.settleTimer && !n.guards.endedAt)
    || (n.guards.settleTimer == s.guards.settleTimer && n.guards.endedAt == s.guards.endedAt
        && (Active(n.loop) ==> Active(s.loop)))
    || (!n.guards.settleTimer && !Active(n.loop))
  }

  lemma SettlesSameTimer(s: Exec, cfg: Config, v: Option<Verdict>, source: Source, section: Section)
    ensures SameTimer(s, SettleWith(s, cfg, v, section, source))
  {
  }

  lemma ChecksSameTimer(s: Exec, cfg: Config, v: Option<Verdict>, source: Source)
    ensures SameTimer(s, SettleChecked(s, cfg, v, source))
  {
    SettlesSameTimer(Push(s.(guards := s.guards.(settling := true)), SettleEnd), cfg, v, source, Unchecked);
  }

  lemma ReadsSameTimer(s: Exec, cfg: Config, section: Section)
    ensures SameTimer(s, CheckRead(s, cfg, section)) && SameTimer(s, SectionRead(s, cfg, section))
  {
    if s.out.check.Some? {
      var n := s.(out := s.out.(check := None));
      SettlesSameTimer(Push(n, SettleEnd), cfg, Some(s.out.check.value.verdict), s.out.check.value.source, section);
    }
  }

  lemma VerifiesSameTimer(s: Exec, cfg: Config, n: nat, outcome: Outcome, w: World)
    ensures SameTimer(s, AfterVerify(s, cfg, n, outcome, w))
  {
    if Decides(TaskDone(s, n), n) {
      var m := ForgetEnd(TaskDone(s, n));
      match outcome
      case Verified(v) => ChecksSameTimer(m.(tasks := m.tasks.(misses := 0)), cfg, Some(v), FromTask(n));
      case Outage(_) => ChecksSameTimer(Miss(m), cfg, w.reply, FromTask(n));
      case _ =>
    }
  }

  lemma TriesTimer(s: Exec, cfg: Config, w: World)
    requires s.guards.settleTimer ==> s.guards.endedAt
    ensures TimerOk(TrySettle(s, cfg, w), cfg)
  {
    if s.life.owned && Active(s.loop) && s.loop.awaiting && s.guards.endedAt && !cfg.judged && (w.reply.Some? || w.late) {
      ChecksSameTimer(ForgetEnd(s), cfg, w.reply, FromReply);
    }
  }

  lemma FramesKeepTimer(s: Exec, cfg: Config, f: Frame, w: World)
    requires TimerOk(s, cfg)
    ensures TimerOk(Continued(s, cfg, f, w), cfg)
  {
    match f
    case VerifyCall(n) => VerifiesSameTimer(s, cfg, n, NoOutcome, w);
    case ChangedRest => if s.guards.endedAt { TriesTimer(s, cfg, w); }
    case _ =>
  }

  lemma CallbacksKeepTimer(s: Exec, cfg: Config, w: World)
    requires TimerOk(s, cfg)
    ensures TimerOk(ChangedStep(s, cfg, w), cfg) && TimerOk(IdleStep(s, cfg, w), cfg)
  {
    if s.guards.endedAt {
      TriesTimer(s, cfg, w);
    }
    TriesTimer(s.(guards := s.guards.(endedAt := true)), cfg, w);
  }

  lemma OperatorKeepsTimer(s: Exec, cfg: Config, e: Event)
    requires TimerOk(s, cfg)
    requires e.SendFails? || e.DeadlineFires? || e.StopRun? || e.Forget? || e.Close? || e.Answer?
    ensures TimerOk(TopStep(s, cfg, e), cfg)
  {
  }

  lemma ResumesKeepTimer(s: Exec, cfg: Config, e: Event)
    requires TimerOk(s, cfg)
    requires e.Start? || e.CompactReturns? || e.StartResumes? || e.FlushResumes? || e.SendReturns?
    ensures TimerOk(TopStep(s, cfg, e), cfg)
  {
  }

  lemma TopKeepsTimer(s: Exec, cfg: Config, e: Event)
    requires TimerOk(s, cfg) && !e.Return? && !e.Changed? && !e.Idle?
    ensures TimerOk(TopStep(s, cfg, e), cfg)
  {
    match e
    case SectionReturns(section) => ReadsSameTimer(s, cfg, section);
    case CheckReturns(section) => ReadsSameTimer(s, cfg, section);
    case VerifyReturns(n, outcome, w) => VerifiesSameTimer(s, cfg, n, outcome, w);
    case SettleTimeout(w) => TriesTimer(s.(guards := s.guards.(settleTimer := false)), cfg, w);
    case _ =>
      if e.SendFails? || e.DeadlineFires? || e.StopRun? || e.Forget? || e.Close? || e.Answer? {
        OperatorKeepsTimer(s, cfg, e);
      } else {
        ResumesKeepTimer(s, cfg, e);
      }
  }

  lemma StepKeepsTimer(s: Exec, cfg: Config, e: Event)
    requires TimerOk(s, cfg)
    ensures TimerOk(Step(s, cfg, e), cfg)
  {
    match e
    case Return(w) => if s.out.stack != [] { FramesKeepTimer(Pop(s), cfg, Top(s), w); }
    case Changed(w) => CallbacksKeepTimer(s, cfg, w);
    case Idle(w) => CallbacksKeepTimer(s, cfg, w);
    case _ => if s.out.stack == [] { TopKeepsTimer(s, cfg, e); }
  }

  /** In every run, whatever comes: an ended turn that is not consumed has its grace timer while the run is on, where the
    * reply is what is judged, and no timer waits for anything else. */
  lemma {:induction false} EveryEndedTurnHasItsTimer(cfg: Config, events: seq<Event>)
    ensures TimerOk(Run(cfg, events), cfg)
  {
    if events != [] {
      EveryEndedTurnHasItsTimer(cfg, events[..|events| - 1]);
      StepKeepsTimer(Run(cfg, events[..|events| - 1]), cfg, events[|events| - 1]);
    }
  }

  /** The attempt in flight was consumed, as this verdict says. */
  predicate Consumes(s: Exec, n: Exec, v: Option<Verdict>, found: Section) {
    n.log.consumed == s.log.consumed + [Consumed(s.loop.step, s.loop.attempt, v, found, FromReply)]
  }

  lemma ReplyIsTaken(s: Exec, cfg: Config, v: Option<Verdict>, section: Section)
    requires Current(s) && s.loop.awaiting && !s.guards.settling && s.out.stack == []
    ensures var n := SettleChecked(s, cfg, v, FromReply);
            if NeedsCheck(s, cfg, v)
            then n.out.stack == [] && Consumes(s, CheckRead(n, cfg, section), v, section)
            else Consumes(s, n, v, Unchecked)
  {
  }

  /** When it fires after the grace, or with the reply there, the attempt is consumed as the reply says, or as one without a
    * result; before that, a verdict at a marked step has its artifact looked at. */
  lemma GraceConsumes(cfg: Config, events: seq<Event>, w: World, section: Section)
    requires var s := Run(cfg, events);
             && !cfg.judged && Current(s) && s.loop.awaiting && s.guards.endedAt && !s.guards.settling && s.out.stack == []
    requires (w.reply.Some? || w.late) && section != Unchecked
    ensures var s, n := Run(cfg, events), Step(Run(cfg, events), cfg, SettleTimeout(w));
            if NeedsCheck(s, cfg, w.reply) then Consumes(s, Step(n, cfg, CheckReturns(section)), w.reply, section)
            else Consumes(s, n, w.reply, Unchecked)
  {
    EveryEndedTurnHasItsTimer(cfg, events);
    var s := Run(cfg, events);
    var ready := ForgetEnd(s.(guards := s.guards.(settleTimer := false)));
    assert Step(s, cfg, SettleTimeout(w)) == SettleChecked(ready, cfg, w.reply, FromReply);
    ReplyIsTaken(ready, cfg, w.reply, section);
  }

  // ---------------------------------------------------------------- prompts handed over, and the deadline

  /** No prompt was handed to the host or came back, and the deadline is armed as before while the run is on. */
  predicate Steady(s: Exec, n: Exec) {
    && n.out.sends == s.out.sends && n.life.started == s.life.started
    && (Active(n.loop) && n.life.owned ==>
          Active(s.loop) && s.life.owned && n.life.deadlineTimer == s.life.deadlineTimer)
  }

  lemma SettlesSteadily(s: Exec, cfg: Config, v: Option<Verdict>, source: Source, section: Section)
    ensures Steady(s, SettleWith(s, cfg, v, section, source))
  {
  }

  lemma ChecksSteadily(s: Exec, cfg: Config, v: Option<Verdict>, source: Source)
    ensures Steady(s, SettleChecked(s, cfg, v, source))
  {
    SettlesSteadily(Push(s.(guards := s.guards.(settling := true)), SettleEnd), cfg, v, source, Unchecked);
  }

  lemma ReadsSteadily(s: Exec, cfg: Config, section: Section)
    ensures Steady(s, CheckRead(s, cfg, section)) && Steady(s, SectionRead(s, cfg, section))
  {
    if s.out.check.Some? {
      var n := s.(out := s.out.(check := None));
      SettlesSteadily(Push(n, SettleEnd), cfg, Some(s.out.check.value.verdict), s.out.check.value.source, section);
    }
  }

  lemma VerifiesSteadily(s: Exec, cfg: Config, n: nat, outcome: Outcome, w: World)
    ensures Steady(s, AfterVerify(s, cfg, n, outcome, w))
  {
    if Decides(TaskDone(s, n), n) {
      var m := ForgetEnd(TaskDone(s, n));
      match outcome
      case Verified(v) => ChecksSteadily(m.(tasks := m.tasks.(misses := 0)), cfg, Some(v), FromTask(n));
      case Outage(_) => ChecksSteadily(Miss(m), cfg, w.reply, FromTask(n));
      case _ =>
    }
  }

  lemma TriesSteadily(s: Exec, cfg: Config, w: World)
    ensures Steady(s, TrySettle(s, cfg, w))
  {
    ChecksSteadily(ForgetEnd(s), cfg, w.reply, FromReply);
  }

  lemma FramesSteady(s: Exec, cfg: Config, f: Frame, w: World)
    requires !f.StartSent? && !f.FlushSend?
    ensures Steady(s, Continued(s, cfg, f, w))
  {
    match f
    case VerifyCall(n) => VerifiesSteadily(s, cfg, n, NoOutcome, w);
    case ChangedRest => TriesSteadily(s, cfg, w);
    case _ =>
  }

  lemma CallbacksSteady(s: Exec, cfg: Config, w: World)
    ensures Steady(s, ChangedStep(s, cfg, w)) && Steady(s, IdleStep(s, cfg, w))
  {
    TriesSteadily(s, cfg, w);
    TriesSteadily(s.(guards := s.guards.(endedAt := true)), cfg, w);
  }

  lemma TopSteady(s: Exec, cfg: Config, e: Event)
    requires !e.Start? && !e.SendReturns? && !e.SendFails? && !e.DeadlineFires?
    ensures Steady(s, TopStep(s, cfg, e))
  {
    match e
    case SectionReturns(section) => ReadsSteadily(s, cfg, section);
    case CheckReturns(section) => ReadsSteadily(s, cfg, section);
    case VerifyReturns(n, outcome, w) => VerifiesSteadily(s, cfg, n, outcome, w);
    case SettleTimeout(w) => TriesSteadily(s.(guards := s.guards.(settleTimer := false)), cfg, w);
    case _ =>
  }

  /** The segment that goes on hands a prompt to the host: the opening one, or a held one of a run that is still on. */
  predicate HandsOver(s: Exec, e: Event) {
    e.Return? && s.out.stack != [] && (Top(s).StartSent? || (Top(s).FlushSend? && Current(s)))
  }

  /** One that was handed over comes back, taken or refused. */
  predicate TakesBack(s: Exec, e: Event) {
    (e.SendReturns? || e.SendFails?) && s.out.stack == [] && s.out.sends > 0
  }

  /** In every step, prompts are out with the host exactly as they were handed over and came back. */
  lemma SentExactlyWhen(s: Exec, cfg: Config, e: Event)
    ensures Step(s, cfg, e).out.sends
            == s.out.sends + (if HandsOver(s, e) then 1 else 0) - if TakesBack(s, e) then 1 else 0
  {
    match e
    case Return(w) =>
      if s.out.stack != [] && !Top(s).StartSent? && !Top(s).FlushSend? {
        FramesSteady(Pop(s), cfg, Top(s), w);
      }
    case Changed(w) => CallbacksSteady(s, cfg, w);
    case Idle(w) => CallbacksSteady(s, cfg, w);
    case Start =>
    case SendReturns =>
    case SendFails =>
    case DeadlineFires =>
    case _ => TopSteady(s, cfg, e);
  }

  predicate DeadlineOk(s: Exec, cfg: Config) {
    Active(s.loop) && s.life.owned ==> (s.life.deadlineTimer <==> cfg.hasDeadline)
  }

  lemma StepKeepsDeadline(s: Exec, cfg: Config, e: Event)
    requires DeadlineOk(s, cfg)
    ensures DeadlineOk(Step(s, cfg, e), cfg)
  {
    match e
    case Return(w) =>
      if s.out.stack != [] && !Top(s).StartSent? && !Top(s).FlushSend? {
        FramesSteady(Pop(s), cfg, Top(s), w);
      }
    case Changed(w) => CallbacksSteady(s, cfg, w);
    case Idle(w) => CallbacksSteady(s, cfg, w);
    case Start =>
    case SendReturns =>
    case SendFails =>
    case DeadlineFires =>
    case _ => TopSteady(s, cfg, e);
  }

  /** In every run that has a deadline it is armed for as long as the run is on, and in no other. */
  lemma {:induction false} DeadlineIsArmed(cfg: Config, events: seq<Event>)
    ensures DeadlineOk(Run(cfg, events), cfg)
  {
    if events != [] {
      var s := Run(cfg, events[..|events| - 1]);
      DeadlineIsArmed(cfg, events[..|events| - 1]);
      StepKeepsDeadline(s, cfg, events[|events| - 1]);
    }
  }

  // ---------------------------------------------------------------- a held prompt

  /** The prompt of this state went out, once, and its attempt is outstanding. */
  predicate WentOut(s: Exec, n: Exec) {
    && n.out.sends == s.out.sends + 1 && !n.guards.pending && n.loop == s.loop.(awaiting := true)
    && n.out.stack == [] && n.out.compaction.None? && !n.guards.compacting && n.out.flushResumes == s.out.flushResumes
  }

  /** A prompt is held by a current run whose client is idle and which neither verifies nor compacts. */
  predicate Ready(s: Exec) {
    && s.out.stack == [FlushHeld] && s.guards.pending && Current(s)
    && !s.guards.verifying && !s.guards.compacting && s.out.compaction.None?
  }

  /** Without a compaction it goes out at the next two segments. */
  lemma HeldPromptGoesOut(s: Exec, cfg: Config, w: World, v: World)
    requires Ready(s) && w.ready && !(w.due && cfg.compacts)
    ensures WentOut(s, Step(Step(s, cfg, Return(w)), cfg, Return(v)))
  {
    assert Pop(s).out.stack == [];
    var n := Step(s, cfg, Return(w));
    assert n == Push(Await(DropPrompt(Pop(s))), FlushSend);
    assert Pop(n).out.stack == [] && Top(n) == FlushSend;
  }

  lemma CompactionIsCalled(s: Exec, cfg: Config, w: World, v: World)
    requires Ready(s) && w.ready && w.due && cfg.compacts
    ensures Step(Step(s, cfg, Return(w)), cfg, Return(v))
            == s.(out := s.out.(stack := [], compaction := Some(false)), guards := s.guards.(compacting := true))
  {
    var n := Step(s, cfg, Return(w));
    assert Pop(s).out.stack == [];
    assert n == CompactStart(Pop(s), false) && n.out.stack == [CompactCall(false)] && Pop(n).out.stack == [];
  }

  lemma CompactionIsOver(s: Exec, cfg: Config, v: World)
    requires s.out.stack == [] && s.out.compaction == Some(false) && Current(s)
    ensures Step(Step(s, cfg, CompactReturns), cfg, Return(v))
            == s.(out := s.out.(compaction := None, flushResumes := s.out.flushResumes + 1),
                  guards := s.guards.(compacting := false))
  {
    var n := Step(s, cfg, CompactReturns);
    assert n == Push(s.(out := s.out.(compaction := None)), CompactNote(false));
    assert n.out.stack == [CompactNote(false)] && Pop(n).out.stack == [];
  }

  lemma FlushIsResumed(s: Exec, cfg: Config)
    requires s.out.stack == [] && s.out.flushResumes > 0 && s.guards.pending && Current(s)
    ensures Step(s, cfg, FlushResumes)
            == Push(Await(DropPrompt(s.(out := s.out.(flushResumes := s.out.flushResumes - 1)))), FlushSend)
  {
  }

  lemma PromptIsSent(s: Exec, cfg: Config, v: World)
    requires s.out.stack == [FlushSend] && Current(s)
    ensures var n := Step(s, cfg, Return(v));
            n.out == s.out.(stack := [], sends := s.out.sends + 1) && n.loop == s.loop && n.guards == s.guards
  {
    assert Pop(s).out.stack == [];
  }

  lemma PromptIsResumed(s: Exec, cfg: Config, v: World)
    requires s.out.stack == [] && s.out.flushResumes > 0 && s.guards.pending && Current(s)
    ensures var n := Step(Step(s, cfg, FlushResumes), cfg, Return(v));
            && n.out == s.out.(flushResumes := s.out.flushResumes - 1, sends := s.out.sends + 1)
            && n.loop == s.loop.(awaiting := true) && n.guards == s.guards.(pending := false)
  {
    FlushIsResumed(s, cfg);
    PromptIsSent(Push(Await(DropPrompt(s.(out := s.out.(flushResumes := s.out.flushResumes - 1)))), FlushSend), cfg, v);
  }

  /** With one that is due, it is called first, and the prompt goes out as soon as it is over and its guard is down. */
  lemma CompactedPromptGoesOut(s: Exec, cfg: Config, w: World, v: World)
    requires Ready(s) && w.ready && w.due && cfg.compacts
    ensures var called := Step(Step(s, cfg, Return(w)), cfg, Return(v));
            var back := Step(Step(called, cfg, CompactReturns), cfg, Return(v));
            && called.guards.compacting && called.out.compaction.Some? && called.out.sends == s.out.sends && called.guards.pending
            && WentOut(s, Step(Step(back, cfg, FlushResumes), cfg, Return(v)))
  {
    CompactionIsCalled(s, cfg, w, v);
    var called := s.(out := s.out.(stack := [], compaction := Some(false)), guards := s.guards.(compacting := true));
    CompactionIsOver(called, cfg, v);
    PromptIsResumed(called.(out := called.out.(compaction := None, flushResumes := called.out.flushResumes + 1),
                            guards := called.guards.(compacting := false)), cfg, v);
  }

  /** A compaction that comes back to a run that is over takes its guard down and does nothing else. */
  lemma LateCompactionIsQuiet(s: Exec, cfg: Config)
    requires s.out.compaction.Some? && s.out.stack == [] && !Current(s)
    ensures var n := Step(s, cfg, CompactReturns);
            n == s.(out := s.out.(compaction := None), guards := s.guards.(compacting := false))
  {
  }

  // ---------------------------------------------------------------- the opening prompt

  /** The run was just begun and its first prompt is about to be sent. */
  predicate Opening(s: Exec) {
    s.out.stack == [StartSend] && Current(s) && !s.guards.pending && s.out.compaction.None? && !s.guards.compacting
  }

  lemma OpeningGoesOut(s: Exec, cfg: Config, w: World, v: World)
    requires Opening(s) && !(w.due && cfg.compacts)
    ensures WentOut(s, Step(Step(s, cfg, Return(w)), cfg, Return(v)))
  {
    assert Pop(s).out.stack == [];
    var n := Step(s, cfg, Return(w));
    assert n == Push(Await(Pop(s)), StartSent) && n.out.stack == [StartSent] && Pop(n).out.stack == [];
  }

  lemma OpeningIsCompacted(s: Exec, cfg: Config, w: World, v: World)
    requires Opening(s) && w.due && cfg.compacts
    ensures Step(Step(s, cfg, Return(w)), cfg, Return(v))
            == s.(out := s.out.(stack := [], compaction := Some(true)), guards := s.guards.(compacting := true))
  {
    var n := Step(s, cfg, Return(w));
    assert Pop(s).out.stack == [];
    assert n == CompactStart(Pop(s), true) && n.out.stack == [CompactCall(true)] && Pop(n).out.stack == [];
  }

  lemma OpeningCompactionIsOver(s: Exec, cfg: Config, v: World)
    requires s.out.stack == [] && s.out.compaction == Some(true) && Current(s)
    ensures Step(Step(s, cfg, CompactReturns), cfg, Return(v))
            == s.(out := s.out.(compaction := None, startResume := true), guards := s.guards.(compacting := false))
  {
    var n := Step(s, cfg, CompactReturns);
    assert n == Push(s.(out := s.out.(compaction := None)), CompactNote(true));
    assert n.out.stack == [CompactNote(true)] && Pop(n).out.stack == [];
  }

  lemma OpeningIsResumed(s: Exec, cfg: Config, v: World)
    requires s.out.stack == [] && s.out.startResume && Current(s)
    ensures var n := Step(Step(s, cfg, StartResumes), cfg, Return(v));
            && n.out == s.out.(startResume := false, sends := s.out.sends + 1)
            && n.loop == s.loop.(awaiting := true) && n.guards == s.guards
  {
    var m := s.(out := s.out.(startResume := false));
    var n := Step(s, cfg, StartResumes);
    assert n == Push(Await(m), StartSent) && n.out.stack == [StartSent] && Pop(n).out.stack == [];
  }

  /** The first prompt goes out in the same way, behind a compaction that is due. */
  lemma CompactedOpeningGoesOut(s: Exec, cfg: Config, w: World, v: World)
    requires Opening(s) && w.due && cfg.compacts
    ensures var called := Step(Step(s, cfg, Return(w)), cfg, Return(v));
            var back := Step(Step(called, cfg, CompactReturns), cfg, Return(v));
            && called.guards.compacting && called.out.compaction.Some? && called.out.sends == s.out.sends
            && WentOut(s, Step(Step(back, cfg, StartResumes), cfg, Return(v)))
  {
    OpeningIsCompacted(s, cfg, w, v);
    var called := s.(out := s.out.(stack := [], compaction := Some(true)), guards := s.guards.(compacting := true));
    OpeningCompactionIsOver(called, cfg, v);
    OpeningIsResumed(called.(out := called.out.(compaction := None, startResume := true),
                             guards := called.guards.(compacting := false)), cfg, v);
  }

  /** A started run opens with its first prompt, or, when the verifier goes first, with its first verification: at a marked
    * step as soon as the section was found there. */
  lemma StartOpens(cfg: Config, w: World, section: Section)
    requires section != Unchecked && section != Missing
    ensures var s := Step(Fresh(cfg), cfg, Start);
            if !(cfg.verifyFirst && cfg.judged) then Opening(s)
            else
              var n := Step(s, cfg, Return(w));
              var m := if cfg.marked(s.loop.step) then Step(n, cfg, SectionReturns(section)) else n;
              m.out.stack == [VerifyCall(1)] && m.loop.awaiting && m.guards.verifying && m.tasks.identity == Some(1)
  {
    var s := Step(Fresh(cfg), cfg, Start);
    assert s.out.stack == [if cfg.verifyFirst && cfg.judged then StartVerify else StartSend];
    assert Pop(s).out.stack == [];
  }
}
