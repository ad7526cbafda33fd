/** A run that nobody judges never sends into its own compaction (src/controller/loop-coordinator.ts).
  *
  * It starts no verification at all. While it is active a prompt that waits to go out keeps the compaction guard down, and
  * the opening prompt is alone until it is out. */
module LoopUnjudged {
  import opened Collections
  import opened ScoredLoop
  import opened LoopMachine
  import opened LoopGuards

  // ---------------------------------------------------------------- the invariant

  /** Frames of a verification. */
  predicate IsTask(f: Frame) {
    f.StartVerify? || f.StepVerify? || f.RetryVerify? || f.VerifyCall?
  }

  predicate NoTasks(stack: seq<Frame>) {
    forall i :: 0 <= i < |stack| ==> !IsTask(stack[i])
  }

  /** Frames before the opening prompt. */
  predicate IsOpening(f: Frame) {
    f.StartSend? || (IsCompaction(f) && f.first)
  }

  predicate NoOpenings(stack: seq<Frame>) {
    forall i :: 0 <= i < |stack| ==> !IsOpening(stack[i])
  }

  /** Nothing of a verification is there. */
  predicate Unverified(s: Exec) {
    && !s.guards.verifying && s.tasks.verifyTask.None? && s.tasks.identity.None? && s.tasks.lastSeq == 0
    && s.tasks.verifies == map[] && s.out.sectionReads == 0 && NoTasks(s.out.stack)
    && (s.out.check.Some? ==> s.out.check.value.source.FromReply?)
  }

  /** The opening prompt is still to go out, and nothing else is there. */
  predicate Opening(s: Exec) {
    && !s.guards.pending && !s.guards.endedAt && !s.loop.awaiting && !Paused(s.loop) && s.out.flushResumes == 0
    && s.out.check.None?
    && ((&& |s.out.stack| == 1 && IsOpening(s.out.stack[0]) && s.out.compaction.None? && !s.out.startResume
         && (s.guards.compacting <==> IsCompaction(s.out.stack[0])))
        || (s.out.stack == [] && s.out.compaction == Some(true) && !s.out.startResume && s.guards.compacting)
        || (s.out.stack == [] && s.out.compaction.None? && s.out.startResume && !s.guards.compacting))
  }

  /** The opening prompt is out: a prompt that waits keeps the guard down. */
  predicate Open(s: Exec) {
    && NoOpenings(s.out.stack) && s.out.compaction != Some(true) && !s.out.startResume
    && Compactions(s.out.stack) + Bit(s.out.compaction.Some?) == Bit(s.guards.compacting)
    && (Sends(s.out.stack) > 0 || s.out.flushResumes > 0 ==> !s.guards.compacting)
  }

  predicate Inv(s: Exec, cfg: Config) {
    && !cfg.judged && Unverified(s) && Clean(s)
    && (s.life.started ==>
          if Active(s.loop) then s.life.live && s.life.owned && (Opening(s) || Open(s))
          else Sends(s.out.stack) > 0 ==> !s.guards.compacting)
    && (!s.life.started ==> s == if s.life.live then Fresh(cfg) else Leave(Fresh(cfg)))
  }

  // ---------------------------------------------------------------- frames

  lemma PushCounts(s: Exec, f: Frame)
    ensures Compactions(Push(s, f).out.stack) == Compactions(s.out.stack) + Bit(IsCompaction(f))
    ensures Sends(Push(s, f).out.stack) == Sends(s.out.stack) + Bit(f.StartSent? || f.FlushSend?)
    ensures NoTasks(Push(s, f).out.stack) <==> NoTasks(s.out.stack) && !IsTask(f)
    ensures NoOpenings(Push(s, f).out.stack) <==> NoOpenings(s.out.stack) && !IsOpening(f)
  {
    var t := s.out.stack + [f];
    assert t[..|s.out.stack|] == s.out.stack && t[|s.out.stack|] == f;
    assert forall i :: 0 <= i < |s.out.stack| ==> t[i] == s.out.stack[i];
  }

  lemma {:induction false} OpeningsShow(stack: seq<Frame>)
    requires NoOpenings(stack)
    ensures !AboutToOpen(stack)
  {
    if stack != [] {
      assert forall i :: 0 <= i < |stack| - 1 ==> stack[..|stack| - 1][i] == stack[i];
      OpeningsShow(stack[..|stack| - 1]);
    }
  }

  /** A part that does nothing to what the invariant is about: a prompt may be dropped from or put into hand. */
  predicate Same(s: Exec, n: Exec) {
    && n.tasks == s.tasks && n.guards.verifying == s.guards.verifying && n.guards.compacting == s.guards.compacting
    && n.out.(check := s.out.check, sends := s.out.sends) == s.out && (n.out.check == s.out.check || n.out.check.None?)
    && n.life.(deadlineTimer := s.life.deadlineTimer, endTraced := s.life.endTraced, ends := s.life.ends) == s.life
    && n.log.collided == s.log.collided && n.log.superseded == s.log.superseded
  }

  /** Once the opening prompt is out, what is held, noted or awaited does not matter. */
  lemma SameKeeps(s: Exec, n: Exec, cfg: Config)
    requires Inv(s, cfg) && s.life.started && Same(s, n)
    requires Active(n.loop) ==> Active(s.loop) && Open(s)
    requires !Active(n.loop) ==> Sends(s.out.stack) > 0 ==> !s.guards.compacting
    ensures Inv(n, cfg)
  {
  }

  /** What an active run with something awaited, held or noted is past. */
  lemma IsOpen(s: Exec, cfg: Config)
    requires Inv(s, cfg) && s.life.started && Active(s.loop)
    requires s.guards.pending || s.guards.endedAt || s.loop.awaiting || Paused(s.loop) || s.out.flushResumes > 0
    ensures Open(s)
  {
  }

  // ---------------------------------------------------------------- settling

  lemma PushHarmless(s: Exec, f: Frame, cfg: Config)
    requires Inv(s, cfg) && s.life.started && (Active(s.loop) ==> Open(s))
    requires f.SettleEnd? || f.FlushHeld? || f.ChangedRest? || f.Answering?
    ensures Inv(Push(s, f), cfg) && (Active(s.loop) ==> Open(Push(s, f)))
  {
    PushCounts(s, f);
  }

  lemma SettleWithKeeps(s: Exec, cfg: Config, v: Option<Verdict>, section: Section)
    requires Inv(s, cfg) && s.life.started && (Active(s.loop) ==> Open(s))
    ensures Inv(SettleWith(s, cfg, v, section, FromReply), cfg)
  {
    if Current(s) && s.loop.awaiting {
      var r := Settle(s.loop, cfg.limits, Effective(v, section));
      var n := Taken(s, r.0, Consumed(s.loop.step, s.loop.attempt, v, section, FromReply));
      SameKeeps(s, n, cfg);
      if r.1 == Continue {
        SameKeeps(s, HoldPrompt(n), cfg);
        PushHarmless(HoldPrompt(n), FlushHeld, cfg);
      } else if !Active(r.0) {
        SameKeeps(s, TraceEnd(Disarm(n)), cfg);
      }
    }
  }

  lemma SettleCheckedKeeps(s: Exec, cfg: Config, v: Option<Verdict>)
    requires Inv(s, cfg) && s.life.started && (Active(s.loop) ==> Open(s))
    ensures Inv(SettleChecked(s, cfg, v, FromReply), cfg)
  {
    if Current(s) && s.loop.awaiting && !s.guards.settling {
      var n := s.(guards := s.guards.(settling := true));
      if !NeedsCheck(s, cfg, v) {
        SameKeeps(s, n, cfg);
        PushHarmless(n, SettleEnd, cfg);
        SettleWithKeeps(Push(n, SettleEnd), cfg, v, Unchecked);
      }
    }
  }

  lemma CheckReadKeeps(s: Exec, cfg: Config, section: Section)
    requires Inv(s, cfg) && s.life.started && (Active(s.loop) && s.out.check.Some? ==> Open(s))
    ensures Inv(CheckRead(s, cfg, section), cfg)
  {
    if s.out.check.Some? {
      var c := s.out.check.value;
      var n := s.(out := s.out.(check := None));
      SameKeeps(s, n, cfg);
      if Current(n) && n.loop.awaiting {
        PushHarmless(n, SettleEnd, cfg);
        SettleWithKeeps(Push(n, SettleEnd), cfg, Some(c.verdict), section);
      } else {
        SameKeeps(s, n.(guards := n.guards.(settling := false)), cfg);
      }
    }
  }

  lemma TimerKeeps(s: Exec, cfg: Config, on: bool)
    requires Inv(s, cfg) && s.life.started && (Active(s.loop) ==> Open(s))
    ensures var n := s.(guards := s.guards.(settleTimer := on)); Inv(n, cfg) && (Active(n.loop) ==> Open(n))
  {
  }

  lemma ForgetKeeps(s: Exec, cfg: Config)
    requires Inv(s, cfg) && s.life.started && (Active(s.loop) ==> Open(s))
    ensures Inv(ForgetEnd(s), cfg) && (Active(s.loop) ==> Open(ForgetEnd(s)))
  {
  }

  lemma TrySettleKeeps(s: Exec, cfg: Config, w: World)
    requires Inv(s, cfg) && s.life.started && (Active(s.loop) ==> Open(s))
    ensures Inv(TrySettle(s, cfg, w), cfg)
  {
    ForgetKeeps(s, cfg);
    if s.life.owned && Active(s.loop) && s.loop.awaiting {
      if s.guards.endedAt && (w.reply.Some? || w.late) {
        SettleCheckedKeeps(ForgetEnd(s), cfg, w.reply);
      } else {
        TimerKeeps(s, cfg, s.guards.endedAt);
      }
    }
  }

  // ---------------------------------------------------------------- sending

  lemma SendPendingKeeps(s: Exec, cfg: Config)
    requires Inv(s, cfg) && s.life.started && (s.guards.pending && Current(s) ==> !s.guards.compacting)
    ensures Inv(SendPending(s), cfg)
  {
    if s.guards.pending && Current(s) {
      var n := Await(DropPrompt(s));
      IsOpen(s, cfg);
      PushCounts(n, FlushSend);
    }
  }

  /** A compaction that begins while no prompt waits to go out. */
  lemma CompactStartKeeps(s: Exec, cfg: Config)
    requires Inv(s, cfg) && Current(s) && s.life.started && Open(s) && !Waits(s) && !s.guards.compacting
    ensures Inv(CompactStart(s, false), cfg)
  {
    PushCounts(s.(guards := s.guards.(compacting := true)), CompactCall(false));
  }

  lemma FlushKeeps(s: Exec, cfg: Config, w: World)
    requires Inv(s, cfg) && s.life.started && (s.guards.pending && WouldCompact(s, cfg, w) ==> !Waits(s))
    ensures Inv(Flush(s, cfg, w), cfg)
  {
    if s.guards.pending && Current(s) && !s.guards.compacting && w.ready {
      IsOpen(s, cfg);
      if w.due && cfg.compacts {
        CompactStartKeeps(s, cfg);
      } else {
        SendPendingKeeps(s, cfg);
      }
    }
  }

  lemma SendKeeps(s: Exec, cfg: Config)
    requires Inv(s, cfg) && s.life.started && !s.guards.compacting
    ensures Inv(Send(s), cfg)
  {
  }

  /** The opening frame goes on. */
  lemma SendOpeningKeeps(s: Exec, cfg: Config, w: World)
    requires Inv(s, cfg) && s.life.started && Active(s.loop) && Opening(s) && s.out.stack == [StartSend]
    ensures Inv(SendOpening(Pop(s), cfg, w), cfg)
  {
    var p := Pop(s);
    if Current(p) {
      if w.due && cfg.compacts {
        OpeningCompacts(p, cfg);
      } else {
        OpeningSends(p, cfg);
      }
    }
  }

  /** The opening frame is taken off. */
  predicate Opened(p: Exec, cfg: Config) {
    && !cfg.judged && Unverified(p) && Clean(p) && p.life.started && Current(p) && p.out.stack == []
    && !p.guards.pending && !p.guards.endedAt && !p.loop.awaiting && !Paused(p.loop) && p.out.flushResumes == 0
    && p.out.check.None? && p.out.compaction.None? && !p.out.startResume && !p.guards.compacting
  }

  lemma OpeningCompacts(p: Exec, cfg: Config)
    requires Opened(p, cfg)
    ensures Inv(CompactStart(p, true), cfg)
  {
    assert CompactStart(p, true).out.stack == [CompactCall(true)];
  }

  lemma OpeningSends(p: Exec, cfg: Config)
    requires Opened(p, cfg)
    ensures Inv(Push(Await(p), StartSent), cfg)
  {
    PushCounts(Await(p), StartSent);
  }

  lemma OpeningIsAlone(s: Exec, cfg: Config)
    requires Inv(s, cfg) && Active(s.loop) && s.out.stack != [] && IsOpening(Top(s))
    ensures s.life.started && Opening(s) && s.out.stack == [Top(s)]
  {
    assert IsOpening(s.out.stack[|s.out.stack| - 1]);
  }

  // ---------------------------------------------------------------- callbacks

  lemma RestKeeps(s: Exec, cfg: Config, w: World)
    requires Inv(s, cfg) && s.life.started
    ensures Inv(RestOfChange(s, cfg, w), cfg)
  {
    if s.guards.endedAt {
      TrySettleKeeps(s, cfg, w);
    }
  }

  lemma ChangedKeeps(s: Exec, cfg: Config, w: World)
    requires Inv(s, cfg) && Allowed(s, cfg, Changed(w))
    ensures Inv(ChangedStep(s, cfg, w), cfg)
  {
    if s.guards.pending {
      var n := Push(s, ChangedRest);
      PushHarmless(s, ChangedRest, cfg);
      PushWaits(s, ChangedRest);
      FlushKeeps(n, cfg, w);
    } else if s.life.started {
      RestKeeps(s, cfg, w);
    }
  }

  lemma PushWaits(s: Exec, f: Frame)
    requires !f.StartSend? && !f.StartSent? && !f.FlushSend?
    ensures Waits(Push(s, f)) == Waits(s)
  {
    PushCounts(s, f);
    assert (s.out.stack + [f])[..|s.out.stack|] == s.out.stack;
  }

  lemma IdleKeeps(s: Exec, cfg: Config, w: World)
    requires Inv(s, cfg)
    ensures Inv(IdleStep(s, cfg, w), cfg)
  {
    if s.life.owned && Active(s.loop) && s.loop.awaiting {
      var n := s.(guards := s.guards.(endedAt := true));
      assert s.life.started;
      IsOpen(s, cfg);
      SameKeeps(s, n, cfg);
      TrySettleKeeps(n, cfg, w);
    }
  }

  // ---------------------------------------------------------------- continuing a segment

  lemma PopCounts(s: Exec)
    requires s.out.stack != []
    ensures NoTasks(s.out.stack) ==> NoTasks(Pop(s).out.stack) && !IsTask(Top(s))
    ensures NoOpenings(s.out.stack) ==> NoOpenings(Pop(s).out.stack)
  {
    assert forall i :: 0 <= i < |s.out.stack| - 1 ==> Pop(s).out.stack[i] == s.out.stack[i];
  }

  lemma PopKeeps(s: Exec, cfg: Config)
    requires Inv(s, cfg) && s.out.stack != [] && !IsCompaction(Top(s)) && (Active(s.loop) ==> !IsOpening(Top(s)))
    ensures s.life.started && Inv(Pop(s), cfg) && (Active(s.loop) ==> Open(Pop(s)))
  {
    PopCounts(s);
  }

  lemma CompactFrameKeeps(s: Exec, cfg: Config, w: World)
    requires Inv(s, cfg) && s.out.stack != [] && IsCompaction(Top(s))
    ensures Inv(Continued(Pop(s), cfg, Top(s), w), cfg)
  {
    PopCounts(s);
    if Active(s.loop) && IsOpening(Top(s)) {
      OpeningIsAlone(s, cfg);
    }
  }

  lemma OpeningFrameKeeps(s: Exec, cfg: Config, w: World)
    requires Inv(s, cfg) && s.out.stack != [] && Top(s).StartSend?
    ensures Inv(SendOpening(Pop(s), cfg, w), cfg)
  {
    PopCounts(s);
    if Active(s.loop) {
      OpeningIsAlone(s, cfg);
      SendOpeningKeeps(s, cfg, w);
    }
  }

  lemma TakeAnswerKeeps(s: Exec, cfg: Config, w: World)
    requires Inv(s, cfg) && s.life.started && (Active(s.loop) ==> Open(s)) && (WouldCompact(s, cfg, w) ==> !Waits(s))
    ensures Inv(TakeAnswer(s, cfg, w), cfg)
  {
    SameKeeps(s, HoldPrompt(s), cfg);
    FlushKeeps(HoldPrompt(s), cfg, w);
  }

  lemma ReturnKeeps(s: Exec, cfg: Config, w: World)
    requires Inv(s, cfg) && Allowed(s, cfg, Return(w)) && s.out.stack != []
    ensures Inv(Continued(Pop(s), cfg, Top(s), w), cfg)
  {
    var f, p := Top(s), Pop(s);
    if IsCompaction(f) {
      CompactFrameKeeps(s, cfg, w);
    } else if f.StartSend? {
      OpeningFrameKeeps(s, cfg, w);
    } else {
      PopCounts(s);
      PopKeeps(s, cfg);
      match f
      case StartSent => SendKeeps(p, cfg);
      case FlushSend => if Current(p) { SendKeeps(p, cfg); }
      case FlushHeld => FlushKeeps(p, cfg, w);
      case Answering => TakeAnswerKeeps(p, cfg, w);
      case ChangedRest => RestKeeps(p, cfg, w);
      case SettleEnd => SameKeeps(p, p.(guards := p.guards.(settling := false)), cfg);
      case _ =>
    }
  }

  // ---------------------------------------------------------------- steps with nothing under way

  lemma StartKeeps(s: Exec, cfg: Config)
    requires Inv(s, cfg) && !s.life.started && s.life.live
    ensures Inv(Started(s, cfg), cfg)
  {
    assert Push(Begun(s, cfg), StartSend).out.stack == [StartSend];
  }

  lemma CompactDoneKeeps(s: Exec, cfg: Config)
    requires Inv(s, cfg) && s.out.stack == []
    ensures Inv(CompactDone(s), cfg)
  {
    if s.out.compaction.Some? {
      var n := s.(out := s.out.(compaction := None));
      PushCounts(n, CompactNote(s.out.compaction.value));
      assert Push(n, CompactNote(s.out.compaction.value)).out.stack == [CompactNote(s.out.compaction.value)];
    }
  }

  lemma StartResumedKeeps(s: Exec, cfg: Config)
    requires Inv(s, cfg) && s.out.startResume && s.out.stack == []
    ensures Inv(StartResumed(s), cfg)
  {
    PushCounts(Await(s.(out := s.out.(startResume := false))), StartSent);
  }

  lemma FlushResumedKeeps(s: Exec, cfg: Config)
    requires Inv(s, cfg) && s.out.flushResumes > 0
    ensures Inv(SendPending(s.(out := s.out.(flushResumes := s.out.flushResumes - 1))), cfg)
  {
    var n := s.(out := s.out.(flushResumes := s.out.flushResumes - 1));
    assert s.life.started;
    if Active(s.loop) {
      IsOpen(s, cfg);
    }
    assert Inv(n, cfg);
    SendPendingKeeps(n, cfg);
  }

  lemma AnswerKeeps(s: Exec, cfg: Config)
    requires Inv(s, cfg) && Current(s) && Paused(s.loop)
    ensures Inv(Answered(s), cfg)
  {
    var n := s.(loop := Resume(s.loop), life := s.life.(answers := s.life.answers + 1));
    IsOpen(s, cfg);
    PushCounts(n, Answering);
  }

  lemma OpeningSendsNothing(s: Exec)
    requires Opening(s)
    ensures Sends(s.out.stack) == 0
  {
    if |s.out.stack| == 1 {
      assert s.out.stack[..0] == [];
    }
  }

  /** Whatever ends the run keeps the guard down where it was. */
  lemma EndingKeeps(s: Exec, n: Exec, cfg: Config)
    requires Inv(s, cfg) && n.life.started == s.life.started && s.life.started && !Active(n.loop)
    requires Unverified(n) && Clean(n) && n.out.stack == s.out.stack && (n.guards.compacting ==> s.guards.compacting)
    ensures Inv(n, cfg)
  {
    if Active(s.loop) && Opening(s) {
      OpeningSendsNothing(s);
    }
  }

  lemma StoppedKeeps(s: Exec, cfg: Config, reason: Reason)
    requires Inv(s, cfg)
    ensures Inv(Stopped(s, reason), cfg)
  {
    if s.life.owned && Active(s.loop) {
      EndingKeeps(s, Stopped(s, reason), cfg);
    }
  }

  lemma LeavingKeeps(s: Exec, cfg: Config, reason: Reason)
    requires Inv(s, cfg)
    ensures Inv(Stopped(Leave(s), reason), cfg) && Inv(Disown(Stopped(Leave(s), reason)), cfg)
  {
    if s.life.owned && Active(s.loop) {
      EndingKeeps(s, Stopped(Leave(s), reason), cfg);
    }
  }

  lemma RejectedKeeps(s: Exec, cfg: Config)
    requires Inv(s, cfg)
    ensures Inv(Rejected(s), cfg)
  {
    if Current(s) {
      EndingKeeps(s, Rejected(s), cfg);
    }
  }

  lemma ExpiredKeeps(s: Exec, cfg: Config)
    requires Inv(s, cfg) && s.life.started
    ensures Inv(Expired(s), cfg)
  {
    if s.life.owned && Active(s.loop) {
      EndingKeeps(s, Expired(s), cfg);
    } else {
      assert Inv(Disarm(s), cfg);
    }
  }

  // ---------------------------------------------------------------- every step

  lemma ReadingKeeps(s: Exec, cfg: Config, e: LoopMachine.Event)
    requires Inv(s, cfg) && s.out.stack == []
    requires e.SectionReturns? || e.CheckReturns? || e.VerifyReturns? || e.CompactReturns?
    ensures Inv(TopStep(s, cfg, e), cfg)
  {
    match e
    case SectionReturns(section) =>
    case CheckReturns(section) => if !section.Unchecked? && s.out.check.Some? { CheckReadKeeps(s, cfg, section); }
    case VerifyReturns(n, outcome, w) =>
    case CompactReturns => CompactDoneKeeps(s, cfg);
  }

  lemma SendsKeep(s: Exec, cfg: Config)
    requires Inv(s, cfg) && s.out.sends > 0
    ensures var n := s.(out := s.out.(sends := s.out.sends - 1)); Inv(n, cfg) && Inv(Rejected(n), cfg)
  {
    var n := s.(out := s.out.(sends := s.out.sends - 1));
    assert s.life.started;
    assert Open(s) ==> Open(n);
    assert Opening(s) ==> Opening(n);
    RejectedKeeps(n, cfg);
  }

  lemma SendingKeeps(s: Exec, cfg: Config, e: LoopMachine.Event)
    requires Inv(s, cfg) && s.out.stack == [] && (e.StartResumes? || e.FlushResumes? || e.SendReturns? || e.SendFails?)
    ensures Inv(TopStep(s, cfg, e), cfg)
  {
    match e
    case StartResumes => if s.out.startResume { StartResumedKeeps(s, cfg); }
    case FlushResumes => if s.out.flushResumes > 0 { FlushResumedKeeps(s, cfg); }
    case SendReturns => if s.out.sends > 0 { SendsKeep(s, cfg); }
    case SendFails => if s.out.sends > 0 { SendsKeep(s, cfg); }
  }

  lemma ClosingKeeps(s: Exec, cfg: Config, e: LoopMachine.Event)
    requires Inv(s, cfg) && s.out.stack == [] && (e.DeadlineFires? || e.StopRun? || e.Forget? || e.Close?)
    ensures Inv(TopStep(s, cfg, e), cfg)
  {
    match e
    case DeadlineFires => if s.life.deadlineTimer { ExpiredKeeps(s, cfg); }
    case StopRun => StoppedKeeps(s, cfg, UserCancelled);
    case Forget => LeavingKeeps(s, cfg, Replaced);
    case Close => LeavingKeeps(s, cfg, UserCancelled);
  }

  lemma TimeoutKeeps(s: Exec, cfg: Config, w: World)
    requires Inv(s, cfg) && s.guards.settleTimer
    ensures Inv(TrySettle(s.(guards := s.guards.(settleTimer := false)), cfg, w), cfg)
  {
    assert s.life.started;
    var n := s.(guards := s.guards.(settleTimer := false));
    if Active(s.loop) && !s.guards.endedAt && !s.loop.awaiting && Opening(s) {
      assert Opening(ForgetEnd(n));
    } else {
      TimerKeeps(s, cfg, false);
      TrySettleKeeps(n, cfg, w);
    }
  }

  lemma OperatingKeeps(s: Exec, cfg: Config, e: LoopMachine.Event)
    requires Inv(s, cfg) && s.out.stack == [] && (e.Start? || e.SettleTimeout? || e.Answer?)
    ensures Inv(TopStep(s, cfg, e), cfg)
  {
    match e
    case Start => if !s.life.started && s.life.live { StartKeeps(s, cfg); }
    case SettleTimeout(w) => if s.guards.settleTimer { TimeoutKeeps(s, cfg, w); }
    case Answer => if s.life.live && s.life.owned && Paused(s.loop) { AnswerKeeps(s, cfg); }
  }

  lemma TopStepKeeps(s: Exec, cfg: Config, e: LoopMachine.Event)
    requires Inv(s, cfg) && s.out.stack == []
    ensures Inv(TopStep(s, cfg, e), cfg)
  {
    if e.SectionReturns? || e.CheckReturns? || e.VerifyReturns? || e.CompactReturns? {
      ReadingKeeps(s, cfg, e);
    } else if e.StartResumes? || e.FlushResumes? || e.SendReturns? || e.SendFails? {
      SendingKeeps(s, cfg, e);
    } else if e.DeadlineFires? || e.StopRun? || e.Forget? || e.Close? {
      ClosingKeeps(s, cfg, e);
    } else if e.Start? || e.SettleTimeout? || e.Answer? {
      OperatingKeeps(s, cfg, e);
    }
  }

  /** Every allowed step keeps the guard down while a prompt waits to go out. */
  lemma StepKeepsInv(s: Exec, cfg: Config, e: LoopMachine.Event)
    requires Inv(s, cfg) && Allowed(s, cfg, e)
    ensures Inv(LoopMachine.Step(s, cfg, e), cfg)
  {
    match e
    case Return(w) => if s.out.stack != [] { ReturnKeeps(s, cfg, w); }
    case Changed(w) => if s.life.live { ChangedKeeps(s, cfg, w); }
    case Idle(w) => if s.life.live { IdleKeeps(s, cfg, w); }
    case _ => if s.out.stack == [] { TopStepKeeps(s, cfg, e); }
  }
}
