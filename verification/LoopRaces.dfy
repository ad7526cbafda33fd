/** Whole runs that collide although no end of turn is reported while a verdict is being consumed
  * (src/controller/loop-coordinator.ts:361-385, 627-654, 684-710). */
module LoopRaces {
  import opened Collections
  import opened ScoredLoop
  import opened LoopMachine
  import opened LoopExact

  lemma {:induction false} StepsAreRun(cfg: Config, before: seq<LoopMachine.Event>, events: seq<LoopMachine.Event>)
    ensures Steps(LoopMachine.Run(cfg, before), cfg, events) == LoopMachine.Run(cfg, before + events)
    decreases |events|
  {
    if events == [] {
      assert before + events == before;
    } else {
      var b := before + [events[0]];
      assert b[..|b| - 1] == before && b[|b| - 1] == events[0];
      assert b + events[1..] == before + events;
      StepsAreRun(cfg, b, events[1..]);
    }
  }

  lemma StepsFirst(s: Exec, cfg: Config, e: LoopMachine.Event, events: seq<LoopMachine.Event>)
    ensures Steps(s, cfg, [e] + events) == Steps(LoopMachine.Step(s, cfg, e), cfg, events)
  {
    assert ([e] + events)[1..] == events;
  }

  lemma TwoSteps(s: Exec, cfg: Config, d: LoopMachine.Event, e: LoopMachine.Event)
    ensures Steps(s, cfg, [d, e]) == LoopMachine.Step(LoopMachine.Step(s, cfg, d), cfg, e)
  {
    StepsFirst(s, cfg, d, [e]);
    StepsFirst(LoopMachine.Step(s, cfg, d), cfg, e, []);
    assert [d] + [e] == [d, e] && [e] + [] == [e];
  }

  lemma StepsJoin(s: Exec, cfg: Config, a: seq<LoopMachine.Event>, b: seq<LoopMachine.Event>)
    ensures Steps(s, cfg, a + b) == Steps(Steps(s, cfg, a), cfg, b)
    decreases |a|
  {
    if a == [] {
      assert a + b == b;
    } else {
      assert (a + b)[0] == a[0] && (a + b)[1..] == a[1..] + b;
      StepsJoin(LoopMachine.Step(s, cfg, a[0]), cfg, a[1..], b);
    }
  }

  /** A prompt is about to go out: everything is decided, and it waits at the publish before the send. */
  predicate AtSend(s: Exec) {
    && s.out.stack != [] && (Top(s).FlushSend? || Top(s).StartSent?)
    && Current(s) && s.loop.awaiting && !s.guards.verifying && !s.guards.pending
  }

  // ---------------------------------------------------------------- a turn's end reported into the send

  /** The verification that starts at a send is in flight when the send goes out. */
  lemma VerifyingAtSend(s: Exec, cfg: Config, w: World, w': World)
    requires AtSend(s) && cfg.judged
    ensures Steps(VerifyRound(s, cfg), cfg, [Return(w), Return(w')]).log.collided
  {
    var n := s.tasks.lastSeq + 1;
    var v := VerifyRound(s, cfg);
    assert Top(v) == VerifyCall(n) && Pop(v).out.stack == s.out.stack;
    var c := LoopMachine.Step(v, cfg, Return(w));
    assert c == Continued(Pop(v), cfg, VerifyCall(n), w);
    assert n in c.tasks.verifies && !c.tasks.verifies[n] && c.out.stack == s.out.stack && Current(c);
    var d := LoopMachine.Step(c, cfg, Return(w'));
    assert InFlight(Pop(c));
    assert d == Send(Pop(c));
    TwoSteps(v, cfg, Return(w), Return(w'));
  }

  lemma SettlingStartsNone(s: Exec, cfg: Config, v: Option<Verdict>, source: Source)
    ensures SettleChecked(s, cfg, v, source).guards.verifying == s.guards.verifying
  {
  }

  /** An end reported there starts a verification exactly when one judges and nothing is being consumed; and then the
    * prompt goes out into it. */
  lemma IdleAtSend(s: Exec, cfg: Config, w: World, w1: World, w2: World)
    requires AtSend(s)
    ensures LoopMachine.Step(s, cfg, Idle(w)).guards.verifying <==> cfg.judged && !s.guards.settling
    ensures cfg.judged && !s.guards.settling ==> Steps(s, cfg, [Idle(w), Return(w1), Return(w2)]).log.collided
  {
    var ended := s.(guards := s.guards.(endedAt := true));
    var n := LoopMachine.Step(s, cfg, Idle(w));
    assert n == TrySettle(ended, cfg, w);
    SettlingStartsNone(ForgetEnd(ended), cfg, w.reply, FromReply);
    if cfg.judged && !s.guards.settling {
      VerifyingAtSend(ended, cfg, w1, w2);
      StepsFirst(s, cfg, Idle(w), [Return(w1), Return(w2)]);
      assert [Idle(w)] + [Return(w1), Return(w2)] == [Idle(w), Return(w1), Return(w2)];
      assert n == VerifyRound(ended, cfg);
      assert Steps(n, cfg, [Return(w1), Return(w2)]).log.collided;
    }
  }

  // ---------------------------------------------------------------- a compaction that is due again

  /** A compaction is over and its flush is about to resume, while its prompt is still held. */
  predicate InGap(s: Exec) {
    && s.out.stack == [] && Current(s) && s.out.flushResumes > 0 && s.guards.pending
    && !s.guards.verifying && !s.guards.compacting && !s.guards.endedAt
  }

  /** The second compaction is called for, inside the change. */
  lemma SecondCompaction(s: Exec, cfg: Config, w: World, v: World)
    requires InGap(s) && w.ready && w.due && cfg.compacts
    ensures var n := Steps(s, cfg, [Changed(w), Return(v), Return(v)]);
            && n.out.stack == [] && n.out.compaction.Some? && n.guards.compacting && Current(n)
            && n.out.flushResumes > 0 && n.guards.pending
  {
    var a := LoopMachine.Step(s, cfg, Changed(w));
    assert a == CompactStart(Push(s, ChangedRest), false);
    assert Top(a) == CompactCall(false) && Pop(a).out.stack == [ChangedRest];
    var b := LoopMachine.Step(a, cfg, Return(v));
    assert b == Pop(a).(out := Pop(a).out.(compaction := Some(false)));
    assert Top(b) == ChangedRest && Pop(b).out.stack == [];
    var c := LoopMachine.Step(b, cfg, Return(v));
    assert c == Pop(b);
    StepsFirst(s, cfg, Changed(w), [Return(v), Return(v)]);
    StepsFirst(a, cfg, Return(v), [Return(v)]);
    StepsFirst(b, cfg, Return(v), []);
    assert [Changed(w)] + [Return(v), Return(v)] == [Changed(w), Return(v), Return(v)];
    assert [Return(v)] + [Return(v)] == [Return(v), Return(v)] && [Return(v)] + [] == [Return(v)];
  }

  lemma SentIntoCompaction(s: Exec)
    requires s.out.compaction.Some? && s.guards.compacting
    ensures Send(s).log.collided
  {
  }

  /** A prompt that waits at its publish goes out. */
  lemma ReturnSends(s: Exec, cfg: Config, w: World)
    requires Current(s)
    ensures LoopMachine.Step(Push(s, FlushSend), cfg, Return(w)) == Send(s)
  {
    PushPop(s, FlushSend);
  }

  lemma ResumedIntoCompaction(s: Exec, cfg: Config, v: World)
    requires s.out.stack == [] && s.out.compaction.Some? && s.guards.compacting && Current(s)
    requires s.out.flushResumes > 0 && s.guards.pending
    ensures Steps(s, cfg, [FlushResumes, Return(v)]).log.collided
  {
    var n := Await(DropPrompt(s.(out := s.out.(flushResumes := s.out.flushResumes - 1))));
    assert LoopMachine.Step(s, cfg, FlushResumes) == Push(n, FlushSend);
    ReturnSends(n, cfg, v);
    SentIntoCompaction(n);
    TwoSteps(s, cfg, FlushResumes, Return(v));
  }

  /** A change in that gap starts a second compaction exactly when the client is ready and the history is over its
    * threshold again; and then the resumed flush sends into it. */
  lemma ChangeInGap(s: Exec, cfg: Config, w: World, v: World)
    requires InGap(s)
    ensures LoopMachine.Step(s, cfg, Changed(w)).guards.compacting <==> w.ready && w.due && cfg.compacts
    ensures var events := [Changed(w), Return(v), Return(v), FlushResumes, Return(v)];
            w.ready && w.due && cfg.compacts ==> Steps(s, cfg, events).log.collided
  {
    if w.ready && w.due && cfg.compacts {
      var head, tail := [Changed(w), Return(v), Return(v)], [FlushResumes, Return(v)];
      SecondCompaction(s, cfg, w, v);
      ResumedIntoCompaction(Steps(s, cfg, head), cfg, v);
      StepsJoin(s, cfg, head, tail);
      assert head + tail == [Changed(w), Return(v), Return(v), FlushResumes, Return(v)];
    }
  }

  // ---------------------------------------------------------------- whole runs

  /** No turn's end is reported while a verdict is being consumed. */
  predicate Documented(s: Exec, cfg: Config, events: seq<LoopMachine.Event>)
    decreases |events|
  {
    events == []
    || ((events[0].Idle? ==> !s.guards.settling) && Documented(LoopMachine.Step(s, cfg, events[0]), cfg, events[1..]))
  }

  lemma DocumentedJoin(s: Exec, cfg: Config, a: seq<LoopMachine.Event>, b: seq<LoopMachine.Event>)
    requires Documented(s, cfg, a) && Documented(Steps(s, cfg, a), cfg, b)
    ensures Documented(s, cfg, a + b)
    decreases |a|
  {
    if a == [] {
      assert a + b == b;
    } else {
      assert (a + b)[0] == a[0] && (a + b)[1..] == a[1..] + b;
      DocumentedJoin(LoopMachine.Step(s, cfg, a[0]), cfg, a[1..], b);
    }
  }

  /** One end, reported while nothing is consumed, and whatever else. */
  lemma OneEndIsDocumented(s: Exec, cfg: Config, events: seq<LoopMachine.Event>)
    requires forall i :: 0 < i < |events| ==> !events[i].Idle?
    requires events != [] && events[0].Idle? ==> !s.guards.settling
    ensures Documented(s, cfg, events)
    decreases |events|
  {
    if events != [] {
      OneEndIsDocumented(LoopMachine.Step(s, cfg, events[0]), cfg, events[1..]);
    }
  }

  /** A run that asks for work first waits at the publish before its opening prompt. */
  lemma OpeningIsAtSend(cfg: Config, w: World)
    requires !(cfg.verifyFirst && cfg.judged) && !w.due
    ensures var s := Steps(Fresh(cfg), cfg, [Start, Return(w)]);
            AtSend(s) && !s.guards.settling && s.out.stack == [StartSent] && s.loop == Begin(cfg.limits).(awaiting := true)
            && s.out.check.None? && s.guards == Fresh(cfg).guards
  {
    var a := LoopMachine.Step(Fresh(cfg), cfg, Start);
    assert Top(a) == StartSend && Pop(a).out.stack == [];
    var b := LoopMachine.Step(a, cfg, Return(w));
    assert b == Push(Await(Pop(a)), StartSent);
    TwoSteps(Fresh(cfg), cfg, Start, Return(w));
  }

  /** Every run that is judged and asks for work first can send into a verification, although no end is reported while a
    * verdict is consumed: one that is reported at the publish before the opening prompt is enough. */
  lemma DocumentedIsNotEnough(cfg: Config, w: World)
    requires cfg.judged && !cfg.verifyFirst && !w.due
    ensures var events := [Start, Return(w), Idle(w), Return(w), Return(w)];
            Documented(Fresh(cfg), cfg, events) && LoopMachine.Run(cfg, events).log.collided
  {
    var head, tail := [Start, Return(w)], [Idle(w), Return(w), Return(w)];
    var events := [Start, Return(w), Idle(w), Return(w), Return(w)];
    var s := Steps(Fresh(cfg), cfg, head);
    OpeningIsAtSend(cfg, w);
    IdleAtSend(s, cfg, w, w, w);
    StepsJoin(Fresh(cfg), cfg, head, tail);
    OneEndIsDocumented(Fresh(cfg), cfg, head);
    OneEndIsDocumented(s, cfg, tail);
    DocumentedJoin(Fresh(cfg), cfg, head, tail);
    assert head + tail == events && [] + events == events;
    StepsAreRun(cfg, [], events);
  }

  /** A turn is out, and nothing else is going on. */
  predicate Waiting(s: Exec) {
    && s.out.stack == [] && Current(s) && s.loop.phase.Running? && s.loop.reason.None? && s.loop.awaiting
    && s.out.check.None? && s.guards == Guards(false, false, false, false, false, false)
  }

  lemma OpeningIsOut(cfg: Config, w: World)
    requires !(cfg.verifyFirst && cfg.judged) && !w.due
    ensures Waiting(Steps(Fresh(cfg), cfg, [Start, Return(w), Return(w)]))
  {
    var a := Steps(Fresh(cfg), cfg, [Start, Return(w)]);
    OpeningIsAtSend(cfg, w);
    var b := LoopMachine.Step(a, cfg, Return(w));
    assert b == Send(Pop(a)) && Pop(a).out.stack == [];
    StepsJoin(Fresh(cfg), cfg, [Start, Return(w)], [Return(w)]);
    StepsFirst(a, cfg, Return(w), []);
    assert [Start, Return(w)] + [Return(w)] == [Start, Return(w), Return(w)] && [Return(w)] + [] == [Return(w)];
  }

  const AsksNow: Verdict := Verdict(None, false, true)

  /** A reply that asks for a person pauses a run that nobody judges. */
  lemma Asked(s: Exec, cfg: Config, ask: World)
    requires Waiting(s) && !cfg.judged && ask.reply == Some(AsksNow)
    ensures var n := LoopMachine.Step(s, cfg, Idle(ask));
            && n.out.stack == [SettleEnd] && n.life == s.life && Paused(n.loop) && n.guards == s.guards.(settling := true)
  {
    var ended := ForgetEnd(s.(guards := s.guards.(endedAt := true)));
    assert ended == s;
    var gated := Push(s.(guards := s.guards.(settling := true)), SettleEnd);
    assert gated.out.stack == [SettleEnd];
    assert LoopMachine.Step(s, cfg, Idle(ask)) == SettleChecked(s, cfg, ask.reply, FromReply);
    assert SettleChecked(s, cfg, ask.reply, FromReply) == SettleWith(gated, cfg, ask.reply, Unchecked, FromReply);
  }

  /** And the answer makes its prompt be held. */
  lemma AskedAndAnswered(s: Exec, cfg: Config, ask: World, w: World)
    requires Waiting(s) && !cfg.judged && ask.reply == Some(AsksNow)
    ensures var n := Steps(s, cfg, [Idle(ask), Return(w), Answer]);
            n.out.stack == [Answering] && Current(n) && n.guards == s.guards
  {
    Asked(s, cfg, ask);
    var a := LoopMachine.Step(s, cfg, Idle(ask));
    assert Pop(a).out.stack == [];
    var b := LoopMachine.Step(a, cfg, Return(w));
    assert b == Pop(a).(guards := a.guards.(settling := false));
    var c := LoopMachine.Step(b, cfg, Answer);
    assert c == Answered(b);
    StepsFirst(s, cfg, Idle(ask), [Return(w), Answer]);
    TwoSteps(a, cfg, Return(w), Answer);
    assert [Idle(ask)] + [Return(w), Answer] == [Idle(ask), Return(w), Answer];
  }

  /** Its compaction ends, and its flush is about to resume. */
  lemma CompactedForAnswer(s: Exec, cfg: Config, over: World, w: World)
    requires s.out.stack == [Answering] && Current(s) && s.guards == Guards(false, false, false, false, false, false)
    requires !cfg.judged && cfg.compacts && over.ready && over.due
    ensures InGap(Steps(s, cfg, [Return(over), Return(w), CompactReturns, Return(w)]))
  {
    var a := LoopMachine.Step(s, cfg, Return(over));
    assert a == CompactStart(HoldPrompt(Pop(s)), false);
    assert Top(a) == CompactCall(false) && Pop(a).out.stack == [];
    var b := LoopMachine.Step(a, cfg, Return(w));
    assert b == Pop(a).(out := Pop(a).out.(compaction := Some(false)));
    var c := LoopMachine.Step(b, cfg, CompactReturns);
    assert c == Push(b.(out := b.out.(compaction := None)), CompactNote(false));
    var d := LoopMachine.Step(c, cfg, Return(w));
    assert Pop(c).out.stack == [] && d == LiftGuard(Pop(c), false);
    TwoSteps(s, cfg, Return(over), Return(w));
    TwoSteps(b, cfg, CompactReturns, Return(w));
    StepsJoin(s, cfg, [Return(over), Return(w)], [CompactReturns, Return(w)]);
    assert [Return(over), Return(w)] + [CompactReturns, Return(w)] == [Return(over), Return(w), CompactReturns, Return(w)];
  }

  /** Every run that compacts and is not judged can send into a compaction, with one end reported, and that while its turn
    * is out: a compaction that fails leaves the history over its threshold, and a change comes in before its flush. */
  lemma FailedCompactionCollides(cfg: Config, quiet: World, over: World)
    requires !cfg.judged && cfg.compacts && !quiet.due && quiet.reply == Some(AsksNow) && over.ready && over.due
    ensures var events := [Start, Return(quiet), Return(quiet)] + [Idle(quiet), Return(quiet), Answer]
                          + [Return(over), Return(quiet), CompactReturns, Return(quiet)]
                          + [Changed(over), Return(quiet), Return(quiet), FlushResumes, Return(quiet)];
            Documented(Fresh(cfg), cfg, events) && LoopMachine.Run(cfg, events).log.collided
  {
    var open, ask := [Start, Return(quiet), Return(quiet)], [Idle(quiet), Return(quiet), Answer];
    var compact := [Return(over), Return(quiet), CompactReturns, Return(quiet)];
    var again := [Changed(over), Return(quiet), Return(quiet), FlushResumes, Return(quiet)];
    var f := Fresh(cfg);
    OpeningIsOut(cfg, quiet);
    var s := Steps(f, cfg, open);
    AskedAndAnswered(s, cfg, quiet, quiet);
    var a := Steps(s, cfg, ask);
    CompactedForAnswer(a, cfg, over, quiet);
    var g := Steps(a, cfg, compact);
    ChangeInGap(g, cfg, over, quiet);
    StepsJoin(f, cfg, open, ask);
    StepsJoin(f, cfg, open + ask, compact);
    StepsJoin(f, cfg, open + ask + compact, again);
    OneEndIsDocumented(f, cfg, open);
    OneEndIsDocumented(s, cfg, ask);
    OneEndIsDocumented(a, cfg, compact);
    OneEndIsDocumented(g, cfg, again);
    DocumentedJoin(f, cfg, open, ask);
    DocumentedJoin(f, cfg, open + ask, compact);
    DocumentedJoin(f, cfg, open + ask + compact, again);
    StepsAreRun(cfg, [], open + ask + compact + again);
    assert [] + (open + ask + compact + again) == open + ask + compact + again;
  }
}
