/** Whole runs of src/session/telemetry.ts, throws of the decoder included: what a session holds is the fold of what it was
  * told, and two runs that told it the same agree. */
module TelemetryRuns {
  import opened Collections
  import opened Telemetry
  import opened TelemetryConfluence
  import opened TelemetryThrows

  // ---------------------------------------------------------------- what one session was told

  /** The projections of a baseline that are merged: all of them, or those up to the first that throws. */
  function Reached(d: Decoders, keys: Option<set<string>>, ps: seq<(string, Snapshot)>): seq<(string, Snapshot)> {
    if ps == [] || !BaselineThrows(d, keys, ps[..|ps| - 1]) then ps else Reached(d, keys, ps[..|ps| - 1])
  }

  /** Frames are admitted: some control baseline was taken whole. */
  predicate Ready(d: Decoders, keys: Option<set<string>>, events: seq<Event>) {
    exists e :: e in events && Admits(d, keys, e)
  }

  predicate Admits(d: Decoders, keys: Option<set<string>>, e: Event) {
    e.Control? && e.frame.Baseline? && !BaselineThrows(d, keys, e.frame.projections)
  }

  /** What one event tells a session on top of what it was told before. A baseline starts over, with its own snapshots. */
  function ToldBy(d: Decoders, keys: Option<set<string>>, ready: bool, e: Event, id: string, ds: seq<Delivery>): seq<Delivery> {
    match e
    case Control(Baseline(ps, _, _)) => FollowsOf(Reached(d, keys, ps), id)
    case Control(Projection(at, key, seqNo, value)) => ds + if at == id && ready then [Change(key, seqNo, value)] else []
    case FollowSnapshot(at, Some(snap)) => ds + if at == id then [Follow(snap)] else []
    case _ => ds
  }

  /** Everything one session was told since the last control baseline, that baseline's own snapshots included. */
  function ToldTo(d: Decoders, keys: Option<set<string>>, events: seq<Event>, id: string): seq<Delivery> {
    if events == [] then []
    else
      var front := events[..|events| - 1];
      ToldBy(d, keys, Ready(d, keys, front), events[|events| - 1], id, ToldTo(d, keys, front, id))
  }

  // ---------------------------------------------------------------- the store is the fold

  /** A load that throws leaves the snapshots it reached, and only those. */
  lemma {:induction false} LoadIsFold(d: Decoders, keys: Option<set<string>>, s: Store, ps: seq<(string, Snapshot)>,
                                      id: string)
    requires s.entries == map[]
    ensures EntryOf(Load(d, keys, s, ps).0, id) == Fold(keys, FollowsOf(Reached(d, keys, ps), id))
    ensures Load(d, keys, s, ps).0.ready == s.ready
  {
    if ps != [] {
      var front, last := ps[..|ps| - 1], ps[|ps| - 1];
      assert ps == front + [last];
      LoadIsFold(d, keys, s, front, id);
      LoadThrowsExactly(d, keys, s, front, id);
      LoadSnoc(d, keys, s, front, last);
      if !BaselineThrows(d, keys, front) {
        SnapshotIsDelivery(d, keys, Load(d, keys, s, front).0, last.0, last.1, id, FollowsOf(front, id));
      }
    }
  }

  lemma BaselineDelivers(d: Decoders, keys: Option<set<string>>, s: Store, f: Frame, id: string)
    requires f.Baseline?
    ensures EntryOf(Accept(d, keys, s, f).0, id) == Fold(keys, FollowsOf(Reached(d, keys, f.projections), id))
    ensures Accept(d, keys, s, f).0.ready == (s.ready || !BaselineThrows(d, keys, f.projections))
  {
    var cleared := EmptyStore.(ready := s.ready);
    LoadIsFold(d, keys, cleared, f.projections, id);
    LoadThrowsExactly(d, keys, cleared, f.projections, id);
  }

  lemma ControlDelivers(d: Decoders, keys: Option<set<string>>, s: Store, f: Frame, id: string, ds: seq<Delivery>)
    requires EntryOf(s, id) == Fold(keys, ds)
    ensures EntryOf(Accept(d, keys, s, f).0, id) == Fold(keys, ToldBy(d, keys, s.ready, Control(f), id, ds))
    ensures Accept(d, keys, s, f).0.ready == (s.ready || Admits(d, keys, Control(f)))
  {
    if f.Baseline? {
      BaselineDelivers(d, keys, s, f, id);
    } else {
      assert ds + [] == ds;
      if s.ready {
        UpdateIsDelivery(d, keys, s, f, id, ds);
      }
    }
  }

  lemma FollowDelivers(d: Decoders, keys: Option<set<string>>, s: Store, at: string, snap: Option<Snapshot>, id: string,
                       ds: seq<Delivery>)
    requires EntryOf(s, id) == Fold(keys, ds)
    ensures var e := FollowSnapshot(at, snap);
            && EntryOf(Step(d, keys, s, e), id) == Fold(keys, ToldBy(d, keys, s.ready, e, id, ds))
            && Step(d, keys, s, e).ready == s.ready
  {
    if snap.Some? {
      SnapshotIsDelivery(d, keys, s, at, snap.value, id, ds);
    }
  }

  lemma ReadDelivers(d: Decoders, keys: Option<set<string>>, s: Store, e: Event, id: string)
    requires e.SeeView? || e.SeeMetrics?
    ensures EntryOf(Step(d, keys, s, e), id) == EntryOf(s, id) && Step(d, keys, s, e).ready == s.ready
  {
  }

  lemma StepDelivers(d: Decoders, keys: Option<set<string>>, s: Store, e: Event, id: string, ds: seq<Delivery>)
    requires EntryOf(s, id) == Fold(keys, ds)
    ensures EntryOf(Step(d, keys, s, e), id) == Fold(keys, ToldBy(d, keys, s.ready, e, id, ds))
    ensures Step(d, keys, s, e).ready == (s.ready || Admits(d, keys, e))
  {
    match e
    case Control(f) => ControlDelivers(d, keys, s, f, id, ds);
    case FollowSnapshot(at, snap) => FollowDelivers(d, keys, s, at, snap, id, ds);
    case _ => ReadDelivers(d, keys, s, e, id);
  }

  /** In every run, whatever the decoder does, a session's entry is the fold of exactly what it was told since the last
    * control baseline, and frames are admitted once a baseline was taken whole. */
  lemma {:induction false} RunIsFold(d: Decoders, keys: Option<set<string>>, events: seq<Event>, id: string)
    ensures EntryOf(Run(d, keys, events), id) == Fold(keys, ToldTo(d, keys, events, id))
    ensures Run(d, keys, events).ready == Ready(d, keys, events)
  {
    if events != [] {
      var front, last := events[..|events| - 1], events[|events| - 1];
      assert events == front + [last];
      assert Ready(d, keys, events) <==> Ready(d, keys, front) || Admits(d, keys, last);
      RunIsFold(d, keys, front, id);
      StepDelivers(d, keys, Run(d, keys, front), last, id, ToldTo(d, keys, front, id));
    }
  }

  /** Confluence of the whole store: two runs that told a session the same since their last control baseline agree on every
    * retained key's value and watermark, whatever other sessions were told, whatever was read, and whatever was thrown. */
  lemma RunsAgree(d: Decoders, h: Host, keys: Option<set<string>>, a: seq<Event>, b: seq<Event>, id: string, key: string)
    requires AllTruthful(h, ToldTo(d, keys, a, id)) && Retained(keys, key)
    requires forall m :: m in ToldTo(d, keys, a, id) <==> m in ToldTo(d, keys, b, id)
    ensures var x, y := EntryOf(Run(d, keys, a), id), EntryOf(Run(d, keys, b), id);
            Mark(x, key) == Mark(y, key) && ValueAt(x, key) == ValueAt(y, key)
  {
    RunIsFold(d, keys, a, id);
    RunIsFold(d, keys, b, id);
    Confluence(h, keys, ToldTo(d, keys, a, id), ToldTo(d, keys, b, id), key);
  }

  // ---------------------------------------------------------------- caches

  /** No event of the run makes the decoder throw where it comes. */
  ghost predicate NothingThrows(d: Decoders, keys: Option<set<string>>, events: seq<Event>) {
    forall i :: 0 <= i < |events| ==> !Throws(d, keys, Run(d, keys, events[..i]), events[i])
  }

  ghost predicate AlwaysFresh(d: Decoders, keys: Option<set<string>>, events: seq<Event>) {
    forall i :: 0 <= i <= |events| ==> FreshAfter(d, keys, events[..i])
  }

  ghost predicate FreshAfter(d: Decoders, keys: Option<set<string>>, events: seq<Event>) {
    Fresh(d, Run(d, keys, events))
  }

  lemma AfterSnoc(d: Decoders, keys: Option<set<string>>, front: seq<Event>, e: Event)
    ensures FreshAfter(d, keys, front + [e]) <==> Fresh(d, Step(d, keys, Run(d, keys, front), e))
  {
    assert (front + [e])[..|front|] == front;
  }

  lemma AlwaysFreshSnoc(d: Decoders, keys: Option<set<string>>, front: seq<Event>, e: Event)
    ensures AlwaysFresh(d, keys, front + [e])
            <==> AlwaysFresh(d, keys, front) && FreshAfter(d, keys, front + [e])
  {
    var events := front + [e];
    assert events[..|events|] == events;
    forall i | 0 <= i <= |front|
      ensures events[..i] == front[..i]
    {
    }
  }

  lemma NothingThrowsSnoc(d: Decoders, keys: Option<set<string>>, front: seq<Event>, e: Event)
    ensures NothingThrows(d, keys, front + [e])
            <==> NothingThrows(d, keys, front) && !Throws(d, keys, Run(d, keys, front), e)
  {
    var events := front + [e];
    assert events[..|front|] == front && events[|front|] == e;
    forall i | 0 <= i < |front|
      ensures events[..i] == front[..i] && events[i] == front[i]
    {
    }
  }

  /** Caches and inbox equal recomputation all along a run exactly when the decoder throws nowhere in it. */
  lemma {:induction false} RunIsFreshExactlyWhenNothingThrows(d: Decoders, keys: Option<set<string>>, events: seq<Event>)
    ensures AlwaysFresh(d, keys, events) <==> NothingThrows(d, keys, events)
  {
    if events == [] {
      EmptyIsFresh(d, keys);
    } else {
      var front, e := events[..|events| - 1], events[|events| - 1];
      assert events == front + [e];
      RunIsFreshExactlyWhenNothingThrows(d, keys, front);
      AlwaysFreshSnoc(d, keys, front, e);
      AfterSnoc(d, keys, front, e);
      NothingThrowsSnoc(d, keys, front, e);
      if AlwaysFresh(d, keys, front) {
        assert front[..|front|] == front;
        FreshExactlyWhenNothingThrows(d, keys, Run(d, keys, front), e);
      }
    }
  }

  lemma EmptyIsFresh(d: Decoders, keys: Option<set<string>>)
    ensures AlwaysFresh(d, keys, [])
  {
    assert Run(d, keys, [][..0]) == EmptyStore;
  }
}
