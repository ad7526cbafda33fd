/** When a decoder's throw leaves the store of src/session/telemetry.ts stale: the guards of the throwing branches, and
  * what each throw leaves behind. */
module TelemetryThrows {
  import opened Collections
  import opened Telemetry
  import opened TelemetryConfluence

  // ---------------------------------------------------------------- the guards

  /** The value does not decode; an absent one needs no decoder. */
  predicate Bad(d: Decoders, value: Option<Value>) {
    value.Some? && d.inbox(value.value).None?
  }

  /** The snapshot is not older than the baseline, and the inbox the merge leaves does not decode. */
  predicate SnapshotThrows(d: Decoders, keys: Option<set<string>>, e: Entry, snap: Snapshot) {
    e.baseline <= snap.asOf && Bad(d, MergedValue(e, keys, snap, "inbox"))
  }

  /** The update carries an inbox that is taken and does not decode. */
  predicate UpdateThrows(d: Decoders, keys: Option<set<string>>, e: Entry, key: string, seqNo: Watermark, value: Value) {
    key == "inbox" && TakesUpdate(e, keys, key, seqNo) && Bad(d, Some(value))
  }

  /** One projection of a baseline throws, on top of what the earlier ones told its session. */
  predicate ProjectionThrows(d: Decoders, keys: Option<set<string>>, ps: seq<(string, Snapshot)>, i: nat)
    requires i < |ps|
  {
    SnapshotThrows(d, keys, Fold(keys, FollowsOf(ps[..i], ps[i].0)), ps[i].1)
  }

  predicate BaselineThrows(d: Decoders, keys: Option<set<string>>, ps: seq<(string, Snapshot)>) {
    exists i :: 0 <= i < |ps| && ProjectionThrows(d, keys, ps, i)
  }

  /** The decoder throws in this step. */
  predicate Throws(d: Decoders, keys: Option<set<string>>, s: Store, e: Event) {
    match e
    case Control(Baseline(ps, _, _)) => BaselineThrows(d, keys, ps)
    case Control(Projection(id, key, seqNo, value)) => s.ready && UpdateThrows(d, keys, EntryOf(s, id), key, seqNo, value)
    case FollowSnapshot(id, Some(snap)) => SnapshotThrows(d, keys, EntryOf(s, id), snap)
    case _ => false
  }

  /** Where the current inbox decodes, a snapshot throws exactly when the merge takes its inbox and that does not decode. */
  lemma SnapshotThrowsOnItsOwnInbox(d: Decoders, keys: Option<set<string>>, e: Entry, snap: Snapshot)
    requires DecodesAt(d, e.values)
    ensures SnapshotThrows(d, keys, e, snap)
            <==> e.baseline <= snap.asOf && !Skips(e, keys, "inbox", snap.asOf) && Bad(d, Lookup(snap.values, "inbox"))
  {
  }

  lemma MergedInbox(e: Entry, keys: Option<set<string>>, snap: Snapshot)
    requires e.baseline <= snap.asOf
    ensures Lookup(Merge(e, keys, snap).values, "inbox") == MergedValue(e, keys, snap, "inbox")
  {
  }

  lemma DeriveThrows(d: Decoders, s: Store, id: string, e: Entry)
    ensures var r := DeriveInbox(d, Moved(s, id, e), id);
            && r.1 == !Bad(d, Lookup(e.values, "inbox")) && ThenDrop(r, id).1 == r.1
            && (!r.1 ==> ThenDrop(r, id).0 == Moved(s, id, e))
  {
  }

  /** A snapshot that throws has stored the merged entry and changed nothing else. */
  lemma SnapshotThrowsExactly(d: Decoders, keys: Option<set<string>>, s: Store, id: string, snap: Snapshot)
    ensures var n := TakeSnapshot(d, keys, s, id, snap);
            && n.1 == !SnapshotThrows(d, keys, EntryOf(s, id), snap)
            && (!n.1 ==> n.0 == Moved(s, id, Merge(EntryOf(s, id), keys, snap)))
  {
    var e := EntryOf(s, id);
    if e.baseline <= snap.asOf {
      MergedInbox(e, keys, snap);
      DeriveThrows(d, s, id, Merge(e, keys, snap));
    }
  }

  /** So has an update. */
  lemma UpdateThrowsExactly(d: Decoders, keys: Option<set<string>>, s: Store, f: Frame)
    requires f.Projection? && s.ready
    ensures var n := Accept(d, keys, s, f);
            && n.1 == !UpdateThrows(d, keys, EntryOf(s, f.id), f.key, f.seqNo, f.value)
            && (!n.1 ==> n.0 == Moved(s, f.id, Update(EntryOf(s, f.id), keys, f.key, f.seqNo, f.value)))
  {
    var e := EntryOf(s, f.id);
    if TakesUpdate(e, keys, f.key, f.seqNo) && f.key == "inbox" {
      DeriveThrows(d, s, f.id, Update(e, keys, f.key, f.seqNo, f.value));
    }
  }

  // ---------------------------------------------------------------- a baseline

  lemma LastProjection(d: Decoders, keys: Option<set<string>>, front: seq<(string, Snapshot)>, last: (string, Snapshot))
    ensures BaselineThrows(d, keys, front + [last])
            <==> BaselineThrows(d, keys, front) || SnapshotThrows(d, keys, Fold(keys, FollowsOf(front, last.0)), last.1)
  {
    var ps := front + [last];
    forall i | 0 <= i < |front|
      ensures ProjectionThrows(d, keys, ps, i) <==> ProjectionThrows(d, keys, front, i)
    {
      assert ps[..i] == front[..i];
    }
    assert ps[..|front|] == front;
    assert ProjectionThrows(d, keys, ps, |front|) <==> SnapshotThrows(d, keys, Fold(keys, FollowsOf(front, last.0)), last.1);
    if BaselineThrows(d, keys, front) {
      var i :| 0 <= i < |front| && ProjectionThrows(d, keys, front, i);
      assert ProjectionThrows(d, keys, ps, i);
    }
  }

  /** A load ends exactly when no projection throws; until then each session's entry is the fold of its snapshots. */
  lemma {:induction false} LoadThrowsExactly(d: Decoders, keys: Option<set<string>>, s: Store, ps: seq<(string, Snapshot)>,
                                             id: string)
    requires s.entries == map[]
    ensures Load(d, keys, s, ps).1 == !BaselineThrows(d, keys, ps)
    ensures Load(d, keys, s, ps).1 ==> EntryOf(Load(d, keys, s, ps).0, id) == Fold(keys, FollowsOf(ps, id))
    decreases |ps|
  {
    if ps != [] {
      var front, last := ps[..|ps| - 1], ps[|ps| - 1];
      assert ps == front + [last];
      LoadThrowsExactly(d, keys, s, front, last.0);
      LoadThrowsExactly(d, keys, s, front, id);
      LastProjection(d, keys, front, last);
      LoadSnoc(d, keys, s, front, last);
      var before := Load(d, keys, s, front);
      if before.1 {
        SnapshotThrowsExactly(d, keys, before.0, last.0, last.1);
        SnapshotIsDelivery(d, keys, before.0, last.0, last.1, id, FollowsOf(front, id));
      }
    }
  }

  /** A baseline that names each session once throws exactly when one retained inbox in it does not decode. */
  lemma BaselineThrowsOnABadInbox(d: Decoders, keys: Option<set<string>>, ps: seq<(string, Snapshot)>)
    requires forall i, j :: 0 <= i < j < |ps| ==> ps[i].0 != ps[j].0
    ensures BaselineThrows(d, keys, ps)
            <==> Retained(keys, "inbox") && exists i :: 0 <= i < |ps| && Bad(d, Lookup(ps[i].1.values, "inbox"))
  {
    forall i | 0 <= i < |ps|
      ensures ProjectionThrows(d, keys, ps, i) <==> Retained(keys, "inbox") && Bad(d, Lookup(ps[i].1.values, "inbox"))
    {
      NobodyToldBefore(ps[..i], ps[i].0);
    }
    if BaselineThrows(d, keys, ps) {
      var i :| 0 <= i < |ps| && ProjectionThrows(d, keys, ps, i);
      assert Bad(d, Lookup(ps[i].1.values, "inbox"));
    }
  }

  lemma {:induction false} NobodyToldBefore(ps: seq<(string, Snapshot)>, id: string)
    requires forall i :: 0 <= i < |ps| ==> ps[i].0 != id
    ensures FollowsOf(ps, id) == []
  {
    if ps != [] {
      NobodyToldBefore(ps[..|ps| - 1], id);
    }
  }

  lemma {:induction false} LoadKeepsNoCaches(d: Decoders, keys: Option<set<string>>, s: Store, ps: seq<(string, Snapshot)>)
    requires NoCaches(s)
    ensures NoCaches(Load(d, keys, s, ps).0)
  {
    if ps != [] {
      var front, last := ps[..|ps| - 1], ps[|ps| - 1];
      assert ps == front + [last];
      LoadKeepsNoCaches(d, keys, s, front);
      LoadSnoc(d, keys, s, front, last);
      SnapshotKeepsNoCaches(d, keys, Load(d, keys, s, front).0, last.0, last.1);
    }
  }

  lemma BaselineThrowsExactly(d: Decoders, keys: Option<set<string>>, s: Store, f: Frame)
    requires f.Baseline?
    ensures Accept(d, keys, s, f).1 == !BaselineThrows(d, keys, f.projections)
    ensures NoCaches(Accept(d, keys, s, f).0)
  {
    var cleared := EmptyStore.(ready := s.ready);
    LoadThrowsExactly(d, keys, cleared, f.projections, "");
    LoadKeepsNoCaches(d, keys, cleared, f.projections);
  }

  /** An update before any baseline throws as well, and changes nothing. */
  lemma UpdateBeforeBaselineThrows(d: Decoders, keys: Option<set<string>>, s: Store, f: Frame)
    requires !s.ready && !f.Baseline?
    ensures Accept(d, keys, s, f) == (s, false)
  {
  }

  // ---------------------------------------------------------------- one step

  /** In every state, a step ends with a throw of the decoder exactly when its guard says so. */
  lemma SettlesExactlyWhenNothingThrows(d: Decoders, keys: Option<set<string>>, s: Store, e: Event)
    ensures Settles(d, keys, s, e) <==> !Throws(d, keys, s, e)
  {
    match e
    case Control(f) =>
      if f.Baseline? {
        BaselineThrowsExactly(d, keys, s, f);
      } else if f.Projection? && s.ready {
        UpdateThrowsExactly(d, keys, s, f);
      }
    case FollowSnapshot(id, snap) =>
      if snap.Some? {
        SnapshotThrowsExactly(d, keys, s, id, snap.value);
      }
    case _ =>
  }

  /** Caches and inbox stay equal to recomputation over a step exactly when the decoder does not throw in it. */
  lemma FreshExactlyWhenNothingThrows(d: Decoders, keys: Option<set<string>>, s: Store, e: Event)
    requires Fresh(d, s)
    ensures Fresh(d, Step(d, keys, s, e)) <==> !Throws(d, keys, s, e)
  {
    FreshExactlyWhenSettled(d, keys, s, e);
    SettlesExactlyWhenNothingThrows(d, keys, s, e);
  }

  /** The session whose entry a follow snapshot or a projection update is about. */
  function Subject(e: Event): Option<string> {
    match e
    case Control(Projection(id, _, _, _)) => Some(id)
    case FollowSnapshot(id, _) => Some(id)
    case _ => None
  }

  /** A cached view that shows something else than a new one would. */
  predicate StaleView(s: Store, id: string) {
    id in s.views && s.views[id] != FreshView(s, id)
  }

  /** What a throw leaves behind, a baseline's apart: the new entry, whose inbox does not decode, under the caches and
    * the derived inbox of the old one. */
  lemma ThrowStoresTheEntry(d: Decoders, keys: Option<set<string>>, s: Store, e: Event)
    requires Throws(d, keys, s, e) && Subject(e).Some?
    ensures var id, n := Subject(e).value, Step(d, keys, s, e);
            n == Moved(s, id, EntryOf(n, id)) && !DecodesAt(d, EntryOf(n, id).values)
  {
    match e
    case Control(f) => UpdateThrowsExactly(d, keys, s, f);
    case FollowSnapshot(id, snap) =>
      SnapshotThrowsExactly(d, keys, s, id, snap.value);
      MergedInbox(EntryOf(s, id), keys, snap.value);
  }

  lemma MovedUnderACachedView(d: Decoders, s: Store, id: string, e: Entry, u: string)
    requires Fresh(d, s) && !DecodesAt(d, e.values) && u != ""
    ensures StaleView(Moved(s, id, e), u) <==> u == id && id in s.views
  {
    assert FreshAt(d, s, u);
    if u != id {
      SameKnown(s, Moved(s, id, e), u);
    }
  }

  /** From a fresh store, a step leaves a stale view of a session exactly when it is about that session, the decoder
    * throws in it, and a view was cached. A baseline that throws leaves no view at all. */
  lemma StaleViewExactlyWhen(d: Decoders, keys: Option<set<string>>, s: Store, e: Event, id: string)
    requires Fresh(d, s) && id != ""
    ensures StaleView(Step(d, keys, s, e), id) <==> Throws(d, keys, s, e) && Subject(e) == Some(id) && id in s.views
  {
    FreshExactlyWhenNothingThrows(d, keys, s, e);
    if !Throws(d, keys, s, e) {
      assert FreshAt(d, Step(d, keys, s, e), id);
    } else if Subject(e).None? {
      BaselineThrowsExactly(d, keys, s, e.frame);
    } else {
      ThrowStoresTheEntry(d, keys, s, e);
      MovedUnderACachedView(d, s, Subject(e).value, EntryOf(Step(d, keys, s, e), Subject(e).value), id);
    }
  }

  /** A whole run of that kind: the new title is stored, and the cached view goes on showing the old one. */
  lemma ThrowLeavesStaleView(d: Decoders, inbox: Value)
    requires d.inbox(inbox).None?
    ensures var old' := FollowSnapshot("s", Some(Snapshot(1, map["title" := "old"])));
            var new' := FollowSnapshot("s", Some(Snapshot(2, map["title" := "new", "inbox" := inbox])));
            StaleView(Run(d, None, [old', SeeView("s"), new']), "s")
  {
    var first, second := Snapshot(1, map["title" := "old"]), Snapshot(2, map["title" := "new", "inbox" := inbox]);
    var old', new' := FollowSnapshot("s", Some(first)), FollowSnapshot("s", Some(second));
    var shown := [old', SeeView("s")];
    assert (shown + [new'])[..2] == shown && shown[..1] == [old'] && [old'][..0] == [];
    assert shown + [new'] == [old', SeeView("s"), new'];
    EveryRunIsFresh(d, None, shown);
    FirstViewIsCached(d, old', first);
    StaleViewExactlyWhen(d, None, Run(d, None, shown), new', "s");
  }

  lemma FirstViewIsCached(d: Decoders, e: Event, snap: Snapshot)
    requires snap == Snapshot(1, map["title" := "old"]) && e == FollowSnapshot("s", Some(snap))
    ensures var s := Run(d, None, [e, SeeView("s")]); "s" in s.views && EntryOf(s, "s") == Entry(1, snap.values, map[])
  {
    assert [e, SeeView("s")][..1] == [e] && [e][..0] == [] && Run(d, None, []) == EmptyStore;
    assert MergedValue(NewEntry, None, snap, "title") == Some("old");
    var merged := Merge(NewEntry, None, snap);
    assert merged.values == snap.values;
    assert Run(d, None, [e]) == Step(d, None, EmptyStore, e);
    assert EntryOf(Run(d, None, [e]), "s") == merged;
  }
}
