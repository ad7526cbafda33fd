/** What every run of src/session/telemetry.ts keeps: delivery order does not matter, and caches equal recomputation. */
module TelemetryConfluence {
  import opened Collections
  import opened Telemetry

  /** What one session is told: a complete snapshot, or one key's new value. */
  datatype Delivery =
    | Follow(snap: Snapshot)
    | Change(key: string, seqNo: Watermark, value: Value)

  function Deliver(e: Entry, keys: Option<set<string>>, d: Delivery): Entry {
    match d
    case Follow(snap) => Merge(e, keys, snap)
    case Change(key, seqNo, value) => Update(e, keys, key, seqNo, value)
  }

  function Fold(keys: Option<set<string>>, ds: seq<Delivery>): Entry {
    if ds == [] then NewEntry else Deliver(Fold(keys, ds[..|ds| - 1]), keys, ds[|ds| - 1])
  }

  /** The delivery speaks about this key, at this sequence. */
  predicate Covers(d: Delivery, key: string) {
    d.Follow? || d.key == key
  }

  function At(d: Delivery): Watermark {
    if d.Follow? then d.snap.asOf else d.seqNo
  }

  /** Every revision belongs to a held value and is no older than the baseline; only retained keys are held. */
  ghost predicate EntryOk(e: Entry, keys: Option<set<string>>) {
    && (forall k :: k in e.revisions ==> k in e.values && e.baseline <= e.revisions[k])
    && (forall k :: k in e.values ==> Retained(keys, k))
  }

  lemma DeliverKeepsEntryOk(e: Entry, keys: Option<set<string>>, d: Delivery)
    requires EntryOk(e, keys)
    ensures EntryOk(Deliver(e, keys, d), keys)
  {
  }

  function ValueAt(e: Entry, key: string): Option<Value> {
    Lookup(e.values, key)
  }

  /** One delivery, seen from one retained key: it is ignored when stale, and otherwise decides the key. */
  lemma DeliverAtKey(e: Entry, keys: Option<set<string>>, d: Delivery, key: string)
    requires EntryOk(e, keys) && Retained(keys, key)
    ensures var n := Deliver(e, keys, d);
            if Covers(d, key) && Mark(e, key) <= At(d)
            then Mark(n, key) == At(d) && ValueAt(n, key) == if d.Follow? then Lookup(d.snap.values, key) else Some(d.value)
            else Mark(n, key) == Mark(e, key) && ValueAt(n, key) == ValueAt(e, key)
  {
  }

  lemma {:induction false} FoldKeepsEntryOk(keys: Option<set<string>>, ds: seq<Delivery>)
    ensures EntryOk(Fold(keys, ds), keys)
  {
    if ds != [] {
      FoldKeepsEntryOk(keys, ds[..|ds| - 1]);
      DeliverKeepsEntryOk(Fold(keys, ds[..|ds| - 1]), keys, ds[|ds| - 1]);
    }
  }

  /** A watermark never decreases, and ends at the newest sequence delivered for its key. */
  lemma {:induction false} MarkIsNewestDelivered(keys: Option<set<string>>, ds: seq<Delivery>, key: string)
    requires Retained(keys, key)
    ensures forall d :: d in ds && Covers(d, key) ==> At(d) <= Mark(Fold(keys, ds), key)
    ensures Mark(Fold(keys, ds), key) == -1 || exists d :: d in ds && Covers(d, key) && At(d) == Mark(Fold(keys, ds), key)
    ensures ds != [] ==> Mark(Fold(keys, ds[..|ds| - 1]), key) <= Mark(Fold(keys, ds), key)
  {
    if ds != [] {
      var front, last := ds[..|ds| - 1], ds[|ds| - 1];
      MarkIsNewestDelivered(keys, front, key);
      FoldKeepsEntryOk(keys, front);
      DeliverAtKey(Fold(keys, front), keys, last, key);
      assert last in ds;
      forall d | d in ds && Covers(d, key)
        ensures At(d) <= Mark(Fold(keys, ds), key)
      {
        assert d in front || d == last;
      }
    }
  }

  /** A host whose values are a function of key and sequence. */
  type Host = (string, Watermark) -> Option<Value>

  ghost predicate Truthful(h: Host, d: Delivery) {
    match d
    case Follow(snap) => forall k :: Lookup(snap.values, k) == h(k, snap.asOf)
    case Change(key, seqNo, value) => h(key, seqNo) == Some(value)
  }

  ghost predicate AllTruthful(h: Host, ds: seq<Delivery>) {
    forall d :: d in ds ==> Truthful(h, d)
  }

  predicate Told(ds: seq<Delivery>, key: string) {
    exists d :: d in ds && Covers(d, key)
  }

  /** The held value is the host's at the watermark; a key nobody spoke of is absent. */
  lemma {:induction false} ValueIsTheHostsAtItsMark(h: Host, keys: Option<set<string>>, ds: seq<Delivery>, key: string)
    requires Retained(keys, key) && AllTruthful(h, ds)
    ensures ValueAt(Fold(keys, ds), key) == if Told(ds, key) then h(key, Mark(Fold(keys, ds), key)) else None
  {
    if ds != [] {
      var front, last := ds[..|ds| - 1], ds[|ds| - 1];
      assert forall d :: d in front ==> d in ds;
      ValueIsTheHostsAtItsMark(h, keys, front, key);
      FoldKeepsEntryOk(keys, front);
      DeliverAtKey(Fold(keys, front), keys, last, key);
      assert last in ds && Truthful(h, last);
      assert Told(ds, key) <==> Told(front, key) || Covers(last, key);
      if Covers(last, key) && At(last) < Mark(Fold(keys, front), key) {
        MarkIsNewestDelivered(keys, front, key);
      }
    }
  }

  /** Confluence: deliveries that hold the same frames, in any order and repeated any number of times, leave every key
    * with the same value and the same watermark. */
  lemma Confluence(h: Host, keys: Option<set<string>>, a: seq<Delivery>, b: seq<Delivery>, key: string)
    requires Retained(keys, key) && AllTruthful(h, a)
    requires forall d :: d in a <==> d in b
    ensures Mark(Fold(keys, a), key) == Mark(Fold(keys, b), key)
    ensures ValueAt(Fold(keys, a), key) == ValueAt(Fold(keys, b), key)
  {
    MarkIsNewestDelivered(keys, a, key);
    MarkIsNewestDelivered(keys, b, key);
    assert AllTruthful(h, b);
    ValueIsTheHostsAtItsMark(h, keys, a, key);
    ValueIsTheHostsAtItsMark(h, keys, b, key);
    assert Told(a, key) <==> Told(b, key);
  }

  /** A key outside the retained set is never held. */
  lemma UnretainedIsAbsent(keys: Option<set<string>>, ds: seq<Delivery>, key: string)
    requires !Retained(keys, key)
    ensures ValueAt(Fold(keys, ds), key) == None
  {
    FoldKeepsEntryOk(keys, ds);
  }

  // ---------------------------------------------------------------- whole runs of the store

  datatype Event =
    | Control(frame: Frame)
    | FollowSnapshot(id: string, snap: Option<Snapshot>)
    | SeeView(id: string)
    | SeeMetrics(id: string)

  function Step(d: Decoders, keys: Option<set<string>>, s: Store, e: Event): Store {
    match e
    case Control(frame) => Accept(d, keys, s, frame).0
    case FollowSnapshot(id, snap) => if snap.None? then s else TakeSnapshot(d, keys, s, id, snap.value).0
    case SeeView(id) => ReadView(s, id)
    case SeeMetrics(id) => ReadMetrics(d, s, id)
  }

  function Run(d: Decoders, keys: Option<set<string>>, events: seq<Event>): Store {
    if events == [] then EmptyStore else Step(d, keys, Run(d, keys, events[..|events| - 1]), events[|events| - 1])
  }

  predicate DecodesAt(d: Decoders, values: map<string, Value>) {
    "inbox" in values ==> d.inbox(values["inbox"]).Some?
  }

  /** The derived inbox equals a fresh derivation, and whatever is cached equals a fresh computation. */
  predicate FreshAt(d: Decoders, s: Store, id: string) {
    var value := Lookup(EntryOf(s, id).values, "inbox");
    && DecodesAt(d, EntryOf(s, id).values)
    && Lookup(s.inbox, id) == (if value.None? then None else d.inbox(value.value))
    && (id in s.views ==> s.views[id] == FreshView(s, id))
    && (id in s.cached ==> d.metrics(EntryOf(s, id).values) == Some(s.cached[id]))
  }

  ghost predicate Fresh(d: Decoders, s: Store) {
    forall id :: FreshAt(d, s, id)
  }

  predicate SameAt(s: Store, n: Store, id: string) {
    && EntryOf(s, id) == EntryOf(n, id) && Lookup(s.inbox, id) == Lookup(n.inbox, id)
    && Lookup(s.queues, id) == Lookup(n.queues, id) && Lookup(s.jobs, id) == Lookup(n.jobs, id)
    && Lookup(s.views, id) == Lookup(n.views, id) && Lookup(s.cached, id) == Lookup(n.cached, id)
  }

  lemma UntouchedStaysFresh(d: Decoders, s: Store, n: Store, id: string)
    requires SameAt(s, n, id) && FreshAt(d, s, id)
    ensures FreshAt(d, n, id)
  {
    SameKnown(s, n, id);
  }

  lemma SameKnown(s: Store, n: Store, id: string)
    requires SameAt(s, n, id)
    ensures FreshView(s, id) == FreshView(n, id)
    ensures (id in s.views <==> id in n.views) && (id in s.cached <==> id in n.cached)
  {
    assert id in s.inbox <==> Lookup(s.inbox, id).Some?;
    assert Pending(s, id) == Pending(n, id);
  }

  ghost predicate OthersSame(s: Store, n: Store, id: string) {
    forall u :: u != id ==> SameAt(s, n, u)
  }

  function Moved(s: Store, id: string, e: Entry): Store {
    s.(entries := s.entries[id := e])
  }

  lemma RederivedOthers(d: Decoders, s: Store, id: string, e: Entry)
    ensures OthersSame(s, ThenDrop(DeriveInbox(d, Moved(s, id, e), id), id).0, id)
  {
    var moved := Moved(s, id, e);
    var derived := DeriveInbox(d, moved, id);
    forall u | u != id
      ensures SameAt(s, ThenDrop(derived, id).0, u)
    {
      DerivedSame(d, moved, id, u);
      assert SameAt(s, moved, u);
      DroppedSame(derived.0, id, u);
    }
  }

  lemma DerivedSame(d: Decoders, s: Store, id: string, u: string)
    requires u != id
    ensures SameAt(s, DeriveInbox(d, s, id).0, u)
  {
    var n := DeriveInbox(d, s, id).0;
    assert n == s.(inbox := n.inbox) && Lookup(n.inbox, u) == Lookup(s.inbox, u);
  }

  lemma DroppedSame(s: Store, id: string, u: string)
    requires u != id
    ensures SameAt(s, DropCaches(s, id), u)
  {
  }

  lemma RederivedIsFresh(d: Decoders, s: Store, id: string, e: Entry)
    ensures var n := ThenDrop(DeriveInbox(d, Moved(s, id, e), id), id);
            && EntryOf(n.0, id) == e && n.1 == DecodesAt(d, e.values)
            && (DecodesAt(d, e.values) ==> FreshAt(d, n.0, id))
  {
  }

  lemma SnapshotTouches(d: Decoders, keys: Option<set<string>>, s: Store, id: string, snap: Snapshot)
    requires FreshAt(d, s, id)
    ensures var n := TakeSnapshot(d, keys, s, id, snap);
            && OthersSame(s, n.0, id) && n.1 == DecodesAt(d, EntryOf(n.0, id).values)
            && EntryOf(n.0, id) == Merge(EntryOf(s, id), keys, snap) && (n.1 ==> FreshAt(d, n.0, id))
  {
    var e := Merge(EntryOf(s, id), keys, snap);
    if snap.asOf < EntryOf(s, id).baseline {
      SameKnown(s, Moved(s, id, e), id);
    } else {
      RederivedOthers(d, s, id, e);
      RederivedIsFresh(d, s, id, e);
    }
  }

  /** A merged snapshot leaves everything fresh exactly when the inbox it leaves behind decodes. */
  lemma SnapshotKeepsFresh(d: Decoders, keys: Option<set<string>>, s: Store, id: string, snap: Snapshot)
    requires Fresh(d, s)
    ensures var n := TakeSnapshot(d, keys, s, id, snap); Fresh(d, n.0) <==> n.1
    ensures DecodesAt(d, snap.values) ==> TakeSnapshot(d, keys, s, id, snap).1
  {
    assert FreshAt(d, s, id);
    SnapshotTouches(d, keys, s, id, snap);
    var n := TakeSnapshot(d, keys, s, id, snap);
    if n.1 {
      forall u
        ensures FreshAt(d, n.0, u)
      {
        assert FreshAt(d, s, u);
        if u != id {
          UntouchedStaysFresh(d, s, n.0, u);
        }
      }
    } else {
      assert !FreshAt(d, n.0, id);
    }
  }

  lemma LoadSnoc(d: Decoders, keys: Option<set<string>>, s: Store, front: seq<(string, Snapshot)>, last: (string, Snapshot))
    ensures var before := Load(d, keys, s, front);
            Load(d, keys, s, front + [last]) == if before.1 then TakeSnapshot(d, keys, before.0, last.0, last.1) else before
  {
    assert (front + [last])[..|front|] == front;
  }

  predicate NoCaches(s: Store) {
    s.views == map[] && s.cached == map[]
  }

  lemma DerivingKeepsTheRest(d: Decoders, s: Store, id: string)
    ensures var n := DeriveInbox(d, s, id).0; n.ready == s.ready && n.views == s.views && n.cached == s.cached
  {
  }

  /** Apart from the entry, the inbox and the caches, a snapshot changes nothing. */
  lemma SnapshotKeepsTheRest(d: Decoders, keys: Option<set<string>>, s: Store, id: string, snap: Snapshot)
    ensures var n := TakeSnapshot(d, keys, s, id, snap).0;
            n.ready == s.ready && n.views.Keys <= s.views.Keys && n.cached.Keys <= s.cached.Keys
  {
    var moved := Moved(s, id, Merge(EntryOf(s, id), keys, snap));
    DerivingKeepsTheRest(d, moved, id);
  }

  lemma SnapshotKeepsNoCaches(d: Decoders, keys: Option<set<string>>, s: Store, id: string, snap: Snapshot)
    requires NoCaches(s)
    ensures NoCaches(TakeSnapshot(d, keys, s, id, snap).0)
    ensures TakeSnapshot(d, keys, s, id, snap).0.ready == s.ready
  {
    SnapshotKeepsTheRest(d, keys, s, id, snap);
  }

  lemma {:induction false} LoadKeepsFresh(d: Decoders, keys: Option<set<string>>, s: Store, ps: seq<(string, Snapshot)>)
    requires Fresh(d, s) && NoCaches(s)
    ensures var n := Load(d, keys, s, ps); (Fresh(d, n.0) <==> n.1) && NoCaches(n.0) && n.0.ready == s.ready
    ensures (forall p :: p in ps ==> DecodesAt(d, p.1.values)) ==> Load(d, keys, s, ps).1
  {
    if ps != [] {
      var front, last := ps[..|ps| - 1], ps[|ps| - 1];
      assert ps == front + [last] && last in ps && forall p :: p in front ==> p in ps;
      LoadKeepsFresh(d, keys, s, front);
      LoadSnoc(d, keys, s, front, last);
      var before := Load(d, keys, s, front);
      if before.1 {
        SnapshotKeepsFresh(d, keys, before.0, last.0, last.1);
        SnapshotKeepsNoCaches(d, keys, before.0, last.0, last.1);
      }
    }
  }

  lemma BaselineIsFresh(d: Decoders, keys: Option<set<string>>, s: Store, f: Frame)
    requires f.Baseline?
    ensures var n := Accept(d, keys, s, f); Fresh(d, n.0) <==> n.1
    ensures (forall p :: p in f.projections ==> DecodesAt(d, p.1.values)) ==> Accept(d, keys, s, f).1
  {
    var cleared := EmptyStore.(ready := s.ready);
    LoadKeepsFresh(d, keys, cleared, f.projections);
    var loaded := Load(d, keys, cleared, f.projections).0;
    var n := Accept(d, keys, s, f).0;
    if Load(d, keys, cleared, f.projections).1 {
      forall u
        ensures FreshAt(d, n, u)
      {
        assert FreshAt(d, loaded, u);
      }
    }
  }

  /** A control update changes its own session and leaves it fresh unless its inbox does not decode. */
  ghost predicate Touches(d: Decoders, keys: Option<set<string>>, s: Store, f: Frame)
    requires !f.Baseline?
  {
    var n, e := Accept(d, keys, s, f), EntryOf(s, f.id);
    && OthersSame(s, n.0, f.id) && n.0.ready
    && EntryOf(n.0, f.id) == (if f.Projection? then Update(e, keys, f.key, f.seqNo, f.value) else e)
    && n.1 == DecodesAt(d, EntryOf(n.0, f.id).values)
    && (n.1 ==> FreshAt(d, n.0, f.id))
  }

  lemma StaleTouches(d: Decoders, keys: Option<set<string>>, s: Store, f: Frame)
    requires f.Projection? && s.ready && FreshAt(d, s, f.id) && !TakesUpdate(EntryOf(s, f.id), keys, f.key, f.seqNo)
    ensures Touches(d, keys, s, f) && Accept(d, keys, s, f) == (Moved(s, f.id, EntryOf(s, f.id)), true)
  {
    var n := Moved(s, f.id, EntryOf(s, f.id));
    SameKnown(s, n, f.id);
  }

  lemma InboxTouches(d: Decoders, keys: Option<set<string>>, s: Store, f: Frame)
    requires f.Projection? && s.ready && TakesUpdate(EntryOf(s, f.id), keys, f.key, f.seqNo) && f.key == "inbox"
    ensures Touches(d, keys, s, f) && Accept(d, keys, s, f).1 == d.inbox(f.value).Some?
  {
    var e := Update(EntryOf(s, f.id), keys, f.key, f.seqNo, f.value);
    assert Accept(d, keys, s, f) == ThenDrop(DeriveInbox(d, Moved(s, f.id, e), f.id), f.id);
    RederivedOthers(d, s, f.id, e);
    RederivedIsFresh(d, s, f.id, e);
  }

  lemma ValueTouches(d: Decoders, keys: Option<set<string>>, s: Store, f: Frame)
    requires f.Projection? && s.ready && TakesUpdate(EntryOf(s, f.id), keys, f.key, f.seqNo) && f.key != "inbox"
    requires FreshAt(d, s, f.id)
    ensures Touches(d, keys, s, f) && Accept(d, keys, s, f).1
  {
    var e := Update(EntryOf(s, f.id), keys, f.key, f.seqNo, f.value);
    var moved := Moved(s, f.id, e);
    assert Accept(d, keys, s, f) == (DropCaches(moved, f.id), true);
    assert Lookup(e.values, "inbox") == Lookup(EntryOf(s, f.id).values, "inbox");
    forall u | u != f.id
      ensures SameAt(s, DropCaches(moved, f.id), u)
    {
      assert SameAt(s, moved, u);
      DroppedSame(moved, f.id, u);
    }
  }

  lemma CountTouches(d: Decoders, keys: Option<set<string>>, s: Store, f: Frame)
    requires (f.Queue? || f.Jobs?) && s.ready && FreshAt(d, s, f.id)
    ensures Touches(d, keys, s, f) && Accept(d, keys, s, f).1
  {
    var moved := if f.Queue? then s.(queues := s.queues[f.id := f.items]) else s.(jobs := s.jobs[f.id := f.count]);
    assert Accept(d, keys, s, f) == (DropCaches(moved, f.id), true);
    forall u | u != f.id
      ensures SameAt(s, DropCaches(moved, f.id), u)
    {
      assert SameAt(s, moved, u);
      DroppedSame(moved, f.id, u);
    }
  }

  lemma UpdateTouches(d: Decoders, keys: Option<set<string>>, s: Store, f: Frame)
    requires !f.Baseline? && s.ready && FreshAt(d, s, f.id)
    ensures Touches(d, keys, s, f)
    ensures (f.Projection? && f.key == "inbox" ==> d.inbox(f.value).Some?) ==> Accept(d, keys, s, f).1
  {
    if !f.Projection? {
      CountTouches(d, keys, s, f);
    } else if !TakesUpdate(EntryOf(s, f.id), keys, f.key, f.seqNo) {
      StaleTouches(d, keys, s, f);
    } else if f.key == "inbox" {
      InboxTouches(d, keys, s, f);
    } else {
      ValueTouches(d, keys, s, f);
    }
  }

  lemma UpdateKeepsFresh(d: Decoders, keys: Option<set<string>>, s: Store, f: Frame)
    requires Fresh(d, s) && !f.Baseline? && s.ready
    ensures var n := Accept(d, keys, s, f); Fresh(d, n.0) <==> n.1
    ensures (f.Projection? && f.key == "inbox" ==> d.inbox(f.value).Some?) ==> Accept(d, keys, s, f).1
  {
    assert FreshAt(d, s, f.id);
    UpdateTouches(d, keys, s, f);
    var n := Accept(d, keys, s, f);
    if n.1 {
      forall u
        ensures FreshAt(d, n.0, u)
      {
        assert FreshAt(d, s, u);
        if u != f.id {
          UntouchedStaysFresh(d, s, n.0, u);
        }
      }
    } else {
      assert !FreshAt(d, n.0, f.id);
    }
  }

  lemma ViewKeepsFresh(d: Decoders, s: Store, id: string)
    requires Fresh(d, s)
    ensures Fresh(d, ReadView(s, id))
  {
    var n := ReadView(s, id);
    forall u
      ensures FreshAt(d, n, u)
    {
      assert FreshAt(d, s, u) && FreshView(n, u) == FreshView(s, u);
    }
  }

  lemma MetricsKeepFresh(d: Decoders, s: Store, id: string)
    requires Fresh(d, s)
    ensures Fresh(d, ReadMetrics(d, s, id))
  {
    var n := ReadMetrics(d, s, id);
    forall u
      ensures FreshAt(d, n, u)
    {
      assert FreshAt(d, s, u) && FreshView(n, u) == FreshView(s, u);
    }
  }

  /** A step ends without a decoder throwing. */
  predicate Settles(d: Decoders, keys: Option<set<string>>, s: Store, e: Event) {
    match e
    case Control(frame) => Accept(d, keys, s, frame).1 || (!s.ready && !frame.Baseline?)
    case FollowSnapshot(id, snap) => snap.None? || TakeSnapshot(d, keys, s, id, snap.value).1
    case _ => true
  }

  /** The inbox value the event carries, if any, decodes. */
  ghost predicate Decodes(d: Decoders, e: Event) {
    match e
    case Control(Baseline(projections, _, _)) => forall p :: p in projections ==> DecodesAt(d, p.1.values)
    case Control(Projection(_, key, _, value)) => key == "inbox" ==> d.inbox(value).Some?
    case FollowSnapshot(_, Some(snap)) => DecodesAt(d, snap.values)
    case _ => true
  }

  /** Caches and inbox are fresh after a step exactly when no decoder threw in it, and none throws on decodable input. */
  lemma FreshExactlyWhenSettled(d: Decoders, keys: Option<set<string>>, s: Store, e: Event)
    requires Fresh(d, s)
    ensures Fresh(d, Step(d, keys, s, e)) <==> Settles(d, keys, s, e)
    ensures Decodes(d, e) ==> Settles(d, keys, s, e)
  {
    match e
    case Control(frame) =>
      if frame.Baseline? {
        BaselineIsFresh(d, keys, s, frame);
      } else if s.ready {
        UpdateKeepsFresh(d, keys, s, frame);
      }
    case FollowSnapshot(id, snap) =>
      if snap.Some? {
        SnapshotKeepsFresh(d, keys, s, id, snap.value);
      }
    case SeeView(id) => ViewKeepsFresh(d, s, id);
    case SeeMetrics(id) => MetricsKeepFresh(d, s, id);
  }

  /** Whatever is delivered and read, in any order, a cached view, cached metrics and the inbox equal recomputation. */
  lemma {:induction false} EveryRunIsFresh(d: Decoders, keys: Option<set<string>>, events: seq<Event>)
    requires forall e :: e in events ==> Decodes(d, e)
    ensures Fresh(d, Run(d, keys, events))
  {
    if events != [] {
      var front, last := events[..|events| - 1], events[|events| - 1];
      assert last in events && forall e :: e in front ==> e in events;
      EveryRunIsFresh(d, keys, front);
      FreshExactlyWhenSettled(d, keys, Run(d, keys, front), last);
    }
  }

  // ---------------------------------------------------------------- steps as deliveries

  function FollowsOf(ps: seq<(string, Snapshot)>, id: string): seq<Delivery> {
    if ps == [] then []
    else
      var last := ps[|ps| - 1];
      FollowsOf(ps[..|ps| - 1], id) + if last.0 == id then [Follow(last.1)] else []
  }

  lemma FoldSnoc(keys: Option<set<string>>, ds: seq<Delivery>, d: Delivery)
    ensures Fold(keys, ds + [d]) == Deliver(Fold(keys, ds), keys, d)
  {
    assert (ds + [d])[..|ds|] == ds;
  }

  /** A snapshot moves the entry of its own session and no other, whether or not a decoder throws afterwards. */
  lemma SnapshotMovesEntry(d: Decoders, keys: Option<set<string>>, s: Store, at: string, snap: Snapshot, id: string)
    ensures EntryOf(TakeSnapshot(d, keys, s, at, snap).0, id)
            == if at == id then Merge(EntryOf(s, id), keys, snap) else EntryOf(s, id)
    ensures TakeSnapshot(d, keys, s, at, snap).0.ready == s.ready
  {
    var moved := Moved(s, at, Merge(EntryOf(s, at), keys, snap));
    assert EntryOf(moved, id) == if at == id then Merge(EntryOf(s, id), keys, snap) else EntryOf(s, id);
    DerivingKeepsEntries(d, moved, at);
  }

  lemma DerivingKeepsEntries(d: Decoders, s: Store, id: string)
    ensures var n := ThenDrop(DeriveInbox(d, s, id), id).0; n.entries == s.entries && n.ready == s.ready
  {
    EntriesStay(d, s, id);
  }

  lemma EntriesStay(d: Decoders, s: Store, id: string)
    ensures DeriveInbox(d, s, id).0.entries == s.entries && DeriveInbox(d, s, id).0.ready == s.ready
  {
  }

  lemma SnapshotIsDelivery(d: Decoders, keys: Option<set<string>>, s: Store, at: string, snap: Snapshot, id: string,
                           ds: seq<Delivery>)
    requires EntryOf(s, id) == Fold(keys, ds)
    ensures EntryOf(TakeSnapshot(d, keys, s, at, snap).0, id)
            == Fold(keys, ds + if at == id then [Follow(snap)] else [])
    ensures TakeSnapshot(d, keys, s, at, snap).0.ready == s.ready
  {
    SnapshotMovesEntry(d, keys, s, at, snap, id);
    if at == id {
      FoldSnoc(keys, ds, Follow(snap));
    } else {
      assert ds + [] == ds;
    }
  }

  /** So does a control update. */
  lemma UpdateMovesEntry(d: Decoders, keys: Option<set<string>>, s: Store, f: Frame, id: string)
    requires !f.Baseline? && s.ready
    ensures EntryOf(Accept(d, keys, s, f).0, id)
            == if f.Projection? && f.id == id then Update(EntryOf(s, id), keys, f.key, f.seqNo, f.value) else EntryOf(s, id)
    ensures Accept(d, keys, s, f).0.ready
  {
    if f.Projection? {
      var moved := Moved(s, f.id, Update(EntryOf(s, f.id), keys, f.key, f.seqNo, f.value));
      DerivingKeepsEntries(d, moved, f.id);
      assert Accept(d, keys, s, f).0.entries == moved.entries;
    }
  }

  lemma UpdateIsDelivery(d: Decoders, keys: Option<set<string>>, s: Store, f: Frame, id: string, ds: seq<Delivery>)
    requires s.ready && !f.Baseline? && EntryOf(s, id) == Fold(keys, ds)
    ensures var told := if f.Projection? && f.id == id then [Change(f.key, f.seqNo, f.value)] else [];
            EntryOf(Accept(d, keys, s, f).0, id) == Fold(keys, ds + told)
    ensures Accept(d, keys, s, f).0.ready
  {
    UpdateMovesEntry(d, keys, s, f, id);
    assert ds + [] == ds;
    if f.Projection? && f.id == id {
      FoldSnoc(keys, ds, Change(f.key, f.seqNo, f.value));
    }
  }
}
