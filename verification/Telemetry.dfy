/** Replicated projection values with per-key watermarks (src/session/telemetry.ts).
  *
  * Follow snapshots and control updates race; each carries the sequence it describes. Decoding a value for display is
  * foreign code, so it is a parameter, and it may throw. */
module Telemetry {
  import opened Collections

  /** A projection value, an inbox row and the displayed metrics, each as its JSON text. */
  type Value = string
  type Input = string
  type Metrics = string

  /** A watermark the wire decoder lets through. */
  type Watermark = w: int | -1 <= w witness -1

  /** The display decoders; None is a throw. */
  datatype Decoders = Decoders(inbox: Value -> Option<seq<Input>>, metrics: map<string, Value> -> Option<Metrics>)

  /** Snapshot of every value a session publishes. */
  datatype Snapshot = Snapshot(asOf: Watermark, values: map<string, Value>)

  /** One session: the last snapshot's sequence, the values, and the sequence of each value that is newer than it. */
  datatype Entry = Entry(baseline: Watermark, values: map<string, Value>, revisions: map<string, Watermark>)

  const NewEntry := Entry(-1, map[], map[])

  function Lookup<K, V>(m: map<K, V>, key: K): Option<V> {
    if key in m then Some(m[key]) else None
  }

  predicate Retained(keys: Option<set<string>>, key: string) {
    keys.None? || key in keys.value
  }

  /** The sequence below which an update of this key is stale. */
  function Mark(e: Entry, key: string): Watermark {
    if key in e.revisions then e.revisions[key] else e.baseline
  }

  predicate TakesUpdate(e: Entry, keys: Option<set<string>>, key: string, seqNo: Watermark) {
    Mark(e, key) <= seqNo && Retained(keys, key)
  }

  function Update(e: Entry, keys: Option<set<string>>, key: string, seqNo: Watermark, value: Value): Entry {
    if TakesUpdate(e, keys, key, seqNo) then Entry(e.baseline, e.values[key := value], e.revisions[key := seqNo]) else e
  }

  /** A snapshot leaves this key alone: it is not retained, or a newer update holds it. */
  predicate Skips(e: Entry, keys: Option<set<string>>, key: string, asOf: Watermark) {
    !Retained(keys, key) || (key in e.revisions && e.revisions[key] > asOf)
  }

  function MergedValue(e: Entry, keys: Option<set<string>>, s: Snapshot, key: string): Option<Value> {
    if Skips(e, keys, key, s.asOf) then Lookup(e.values, key) else Lookup(s.values, key)
  }

  /** Every key either side knows is replaced by the snapshot unless the snapshot skips it. */
  function Merge(e: Entry, keys: Option<set<string>>, s: Snapshot): Entry {
    if s.asOf < e.baseline then e
    else
      var known := e.values.Keys + s.values.Keys;
      Entry(s.asOf,
            map k | k in known && MergedValue(e, keys, s, k).Some? :: MergedValue(e, keys, s, k).value,
            map k | k in e.revisions && (k !in known || Skips(e, keys, k, s.asOf)) :: e.revisions[k])
  }

  datatype View = View(values: map<string, Value>, queued: Option<nat>, jobs: Option<nat>)

  const EmptyView := View(map[], None, None)

  datatype Store = Store(
    entries: map<string, Entry>,
    inbox: map<string, seq<Input>>,
    queues: map<string, seq<Input>>,
    jobs: map<string, nat>,
    views: map<string, View>,
    cached: map<string, Metrics>,
    ready: bool
  )

  const EmptyStore := Store(map[], map[], map[], map[], map[], map[], false)

  datatype Frame =
    | Baseline(projections: seq<(string, Snapshot)>, queues: map<string, seq<Input>>, jobs: map<string, nat>)
    | Projection(id: string, key: string, seqNo: Watermark, value: Value)
    | Queue(id: string, items: seq<Input>)
    | Jobs(id: string, count: nat)

  function EntryOf(s: Store, id: string): Entry {
    if id in s.entries then s.entries[id] else NewEntry
  }

  /** Rebuild the pending list from the inbox value; the flag is false when its decoder throws. */
  function DeriveInbox(d: Decoders, s: Store, id: string): (Store, bool) {
    var value := Lookup(EntryOf(s, id).values, "inbox");
    if value.None? then (s.(inbox := s.inbox - {id}), true)
    else
      var rows := d.inbox(value.value);
      if rows.None? then (s, false) else (s.(inbox := s.inbox[id := rows.value]), true)
  }

  function DropCaches(s: Store, id: string): Store {
    s.(views := s.views - {id}, cached := s.cached - {id})
  }

  /** Continue after a step that may have thrown; the caches are dropped only when it did not. */
  function ThenDrop(r: (Store, bool), id: string): (Store, bool) {
    if r.1 then (DropCaches(r.0, id), true) else r
  }

  function TakeSnapshot(d: Decoders, keys: Option<set<string>>, s: Store, id: string, snap: Snapshot): (Store, bool) {
    var e := EntryOf(s, id);
    var opened' := s.(entries := s.entries[id := Merge(e, keys, snap)]);
    if snap.asOf < e.baseline then (opened', true) else ThenDrop(DeriveInbox(d, opened', id), id)
  }

  function Load(d: Decoders, keys: Option<set<string>>, s: Store, projections: seq<(string, Snapshot)>): (Store, bool) {
    if projections == [] then (s, true)
    else
      var before := Load(d, keys, s, projections[..|projections| - 1]);
      var last := projections[|projections| - 1];
      if before.1 then TakeSnapshot(d, keys, before.0, last.0, last.1) else before
  }

  /** One control frame; the flag is false when it throws, and the store is then what the throw leaves behind. */
  function Accept(d: Decoders, keys: Option<set<string>>, s: Store, f: Frame): (Store, bool) {
    if f.Baseline? then
      var loaded := Load(d, keys, EmptyStore.(ready := s.ready), f.projections);
      if loaded.1 then (loaded.0.(queues := f.queues, jobs := f.jobs, ready := true), true) else loaded
    else if !s.ready then (s, false)
    else
      match f
      case Projection(id, key, seqNo, value) =>
        var e := EntryOf(s, id);
        var moved := s.(entries := s.entries[id := Update(e, keys, key, seqNo, value)]);
        if !TakesUpdate(e, keys, key, seqNo) then (moved, true)
        else ThenDrop(if key == "inbox" then DeriveInbox(d, moved, id) else (moved, true), id)
      case Queue(id, items) => (DropCaches(s.(queues := s.queues[id := items]), id), true)
      case Jobs(id, count) => (DropCaches(s.(jobs := s.jobs[id := count]), id), true)
  }

  function Pending(s: Store, id: string): seq<Input> {
    if id == "" then []
    else if id in s.queues then s.queues[id]
    else if id in s.inbox then s.inbox[id]
    else []
  }

  predicate Known(s: Store, id: string) {
    id != "" && (id in s.entries || id in s.inbox || id in s.queues || id in s.jobs)
  }

  /** What a view shows when it is computed from the maps alone. */
  function FreshView(s: Store, id: string): View {
    if !Known(s, id) then EmptyView
    else
      View(EntryOf(s, id).values,
           if id in s.inbox || id in s.queues then Some(|Pending(s, id)|) else None,
           Lookup(s.jobs, id))
  }

  function ReadView(s: Store, id: string): Store {
    if !Known(s, id) || id in s.views then s else s.(views := s.views[id := FreshView(s, id)])
  }

  function ReadMetrics(d: Decoders, s: Store, id: string): Store {
    var metrics := d.metrics(EntryOf(s, id).values);
    if id == "" || id in s.cached || metrics.None? then s else s.(cached := s.cached[id := metrics.value])
  }

  class Telemetry {
    const decoders: Decoders
    const keys: Option<set<string>>
    var entries: map<string, Entry>
    var inbox: map<string, seq<Input>>
    var queues: map<string, seq<Input>>
    var jobs: map<string, nat>
    var views: map<string, View>
    var cached: map<string, Metrics>
    var ready: bool

    constructor (decoders: Decoders, keys: Option<set<string>>)
      ensures State() == EmptyStore && this.decoders == decoders && this.keys == keys
    {
      this.decoders, this.keys := decoders, keys;
      entries, inbox, queues, jobs, views, cached := map[], map[], map[], map[], map[], map[];
      ready := false;
    }

    ghost function State(): Store
      reads this
    {
      Store(entries, inbox, queues, jobs, views, cached, ready)
    }

    method Derive(id: string) returns (ok: bool)
      modifies this
      ensures (State(), ok) == DeriveInbox(decoders, old(State()), id)
    {
      if id !in entries || "inbox" !in entries[id].values {
        inbox := inbox - {id};
        return true;
      }
      var rows := decoders.inbox(entries[id].values["inbox"]);
      if rows.None? {
        return false;
      }
      inbox := inbox[id := rows.value];
      return true;
    }

    /** Merge one snapshot, key by key. */
    method MergeSnapshot(id: string, snap: Snapshot) returns (ok: bool)
      modifies this
      ensures (State(), ok) == TakeSnapshot(decoders, keys, old(State()), id, snap)
    {
      var entry := if id in entries then entries[id] else NewEntry;
      entries := entries[id := entry];
      if snap.asOf < entry.baseline {
        return true;
      }
      var values, revisions := MergeKeys(entry, keys, snap);
      Overwrite(old(entries), id, entry, Entry(snap.asOf, values, revisions));
      entries := entries[id := Entry(snap.asOf, values, revisions)];
      ok := Derive(id);
      if ok {
        views, cached := views - {id}, cached - {id};
      }
    }

    method AcceptFrame(f: Frame) returns (ok: bool)
      modifies this
      ensures (State(), ok) == Accept(decoders, keys, old(State()), f)
    {
      if f.Baseline? {
        ok := AcceptBaseline(f);
      } else if !ready {
        return false;
      } else if f.Projection? {
        ok := AcceptProjection(f);
      } else {
        if f.Queue? {
          queues := queues[f.id := f.items];
        } else {
          jobs := jobs[f.id := f.count];
        }
        views, cached := views - {f.id}, cached - {f.id};
        return true;
      }
    }

    method AcceptBaseline(f: Frame) returns (ok: bool)
      requires f.Baseline?
      modifies this
      ensures (State(), ok) == Accept(decoders, keys, old(State()), f)
    {
      entries, inbox, queues, jobs, views, cached := map[], map[], map[], map[], map[], map[];
      ok := LoadAll(f.projections);
      if ok {
        queues, jobs, ready := f.queues, f.jobs, true;
      }
    }

    /** Merge the snapshots in order, up to the first that throws. */
    method LoadAll(projections: seq<(string, Snapshot)>) returns (ok: bool)
      modifies this
      ensures (State(), ok) == Load(decoders, keys, old(State()), projections)
    {
      ok := true;
      for i := 0 to |projections|
        invariant (State(), ok) == Load(decoders, keys, old(State()), projections[..i]) && ok
      {
        LoadStep(decoders, keys, old(State()), projections, i);
        ok := MergeSnapshot(projections[i].0, projections[i].1);
        if !ok {
          FailedLoad(decoders, keys, old(State()), projections, i + 1);
          return;
        }
      }
      assert projections[..|projections|] == projections;
    }

    method AcceptProjection(f: Frame) returns (ok: bool)
      requires f.Projection? && ready
      modifies this
      ensures (State(), ok) == Accept(decoders, keys, old(State()), f)
    {
      var entry := if f.id in entries then entries[f.id] else NewEntry;
      entries := entries[f.id := entry];
      if f.seqNo < Mark(entry, f.key) || !Retained(keys, f.key) {
        return true;
      }
      var moved := Entry(entry.baseline, entry.values[f.key := f.value], entry.revisions[f.key := f.seqNo]);
      Overwrite(old(entries), f.id, entry, moved);
      entries := entries[f.id := moved];
      if f.key == "inbox" {
        ok := Derive(f.id);
        if !ok {
          return;
        }
      }
      views, cached := views - {f.id}, cached - {f.id};
      return true;
    }

    /** A view read fills the cache on its way; the caller sees the cached view. */
    method ViewOf(id: string) returns (view: View)
      modifies this
      ensures State() == ReadView(old(State()), id)
      ensures view == if !Known(old(State()), id) then EmptyView else State().views[id]
    {
      if id == "" || (id !in entries && id !in inbox && id !in queues && id !in jobs) {
        return EmptyView;
      }
      if id !in views {
        var values := if id in entries then entries[id].values else map[];
        var queued := if id in inbox || id in queues then Some(|PendingOf(id)|) else None;
        views := views[id := View(values, queued, Lookup(jobs, id))];
      }
      return views[id];
    }

    function PendingOf(id: string): (r: seq<Input>)
      reads this
      ensures r == Pending(State(), id)
    {
      if id == "" then []
      else if id in queues then queues[id]
      else if id in inbox then inbox[id]
      else []
    }

    /** A metrics read; None is a throw of the decoder, which caches nothing. */
    method MetricsOf(id: string) returns (metrics: Option<Metrics>)
      requires id != ""
      modifies this
      ensures State() == ReadMetrics(decoders, old(State()), id)
      ensures metrics == if id in old(cached) then Some(old(cached)[id]) else decoders.metrics(EntryOf(old(State()), id).values)
    {
      if id in cached {
        return Some(cached[id]);
      }
      metrics := decoders.metrics(if id in entries then entries[id].values else map[]);
      if metrics.Some? {
        cached := cached[id := metrics.value];
      }
    }
  }

  /** The merge loop: keys are visited in any order, and each is decided on its own. */
  method MergeKeys(e: Entry, keys: Option<set<string>>, snap: Snapshot)
    returns (values: map<string, Value>, revisions: map<string, Watermark>)
    requires e.baseline <= snap.asOf
    ensures Entry(snap.asOf, values, revisions) == Merge(e, keys, snap)
  {
    values, revisions := e.values, e.revisions;
    var todo := e.values.Keys + snap.values.Keys;
    while todo != {}
      invariant Merging(e, keys, snap, todo, values, revisions)
      decreases |todo|
    {
      var key :| key in todo;
      KeyVisited(e, keys, snap, todo, values, revisions, key);
      todo := todo - {key};
      if Retained(keys, key) && !((if key in revisions then revisions[key] else -1) > snap.asOf) {
        if key in snap.values {
          values := values[key := snap.values[key]];
        } else {
          values := values - {key};
        }
        revisions := revisions - {key};
      }
    }
    AllMerged(e, keys, snap, values, revisions);
  }

  /** During the loop a visited key is merged, every other key is untouched. */
  predicate MergingAt(e: Entry, keys: Option<set<string>>, snap: Snapshot, todo: set<string>,
                      values: map<string, Value>, revisions: map<string, Watermark>, k: string) {
    var visited := k in e.values.Keys + snap.values.Keys && k !in todo;
    && Lookup(values, k) == (if visited then MergedValue(e, keys, snap, k) else Lookup(e.values, k))
    && Lookup(revisions, k) == if visited && !Skips(e, keys, k, snap.asOf) then None else Lookup(e.revisions, k)
  }

  ghost predicate Merging(e: Entry, keys: Option<set<string>>, snap: Snapshot, todo: set<string>,
                          values: map<string, Value>, revisions: map<string, Watermark>) {
    todo <= e.values.Keys + snap.values.Keys && forall k :: MergingAt(e, keys, snap, todo, values, revisions, k)
  }

  lemma KeyVisited(e: Entry, keys: Option<set<string>>, snap: Snapshot, todo: set<string>,
                   values: map<string, Value>, revisions: map<string, Watermark>, key: string)
    requires Merging(e, keys, snap, todo, values, revisions) && key in todo
    ensures Lookup(revisions, key) == Lookup(e.revisions, key)
    ensures Merging(e, keys, snap, todo - {key},
                    if Skips(e, keys, key, snap.asOf) then values
                    else if key in snap.values then values[key := snap.values[key]] else values - {key},
                    if Skips(e, keys, key, snap.asOf) then revisions else revisions - {key})
  {
    assert MergingAt(e, keys, snap, todo, values, revisions, key);
    var skips := Skips(e, keys, key, snap.asOf);
    var v := if skips then values else if key in snap.values then values[key := snap.values[key]] else values - {key};
    var r := if skips then revisions else revisions - {key};
    forall k
      ensures MergingAt(e, keys, snap, todo - {key}, v, r, k)
    {
      assert MergingAt(e, keys, snap, todo, values, revisions, k);
    }
  }

  lemma AllMerged(e: Entry, keys: Option<set<string>>, snap: Snapshot, values: map<string, Value>, revisions: map<string, Watermark>)
    requires Merging(e, keys, snap, {}, values, revisions) && e.baseline <= snap.asOf
    ensures Entry(snap.asOf, values, revisions) == Merge(e, keys, snap)
  {
    var merged := Merge(e, keys, snap);
    forall k
      ensures Lookup(values, k) == Lookup(merged.values, k) && Lookup(revisions, k) == Lookup(merged.revisions, k)
    {
      assert MergingAt(e, keys, snap, {}, values, revisions, k);
    }
    SameMap(values, merged.values);
    SameMap(revisions, merged.revisions);
  }

  lemma Overwrite<V>(m: map<string, V>, key: string, first: V, second: V)
    ensures m[key := first][key := second] == m[key := second]
  {
  }

  lemma SameMap<V>(a: map<string, V>, b: map<string, V>)
    requires forall k :: Lookup(a, k) == Lookup(b, k)
    ensures a == b
  {
    assert forall k :: k in a <==> Lookup(a, k).Some?;
    assert forall k :: k in b <==> Lookup(b, k).Some?;
    assert a.Keys == b.Keys;
    forall k | k in a
      ensures a[k] == b[k]
    {
      assert Lookup(a, k) == Lookup(b, k);
    }
  }

  lemma LoadStep(d: Decoders, keys: Option<set<string>>, s: Store, projections: seq<(string, Snapshot)>, i: nat)
    requires i < |projections|
    ensures var before, next := Load(d, keys, s, projections[..i]), projections[i];
            Load(d, keys, s, projections[..i + 1])
            == if before.1 then TakeSnapshot(d, keys, before.0, next.0, next.1) else before
  {
    assert projections[..i + 1][..i] == projections[..i];
  }

  lemma FailedLoad(d: Decoders, keys: Option<set<string>>, s: Store, projections: seq<(string, Snapshot)>, n: nat)
    requires n <= |projections| && !Load(d, keys, s, projections[..n]).1
    ensures Load(d, keys, s, projections) == Load(d, keys, s, projections[..n])
    decreases |projections| - n
  {
    if n < |projections| {
      assert projections[..n + 1][..n] == projections[..n];
      FailedLoad(d, keys, s, projections, n + 1);
    } else {
      assert projections[..n] == projections;
    }
  }
}
