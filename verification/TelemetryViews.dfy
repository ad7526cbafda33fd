/** What a session's view and pending inputs show (src/session/telemetry.ts:123-171), said of what the session was told. */
module TelemetryViews {
  import opened Collections
  import opened Telemetry
  import opened TelemetryConfluence
  import opened TelemetryThrows
  import opened TelemetryRuns

  // ---------------------------------------------------------------- queues and jobs as they were told

  /** The last queue told to a session: by its own frame once frames are admitted, or by a baseline that was taken whole. A
    * baseline that threw leaves none. */
  function QueueTold(d: Decoders, keys: Option<set<string>>, events: seq<Event>, id: string): Option<seq<Input>> {
    if events == [] then None
    else
      var front, before := events[..|events| - 1], QueueTold(d, keys, events[..|events| - 1], id);
      match events[|events| - 1]
      case Control(Baseline(ps, queues, _)) => if BaselineThrows(d, keys, ps) then None else Lookup(queues, id)
      case Control(Queue(at, items)) => if at == id && Ready(d, keys, front) then Some(items) else before
      case _ => before
  }

  function JobsTold(d: Decoders, keys: Option<set<string>>, events: seq<Event>, id: string): Option<nat> {
    if events == [] then None
    else
      var front, before := events[..|events| - 1], JobsTold(d, keys, events[..|events| - 1], id);
      match events[|events| - 1]
      case Control(Baseline(ps, _, jobs)) => if BaselineThrows(d, keys, ps) then None else Lookup(jobs, id)
      case Control(Jobs(at, count)) => if at == id && Ready(d, keys, front) then Some(count) else before
      case _ => before
  }

  predicate SameCounts(s: Store, n: Store) {
    n.queues == s.queues && n.jobs == s.jobs
  }

  lemma DerivingKeepsCounts(d: Decoders, s: Store, id: string)
    ensures SameCounts(s, DeriveInbox(d, s, id).0)
  {
  }

  lemma SnapshotKeepsCounts(d: Decoders, keys: Option<set<string>>, s: Store, id: string, snap: Snapshot)
    ensures SameCounts(s, TakeSnapshot(d, keys, s, id, snap).0)
  {
    var moved := Moved(s, id, Merge(EntryOf(s, id), keys, snap));
    DerivingKeepsCounts(d, moved, id);
    assert SameCounts(s, moved);
  }

  lemma {:induction false} LoadKeepsCounts(d: Decoders, keys: Option<set<string>>, s: Store, ps: seq<(string, Snapshot)>)
    ensures SameCounts(s, Load(d, keys, s, ps).0)
  {
    if ps != [] {
      var front, last := ps[..|ps| - 1], ps[|ps| - 1];
      LoadKeepsCounts(d, keys, s, front);
      SnapshotKeepsCounts(d, keys, Load(d, keys, s, front).0, last.0, last.1);
    }
  }

  lemma BaselineCounts(d: Decoders, keys: Option<set<string>>, s: Store, f: Frame, id: string)
    requires f.Baseline?
    ensures var n, whole := Accept(d, keys, s, f).0, !BaselineThrows(d, keys, f.projections);
            && Lookup(n.queues, id) == (if whole then Lookup(f.queues, id) else None)
            && Lookup(n.jobs, id) == if whole then Lookup(f.jobs, id) else None
  {
    LoadKeepsCounts(d, keys, EmptyStore.(ready := s.ready), f.projections);
    BaselineThrowsExactly(d, keys, s, f);
  }

  lemma ProjectionKeepsCounts(d: Decoders, keys: Option<set<string>>, s: Store, f: Frame)
    requires f.Projection?
    ensures SameCounts(s, Accept(d, keys, s, f).0)
  {
  }

  lemma CountFrames(d: Decoders, keys: Option<set<string>>, s: Store, f: Frame, id: string)
    requires f.Queue? || f.Jobs?
    ensures var n := Accept(d, keys, s, f).0;
            && Lookup(n.queues, id) == (if f.Queue? && f.id == id && s.ready then Some(f.items) else Lookup(s.queues, id))
            && Lookup(n.jobs, id) == if f.Jobs? && f.id == id && s.ready then Some(f.count) else Lookup(s.jobs, id)
  {
  }

  lemma OthersKeepCounts(d: Decoders, keys: Option<set<string>>, s: Store, e: Event)
    requires !e.Control?
    ensures SameCounts(s, Step(d, keys, s, e))
  {
    if e.FollowSnapshot? {
      FollowKeepsCounts(d, keys, s, e);
    }
  }

  lemma FollowKeepsCounts(d: Decoders, keys: Option<set<string>>, s: Store, e: Event)
    requires e.FollowSnapshot?
    ensures SameCounts(s, Step(d, keys, s, e))
  {
    if e.snap.Some? {
      SnapshotKeepsCounts(d, keys, s, e.id, e.snap.value);
    }
  }

  /** In every run the queue and the jobs of a session are the last it was told. */
  lemma {:induction false} CountsAreTold(d: Decoders, keys: Option<set<string>>, events: seq<Event>, id: string)
    ensures var s := Run(d, keys, events);
            Lookup(s.queues, id) == QueueTold(d, keys, events, id) && Lookup(s.jobs, id) == JobsTold(d, keys, events, id)
  {
    if events != [] {
      var front, e := events[..|events| - 1], events[|events| - 1];
      var s := Run(d, keys, front);
      CountsAreTold(d, keys, front, id);
      RunIsFold(d, keys, front, id);
      if !e.Control? {
        OthersKeepCounts(d, keys, s, e);
      } else if e.frame.Baseline? {
        BaselineCounts(d, keys, s, e.frame, id);
      } else if e.frame.Projection? {
        ProjectionKeepsCounts(d, keys, s, e.frame);
      } else {
        CountFrames(d, keys, s, e.frame, id);
      }
    }
  }

  // ---------------------------------------------------------------- what is shown

  /** The inbox of a session as it was told, decoded. */
  function InboxTold(d: Decoders, keys: Option<set<string>>, events: seq<Event>, id: string): Option<seq<Input>> {
    var value := ValueAt(Fold(keys, ToldTo(d, keys, events, id)), "inbox");
    if value.Some? then d.inbox(value.value) else None
  }

  /** Inputs that are known: those of the queue when there is one, else those of the inbox. */
  function Inputs(d: Decoders, keys: Option<set<string>>, events: seq<Event>, id: string): Option<seq<Input>> {
    if QueueTold(d, keys, events, id).Some? then QueueTold(d, keys, events, id) else InboxTold(d, keys, events, id)
  }

  lemma InboxIsTold(d: Decoders, keys: Option<set<string>>, events: seq<Event>, id: string)
    requires FreshAt(d, Run(d, keys, events), id)
    ensures Lookup(Run(d, keys, events).inbox, id) == InboxTold(d, keys, events, id)
  {
    RunIsFold(d, keys, events, id);
  }

  lemma NothingKnown(s: Store, id: string)
    requires !Known(s, id) && id != ""
    ensures EntryOf(s, id).values == map[] && Lookup(s.inbox, id).None? && Lookup(s.queues, id).None? && Lookup(s.jobs, id).None?
  {
  }

  lemma FreshAtTheEnd(d: Decoders, keys: Option<set<string>>, events: seq<Event>, id: string)
    requires NothingThrows(d, keys, events)
    ensures FreshAt(d, Run(d, keys, events), id)
  {
    RunIsFreshExactlyWhenNothingThrows(d, keys, events);
    assert events[..|events|] == events && FreshAfter(d, keys, events[..|events|]);
  }

  /** While no decoder throws, a view shows the values a session was told, how many inputs are known to be pending - nothing
    * when none were ever reported, not zero - and its jobs, and the pending inputs are those of its queue, or else of its
    * inbox. */
  lemma ViewShowsWhatWasTold(d: Decoders, keys: Option<set<string>>, events: seq<Event>, id: string)
    requires NothingThrows(d, keys, events) && id != ""
    ensures var s, inputs := Run(d, keys, events), Inputs(d, keys, events, id);
            && FreshView(s, id) == View(Fold(keys, ToldTo(d, keys, events, id)).values,
                                        if inputs.Some? then Some(|inputs.value|) else None, JobsTold(d, keys, events, id))
            && Pending(s, id) == (if inputs.Some? then inputs.value else [])
            && (id in s.views ==> s.views[id] == FreshView(s, id))
  {
    var s := Run(d, keys, events);
    FreshAtTheEnd(d, keys, events, id);
    RunIsFold(d, keys, events, id);
    InboxIsTold(d, keys, events, id);
    CountsAreTold(d, keys, events, id);
    if !Known(s, id) {
      NothingKnown(s, id);
    }
  }

  /** And reading it shows exactly that, and caches it. */
  lemma ReadShowsWhatWasTold(d: Decoders, keys: Option<set<string>>, events: seq<Event>, id: string)
    requires NothingThrows(d, keys, events) && id != "" && Known(Run(d, keys, events), id)
    ensures var inputs, n := Inputs(d, keys, events, id), ReadView(Run(d, keys, events), id);
            && id in n.views
            && n.views[id] == View(Fold(keys, ToldTo(d, keys, events, id)).values,
                                   if inputs.Some? then Some(|inputs.value|) else None, JobsTold(d, keys, events, id))
  {
    ViewShowsWhatWasTold(d, keys, events, id);
  }

  /** A read changes nothing else, and nothing at all when a view is cached or nothing is known of the session. */
  lemma ReadChangesNothingElse(s: Store, id: string, other: string)
    ensures var n := ReadView(s, id);
            && n.(views := s.views) == s && (other != id ==> Lookup(n.views, other) == Lookup(s.views, other))
            && (id in s.views || !Known(s, id) ==> n == s)
    ensures Known(s, id) <==> id != "" && (id in s.entries || id in s.inbox || id in s.queues || id in s.jobs)
  {
  }

  /** No session at all has an empty view, no pending inputs and no metrics, and leaves nothing in the caches. */
  lemma NoSessionIsEmpty(d: Decoders, s: Store)
    ensures FreshView(s, "") == EmptyView && Pending(s, "") == [] && ReadView(s, "") == s && ReadMetrics(d, s, "") == s
  {
  }

  lemma MetricsAreCached(d: Decoders, s: Store, id: string)
    requires FreshAt(d, s, id) && id != ""
    ensures var n := ReadMetrics(d, s, id);
            Lookup(n.cached, id) == d.metrics(EntryOf(s, id).values) && n.(cached := s.cached) == s
  {
  }

  /** While no decoder throws, the metrics read are those of the values a session was told, decoded once, and cached. */
  lemma MetricsShowWhatWasTold(d: Decoders, keys: Option<set<string>>, events: seq<Event>, id: string)
    requires NothingThrows(d, keys, events) && id != ""
    ensures var s, told := Run(d, keys, events), d.metrics(Fold(keys, ToldTo(d, keys, events, id)).values);
            Lookup(ReadMetrics(d, s, id).cached, id) == told && ReadMetrics(d, s, id).(cached := s.cached) == s
  {
    FreshAtTheEnd(d, keys, events, id);
    RunIsFold(d, keys, events, id);
    MetricsAreCached(d, Run(d, keys, events), id);
  }
}
