/** Folding billing events into one sample per model attempt (src/cost/records.ts). */
module CostRecords {
  import opened Collections
  import opened KeyOrder

  /** A token count as the wire reports it. */
  datatype Bucket = Missing | Count(n: int) | Malformed

  datatype RawUsage = RawUsage(input: Bucket, output: Bucket, cacheRead: Bucket, cacheWrite: Bucket, total: Bucket)

  datatype Usage = Usage(input: nat, output: nat, cacheRead: nat, cacheWrite: nat)

  /** Which part an event plays in the fold. */
  datatype Kind =
    | Route   // a request context: the provider and model later events inherit
    | Seed    // the end of a fork's inherited history
    | Retry   // the next request of this turn and step is another attempt
    | Request // an assistant message, an assistant attempt, or a compaction summary

  datatype Event = Event(
    seqNo: nat,
    kind: Kind,
    inherited: bool,
    time: Option<int>,
    turn: Option<int>,
    step: Option<int>,
    provider: Option<string>,
    model: Option<string>,
    sourceProvider: Option<string>,
    sourceModel: Option<string>,
    usage: RawUsage
  )

  datatype Sample = Sample(key: nat, time: Option<int>, provider: string, model: string, usage: Option<Usage>)

  const MaxSafe := 0x1F_FFFF_FFFF_FFFF
  const MaxTime := 8_640_000_000_000_000

  // ---------------------------------------------------------------- usage

  function Tokens(b: Bucket, absent: Option<nat>): Option<nat> {
    match b
    case Missing => absent
    case Count(n) => if 0 <= n <= MaxSafe then Some(n) else None
    case Malformed => None
  }

  /** A report counts only when every bucket is a safe non-negative integer and a stated total agrees with their sum. */
  function ValidUsage(u: RawUsage): Option<Usage> {
    var input, output := Tokens(u.input, None), Tokens(u.output, None);
    var read, write := Tokens(u.cacheRead, Some(0)), Tokens(u.cacheWrite, Some(0));
    if input.None? || output.None? || read.None? || write.None? then None
    else
      var sum := input.value + output.value + read.value + write.value;
      if u.total.Missing? || (u.total.Count? && u.total.n <= MaxSafe && u.total.n == sum)
      then Some(Usage(input.value, output.value, read.value, write.value)) else None
  }

  lemma UsageAddsUp(u: RawUsage)
    ensures ValidUsage(u).Some? && u.total.Count? ==>
              var v := ValidUsage(u).value; v.input + v.output + v.cacheRead + v.cacheWrite == u.total.n
    ensures ValidUsage(u).Some? ==> u.input.Count? && u.output.Count? && !u.cacheRead.Malformed? && !u.cacheWrite.Malformed?
  {
  }

  // ---------------------------------------------------------------- the incremental fold

  function InheritedCut(events: seq<Event>): int {
    if events == [] then -1
    else
      var last := events[|events| - 1];
      var front := InheritedCut(events[..|events| - 1]);
      if last.kind.Seed? && last.inherited then Max(front, last.seqNo) else front
  }

  /** The last event delivered under each sequence. */
  function BySeq(events: seq<Event>): map<nat, Event> {
    if events == [] then map[] else BySeq(events[..|events| - 1])[events[|events| - 1].seqNo := events[|events| - 1]]
  }

  function Listed(events: map<nat, Event>, keys: seq<nat>): seq<Event> {
    if keys == [] then []
    else
      var last := keys[|keys| - 1];
      Listed(events, keys[..|keys| - 1]) + if last in events then [events[last]] else []
  }

  /** The events in sequence order, each once. */
  ghost function InOrder(events: seq<Event>): seq<Event> {
    Listed(BySeq(events), Ascending(BySeq(events).Keys))
  }

  datatype Context = Context(provider: Option<string>, model: Option<string>)

  datatype Attempt = Attempt(turn: Option<int>, step: Option<int>)

  datatype Folding = Folding(route: Context, last: Option<(Attempt, nat)>, samples: seq<Sample>)

  const NothingFolded := Folding(Context(None, None), None, [])

  function Or(first: Option<string>, second: Option<string>): string {
    if first.Some? then first.value else if second.Some? then second.value else ""
  }

  function ValidTime(e: Event): Option<int> {
    if e.time.Some? && 0 <= e.time.value <= MaxTime then e.time else None
  }

  function SampleOf(key: nat, route: Context, e: Event): Sample {
    Sample(key, ValidTime(e), Or(e.sourceProvider, route.provider), Or(e.sourceModel, route.model), ValidUsage(e.usage))
  }

  function AttemptOf(e: Event): Attempt {
    Attempt(e.turn, e.step)
  }

  function FoldRequest(f: Folding, e: Event): Folding {
    var joins := f.last.Some? && e.turn.Some? && e.step.Some? && f.last.value.0 == AttemptOf(e);
    var index := if joins then f.last.value.1 else |f.samples|;
    if index < |f.samples| then
      if ValidUsage(e.usage).None? && f.samples[index].usage.Some? then f
      else f.(samples := f.samples[index := SampleOf(f.samples[index].key, f.route, e)], last := Some((AttemptOf(e), index)))
    else f.(samples := f.samples + [SampleOf(e.seqNo, f.route, e)], last := Some((AttemptOf(e), index)))
  }

  function FoldEvent(cut: int, f: Folding, e: Event): Folding {
    if e.kind.Route? then f.(route := Context(e.provider, e.model))
    else if e.seqNo <= cut || e.kind.Seed? then f
    else if e.kind.Retry? then
      if f.last.Some? && f.last.value.0 == AttemptOf(e) then f.(last := None) else f
    else FoldRequest(f, e)
  }

  function FoldAll(cut: int, list: seq<Event>): Folding {
    if list == [] then NothingFolded else FoldEvent(cut, FoldAll(cut, list[..|list| - 1]), list[|list| - 1])
  }

  ghost function Samples(events: seq<Event>): seq<Sample> {
    FoldAll(InheritedCut(events), InOrder(events)).samples
  }

  /** The fold as it runs: a cut, the distinct events in order, and one pass with a route and an open attempt. */
  method FoldSamples(events: seq<Event>) returns (samples: seq<Sample>)
    ensures samples == Samples(events)
  {
    var cut := -1;
    var distinct := map[];
    for i := 0 to |events|
      invariant cut == InheritedCut(events[..i]) && distinct == BySeq(events[..i])
    {
      assert events[..i + 1][..i] == events[..i];
      if events[i].kind.Seed? && events[i].inherited {
        cut := Max(cut, events[i].seqNo);
      }
      distinct := distinct[events[i].seqNo := events[i]];
    }
    assert events[..|events|] == events;
    var keys := SortKeys(distinct.Keys);
    var ordered := Listed(distinct, keys);
    var route := Context(None, None);
    var last: Option<(Attempt, nat)> := None;
    samples := [];
    for i := 0 to |ordered|
      invariant Folding(route, last, samples) == FoldAll(cut, ordered[..i])
    {
      assert ordered[..i + 1][..i] == ordered[..i];
      var e := ordered[i];
      if e.kind.Route? {
        route := Context(e.provider, e.model);
      } else if e.seqNo <= cut || e.kind.Seed? {
      } else if e.kind.Retry? {
        if last.Some? && last.value.0 == AttemptOf(e) {
          last := None;
        }
      } else {
        var next := FoldRequest(Folding(route, last, samples), e);
        last, samples := next.last, next.samples;
      }
    }
    assert ordered[..|ordered|] == ordered;
  }

  // ---------------------------------------------------------------- attempt groups

  /** A billable event with the route that was in effect. */
  datatype Billed = Billed(event: Event, route: Context)

  function RouteAfter(list: seq<Event>): Context {
    if list == [] then Context(None, None)
    else
      var last := list[|list| - 1];
      if last.kind.Route? then Context(last.provider, last.model) else RouteAfter(list[..|list| - 1])
  }

  predicate Billable(cut: int, e: Event) {
    e.kind.Request? && e.seqNo > cut
  }

  /** The attempt that the next request may still belong to: that of the last request, unless a retry closed it. */
  function OpenAttempt(cut: int, list: seq<Event>): Option<Attempt> {
    if list == [] then None
    else
      var front, last := list[..|list| - 1], list[|list| - 1];
      if Billable(cut, last) then Some(AttemptOf(last))
      else if last.kind.Retry? && last.seqNo > cut && OpenAttempt(cut, front) == Some(AttemptOf(last)) then None
      else OpenAttempt(cut, front)
  }

  predicate Continues(open': Option<Attempt>, e: Event) {
    e.turn.Some? && e.step.Some? && open' == Some(AttemptOf(e))
  }

  /** The billable events, one group per attempt. */
  function Groups(cut: int, list: seq<Event>): seq<seq<Billed>> {
    if list == [] then []
    else
      var front, last := list[..|list| - 1], list[|list| - 1];
      var groups := Groups(cut, front);
      if !Billable(cut, last) then groups
      else
        var b := Billed(last, RouteAfter(front));
        if groups != [] && Continues(OpenAttempt(cut, front), last)
        then groups[..|groups| - 1] + [groups[|groups| - 1] + [b]]
        else groups + [[b]]
  }

  /** The event an attempt's facts come from: its last one with valid usage, or its last one when none has. */
  function Chosen(group: seq<Billed>): (b: Billed)
    requires group != []
    ensures b in group
  {
    var front, last := group[..|group| - 1], group[|group| - 1];
    if front == [] || ValidUsage(last.event.usage).Some? || ValidUsage(Chosen(front).event.usage).None? then last
    else Chosen(front)
  }

  function Summarize(group: seq<Billed>): Sample
    requires group != []
  {
    SampleOf(group[0].event.seqNo, Chosen(group).route, Chosen(group).event)
  }

  function SummarizeAll(groups: seq<seq<Billed>>): (r: seq<Sample>)
    requires NoneEmpty(groups)
    ensures |r| == |groups|
  {
    if groups == [] then [] else SummarizeAll(groups[..|groups| - 1]) + [Summarize(groups[|groups| - 1])]
  }

  /** Which event that is, by position. */
  lemma {:induction false} ChosenMeans(group: seq<Billed>, i: nat)
    requires i < |group| && ValidUsage(group[i].event.usage).Some?
    requires forall k :: i < k < |group| ==> ValidUsage(group[k].event.usage).None?
    ensures Chosen(group) == group[i]
  {
    if i < |group| - 1 {
      ChosenMeans(group[..|group| - 1], i);
    }
  }

  lemma {:induction false} ChosenWithoutUsage(group: seq<Billed>)
    requires group != [] && forall k :: 0 <= k < |group| ==> ValidUsage(group[k].event.usage).None?
    ensures Chosen(group) == group[|group| - 1]
  {
    if |group| > 1 {
      ChosenWithoutUsage(group[..|group| - 1]);
    }
  }

  predicate NoneEmpty(groups: seq<seq<Billed>>) {
    forall i :: 0 <= i < |groups| ==> groups[i] != []
  }

  lemma {:induction false} GroupsAreNotEmpty(cut: int, list: seq<Event>)
    ensures NoneEmpty(Groups(cut, list))
    ensures OpenAttempt(cut, list).Some? ==> Groups(cut, list) != []
  {
    if list != [] {
      var front, last := list[..|list| - 1], list[|list| - 1];
      GroupsAreNotEmpty(cut, front);
    }
  }

  /** The groups hold exactly the billable events past the inherited cut, each once and in order. */
  lemma {:induction false} GroupsPartition(cut: int, list: seq<Event>)
    ensures forall b :: b in Concat(Groups(cut, list)) ==> Billable(cut, b.event)
    ensures |Concat(Groups(cut, list))| == |Billables(cut, list)|
    ensures forall i :: 0 <= i < |Billables(cut, list)| ==> Concat(Groups(cut, list))[i].event == Billables(cut, list)[i]
  {
    if list != [] {
      var front, last := list[..|list| - 1], list[|list| - 1];
      GroupsPartition(cut, front);
      if Billable(cut, last) {
        GroupsGrow(cut, list);
      }
    }
  }

  lemma GroupsGrow(cut: int, list: seq<Event>)
    requires list != [] && Billable(cut, list[|list| - 1])
    ensures var front, last := list[..|list| - 1], list[|list| - 1];
            Concat(Groups(cut, list)) == Concat(Groups(cut, front)) + [Billed(last, RouteAfter(front))]
  {
    var front, last := list[..|list| - 1], list[|list| - 1];
    var groups, b := Groups(cut, front), Billed(last, RouteAfter(front));
    if groups != [] && Continues(OpenAttempt(cut, front), last) {
      var init, tail := groups[..|groups| - 1], groups[|groups| - 1];
      ConcatSnoc(init, tail);
      ConcatSnoc(init, tail + [b]);
      assert init + [tail] == groups;
      Regroup(Concat(init), tail, [b], tail + [b]);
    } else {
      ConcatSnoc(groups, [b]);
    }
  }

  function Billables(cut: int, list: seq<Event>): seq<Event> {
    if list == [] then []
    else
      var front, last := Billables(cut, list[..|list| - 1]), list[|list| - 1];
      if Billable(cut, last) then front + [last] else front
  }

  lemma ConcatSnoc<T>(parts: seq<seq<T>>, last: seq<T>)
    ensures Concat(parts + [last]) == Concat(parts) + last
  {
    assert (parts + [last])[..|parts|] == parts;
  }

  // ---------------------------------------------------------------- the fold is one sample per group

  ghost predicate Matches(f: Folding, cut: int, list: seq<Event>)
    requires NoneEmpty(Groups(cut, list))
  {
    && f.route == RouteAfter(list)
    && f.samples == SummarizeAll(Groups(cut, list))
    && f.last == (if OpenAttempt(cut, list).None? then None
                  else Some((OpenAttempt(cut, list).value, |Groups(cut, list)| - 1)))
  }

  lemma SummarizeSnoc(groups: seq<seq<Billed>>, g: seq<Billed>)
    requires NoneEmpty(groups) && g != []
    ensures NoneEmpty(groups + [g]) && SummarizeAll(groups + [g]) == SummarizeAll(groups) + [Summarize(g)]
  {
    assert (groups + [g])[..|groups|] == groups;
  }

  /** One more event of the open attempt replaces its facts, unless it has no usage and the attempt has some. */
  lemma SummaryGrows(g: seq<Billed>, b: Billed)
    requires g != []
    ensures Summarize(g + [b]) == Replaced(Summarize(g), b.route, b.event)
  {
    assert (g + [b])[..|g|] == g;
  }

  function Replaced(s: Sample, route: Context, e: Event): Sample {
    if ValidUsage(e.usage).None? && s.usage.Some? then s else SampleOf(s.key, route, e)
  }

  lemma JoinedFold(f: Folding, init: seq<Sample>, s: Sample, e: Event)
    requires f.samples == init + [s] && e.turn.Some? && e.step.Some? && f.last == Some((AttemptOf(e), |init|))
    ensures FoldRequest(f, e) == f.(samples := init + [Replaced(s, f.route, e)])
  {
    assert f.samples[|init| := Replaced(s, f.route, e)] == init + [Replaced(s, f.route, e)];
  }

  /** Folding a request of the open attempt rewrites the last sample as the longer group's summary. */
  lemma JoinedSample(f: Folding, groups: seq<seq<Billed>>, e: Event)
    requires NoneEmpty(groups) && groups != [] && f.samples == SummarizeAll(groups)
    requires e.turn.Some? && e.step.Some? && f.last == Some((AttemptOf(e), |groups| - 1))
    ensures var grown := groups[..|groups| - 1] + [groups[|groups| - 1] + [Billed(e, f.route)]];
            && NoneEmpty(grown) && FoldRequest(f, e).samples == SummarizeAll(grown)
            && FoldRequest(f, e).last == Some((AttemptOf(e), |grown| - 1)) && FoldRequest(f, e).route == f.route
  {
    var init, g, b := groups[..|groups| - 1], groups[|groups| - 1], Billed(e, f.route);
    assert groups == init + [g];
    SummarizeSnoc(init, g);
    SummarizeSnoc(init, g + [b]);
    SummaryGrows(g, b);
    JoinedFold(f, SummarizeAll(init), Summarize(g), e);
  }

  /** Folding any other request adds the summary of a group of its own. */
  lemma AddedSample(f: Folding, groups: seq<seq<Billed>>, e: Event)
    requires NoneEmpty(groups) && f.samples == SummarizeAll(groups)
    requires !(e.turn.Some? && e.step.Some? && f.last.Some? && f.last.value.0 == AttemptOf(e))
    ensures var grown := groups + [[Billed(e, f.route)]];
            && NoneEmpty(grown) && FoldRequest(f, e).samples == SummarizeAll(grown)
            && FoldRequest(f, e).last == Some((AttemptOf(e), |grown| - 1)) && FoldRequest(f, e).route == f.route
  {
    SummarizeSnoc(groups, [Billed(e, f.route)]);
  }

  lemma GroupsOfRequest(cut: int, front: seq<Event>, e: Event)
    requires Billable(cut, e)
    ensures var groups, b := Groups(cut, front), Billed(e, RouteAfter(front));
            Groups(cut, front + [e]) == if groups != [] && Continues(OpenAttempt(cut, front), e)
                                        then groups[..|groups| - 1] + [groups[|groups| - 1] + [b]] else groups + [[b]]
    ensures RouteAfter(front + [e]) == RouteAfter(front) && OpenAttempt(cut, front + [e]) == Some(AttemptOf(e))
  {
    assert (front + [e])[..|front|] == front;
  }

  lemma RequestMatches(f: Folding, cut: int, front: seq<Event>, e: Event)
    requires NoneEmpty(Groups(cut, front)) && Matches(f, cut, front) && Billable(cut, e)
    requires OpenAttempt(cut, front).Some? ==> Groups(cut, front) != []
    ensures NoneEmpty(Groups(cut, front + [e])) && Matches(FoldRequest(f, e), cut, front + [e])
  {
    if Continues(OpenAttempt(cut, front), e) {
      JoinedMatches(f, cut, front, e);
    } else {
      AddedMatches(f, cut, front, e);
    }
  }

  lemma JoinedMatches(f: Folding, cut: int, front: seq<Event>, e: Event)
    requires NoneEmpty(Groups(cut, front)) && Matches(f, cut, front) && Billable(cut, e)
    requires Groups(cut, front) != [] && Continues(OpenAttempt(cut, front), e)
    ensures NoneEmpty(Groups(cut, front + [e])) && Matches(FoldRequest(f, e), cut, front + [e])
  {
    GroupsOfRequest(cut, front, e);
    JoinedSample(f, Groups(cut, front), e);
  }

  lemma AddedMatches(f: Folding, cut: int, front: seq<Event>, e: Event)
    requires NoneEmpty(Groups(cut, front)) && Matches(f, cut, front) && Billable(cut, e)
    requires !Continues(OpenAttempt(cut, front), e)
    ensures NoneEmpty(Groups(cut, front + [e])) && Matches(FoldRequest(f, e), cut, front + [e])
  {
    GroupsOfRequest(cut, front, e);
    AddedSample(f, Groups(cut, front), e);
  }

  lemma {:induction false} FoldMatches(cut: int, list: seq<Event>)
    ensures NoneEmpty(Groups(cut, list)) && Matches(FoldAll(cut, list), cut, list)
  {
    if list == [] {
      GroupsAreNotEmpty(cut, list);
    } else {
      var front, last := list[..|list| - 1], list[|list| - 1];
      FoldMatches(cut, front);
      GroupsAreNotEmpty(cut, front);
      NextMatches(FoldAll(cut, front), cut, front, last);
      assert front + [last] == list;
    }
  }

  lemma NextMatches(f: Folding, cut: int, front: seq<Event>, e: Event)
    requires NoneEmpty(Groups(cut, front)) && Matches(f, cut, front)
    requires OpenAttempt(cut, front).Some? ==> Groups(cut, front) != []
    ensures NoneEmpty(Groups(cut, front + [e])) && Matches(FoldEvent(cut, f, e), cut, front + [e])
  {
    if Billable(cut, e) {
      RequestMatches(f, cut, front, e);
    } else {
      OtherMatches(f, cut, front, e);
    }
  }

  lemma OtherMatches(f: Folding, cut: int, front: seq<Event>, e: Event)
    requires NoneEmpty(Groups(cut, front)) && Matches(f, cut, front) && !Billable(cut, e)
    ensures Groups(cut, front + [e]) == Groups(cut, front) && Matches(FoldEvent(cut, f, e), cut, front + [e])
  {
    assert (front + [e])[..|front|] == front;
  }

  /** One sample per attempt: its key is its first event's sequence, its facts its last event's with valid usage. */
  lemma SamplesAreAttempts(events: seq<Event>)
    ensures var groups := Groups(InheritedCut(events), InOrder(events));
            NoneEmpty(groups) && Samples(events) == SummarizeAll(groups)
  {
    FoldMatches(InheritedCut(events), InOrder(events));
  }

  lemma {:induction false} SummarizeAt(groups: seq<seq<Billed>>, i: nat)
    requires NoneEmpty(groups) && i < |groups|
    ensures SummarizeAll(groups)[i] == Summarize(groups[i])
  {
    if i < |groups| - 1 {
      SummarizeAt(groups[..|groups| - 1], i);
    }
  }

  /** Nothing at or below the inherited cut is counted. */
  lemma InheritedIsNotCounted(events: seq<Event>, i: nat)
    requires i < |Samples(events)|
    ensures Samples(events)[i].key > InheritedCut(events)
  {
    var cut, list := InheritedCut(events), InOrder(events);
    SamplesAreAttempts(events);
    var groups := Groups(cut, list);
    SummarizeAt(groups, i);
    GroupsPartition(cut, list);
    GroupInConcat(groups, i, 0);
  }

  lemma {:induction false} GroupInConcat<T>(groups: seq<seq<T>>, i: nat, k: nat)
    requires i < |groups| && k < |groups[i]|
    ensures groups[i][k] in Concat(groups)
  {
    if i < |groups| - 1 {
      GroupInConcat(groups[..|groups| - 1], i, k);
    }
  }

  // ---------------------------------------------------------------- order and duplicates

  ghost predicate OneContent(events: seq<Event>) {
    forall a, b :: a in events && b in events && a.seqNo == b.seqNo ==> a == b
  }

  lemma {:induction false} BySeqHolds(events: seq<Event>)
    ensures forall k :: k in BySeq(events) ==> BySeq(events)[k] in events && BySeq(events)[k].seqNo == k
    ensures forall e :: e in events ==> e.seqNo in BySeq(events)
  {
    if events != [] {
      var front, last := events[..|events| - 1], events[|events| - 1];
      BySeqHolds(front);
      assert forall e :: e in events <==> e in front || e == last;
    }
  }

  lemma {:induction false} CutIsMax(events: seq<Event>)
    ensures forall e :: e in events && e.kind.Seed? && e.inherited ==> e.seqNo <= InheritedCut(events)
    ensures InheritedCut(events) == -1 || exists e :: e in events && e.kind.Seed? && e.inherited && e.seqNo == InheritedCut(events)
  {
    if events != [] {
      var front, last := events[..|events| - 1], events[|events| - 1];
      CutIsMax(front);
      assert forall e :: e in events <==> e in front || e == last;
    }
  }

  /** The samples depend only on which events were read: not on page order, and not on how often a page was read. */
  lemma PageOrderDoesNotMatter(a: seq<Event>, b: seq<Event>)
    requires OneContent(a) && forall e :: e in a <==> e in b
    ensures Samples(a) == Samples(b)
  {
    BySeqHolds(a);
    BySeqHolds(b);
    assert BySeq(a).Keys == BySeq(b).Keys;
    assert forall k :: k in BySeq(a) ==> BySeq(a)[k] == BySeq(b)[k];
    assert BySeq(a) == BySeq(b);
    CutIsMax(a);
    CutIsMax(b);
  }
}
