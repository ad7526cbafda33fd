/** What a sample says and which requests share one (src/cost/records.ts:43-75), said of the events themselves. */
module CostFacts {
  import opened Collections
  import opened CostRecords
  import opened KeyOrder

  // ---------------------------------------------------------------- usage

  /** A count the program trusts: a whole number that a double holds exactly. */
  predicate Trusted(b: Bucket) {
    b.Count? && 0 <= b.n <= MaxSafe
  }

  function CountOf(b: Bucket): int {
    if b.Count? then b.n else 0
  }

  /** A report counts exactly when input and output are trusted, the cache counts are trusted or absent, and a total, when
    * one is stated, is trusted and the sum of the parts; absent cache counts are zero. */
  lemma ValidExactlyWhen(u: RawUsage)
    ensures ValidUsage(u).Some?
            <==> && Trusted(u.input) && Trusted(u.output)
                 && (u.cacheRead.Missing? || Trusted(u.cacheRead)) && (u.cacheWrite.Missing? || Trusted(u.cacheWrite))
                 && (u.total.Missing?
                     || (Trusted(u.total)
                         && u.total.n == CountOf(u.input) + CountOf(u.output) + CountOf(u.cacheRead) + CountOf(u.cacheWrite)))
    ensures ValidUsage(u).Some? ==>
              var v := ValidUsage(u).value;
              && v.input == CountOf(u.input) && v.output == CountOf(u.output)
              && v.cacheRead == CountOf(u.cacheRead) && v.cacheWrite == CountOf(u.cacheWrite)
  {
  }

  // ---------------------------------------------------------------- routes

  /** The route context in force behind these events: that of the last context event. */
  lemma {:induction false} RouteIsLast(list: seq<Event>, i: nat)
    requires i < |list| && list[i].kind.Route? && forall k :: i < k < |list| ==> !list[k].kind.Route?
    ensures RouteAfter(list) == Context(list[i].provider, list[i].model)
  {
    if i < |list| - 1 {
      RouteIsLast(list[..|list| - 1], i);
    }
  }

  lemma {:induction false} NoRoute(list: seq<Event>)
    requires forall k :: 0 <= k < |list| ==> !list[k].kind.Route?
    ensures RouteAfter(list) == Context(None, None)
  {
    if list != [] {
      NoRoute(list[..|list| - 1]);
    }
  }

  // ---------------------------------------------------------------- attempts

  /** The next request belongs to the attempt of the last one before it: both say the same turn and step, and no retry of
    * that turn and step came in between. */
  predicate Joins(cut: int, front: seq<Event>, e: Event) {
    && e.turn.Some? && e.step.Some?
    && exists i :: 0 <= i < |front| && Billable(cut, front[i]) && (front[i].turn, front[i].step) == (e.turn, e.step)
                   && forall k :: i < k < |front| ==> !Billable(cut, front[k]) && !Reopens(cut, front[k], e)
  }

  predicate Reopens(cut: int, r: Event, e: Event) {
    r.kind.Retry? && r.seqNo > cut && (r.turn, r.step) == (e.turn, e.step)
  }

  predicate JoinsAt(cut: int, front: seq<Event>, e: Event, i: int) {
    && 0 <= i < |front| && Billable(cut, front[i]) && AttemptOf(front[i]) == AttemptOf(e)
    && forall k :: i < k < |front| ==> !Billable(cut, front[k]) && !Reopens(cut, front[k], e)
  }

  lemma JoinsAtSnoc(cut: int, front: seq<Event>, last: Event, e: Event, i: int)
    ensures JoinsAt(cut, front + [last], e, i)
            <==> if i == |front| then Billable(cut, last) && AttemptOf(last) == AttemptOf(e)
                 else JoinsAt(cut, front, e, i) && !Billable(cut, last) && !Reopens(cut, last, e)
  {
    var all := front + [last];
    assert all[|front|] == last && forall k :: 0 <= k < |front| ==> all[k] == front[k];
    if 0 <= i < |front| && JoinsAt(cut, all, e, i) {
      assert !Billable(cut, all[|front|]) && !Reopens(cut, all[|front|], e);
      forall k | i < k < |front|
        ensures !Billable(cut, front[k]) && !Reopens(cut, front[k], e)
      {
        assert !Billable(cut, all[k]) && !Reopens(cut, all[k], e);
      }
    }
  }

  lemma {:induction false} OpenMeans(cut: int, front: seq<Event>, e: Event)
    ensures OpenAttempt(cut, front) == Some(AttemptOf(e)) <==> exists i :: JoinsAt(cut, front, e, i)
    ensures OpenAttempt(cut, front).Some? ==> Groups(cut, front) != []
  {
    GroupsAreNotEmpty(cut, front);
    if front != [] {
      var before, last := front[..|front| - 1], front[|front| - 1];
      assert front == before + [last];
      OpenMeans(cut, before, e);
      forall i
        ensures JoinsAt(cut, front, e, i)
                <==> if i == |before| then Billable(cut, last) && AttemptOf(last) == AttemptOf(e)
                     else JoinsAt(cut, before, e, i) && !Billable(cut, last) && !Reopens(cut, last, e)
      {
        JoinsAtSnoc(cut, before, last, e, i);
      }
      if Billable(cut, last) {
        assert JoinsAt(cut, front, e, |before|) <==> AttemptOf(last) == AttemptOf(e);
      } else if i :| JoinsAt(cut, before, e, i) {
        assert JoinsAt(cut, front, e, i) <==> !Reopens(cut, last, e);
      }
    }
  }

  lemma JoinsIsAt(cut: int, front: seq<Event>, e: Event)
    ensures Joins(cut, front, e) <==> e.turn.Some? && e.step.Some? && exists i :: JoinsAt(cut, front, e, i)
  {
    if Joins(cut, front, e) {
      var i :| 0 <= i < |front| && Billable(cut, front[i]) && (front[i].turn, front[i].step) == (e.turn, e.step)
               && forall k :: i < k < |front| ==> !Billable(cut, front[k]) && !Reopens(cut, front[k], e);
      assert JoinsAt(cut, front, e, i);
    }
  }

  /** Each request joins the attempt before it exactly then, and begins one of its own otherwise; it is billed on the route
    * in force before it. Any other event leaves the attempts as they are. */
  lemma NextEventGroups(cut: int, front: seq<Event>, e: Event)
    ensures var groups, after, b := Groups(cut, front), Groups(cut, front + [e]), Billed(e, RouteAfter(front));
            if !Billable(cut, e) then after == groups
            else if Joins(cut, front, e) then groups != [] && after == groups[..|groups| - 1] + [groups[|groups| - 1] + [b]]
            else after == groups + [[b]]
  {
    assert (front + [e])[..|front|] == front;
    OpenMeans(cut, front, e);
    JoinsIsAt(cut, front, e);
  }

  // ---------------------------------------------------------------- what a sample says

  /** Each sample has its attempt's first sequence, and of its chosen event the valid time, the valid usage, and the event's
    * own provider and model before those of the route it was billed on. */
  lemma SampleSays(events: seq<Event>, i: nat)
    requires i < |Samples(events)|
    ensures var groups := Groups(InheritedCut(events), InOrder(events));
            && i < |groups| && groups[i] != []
            && var s, b := Samples(events)[i], Chosen(groups[i]);
               && s.key == groups[i][0].event.seqNo
               && s.time == (if b.event.time.Some? && 0 <= b.event.time.value <= 8_640_000_000_000_000 then b.event.time else None)
               && s.usage == ValidUsage(b.event.usage)
               && (b.event.sourceProvider.Some? ==> s.provider == b.event.sourceProvider.value)
               && (b.event.sourceProvider.None? && b.route.provider.Some? ==> s.provider == b.route.provider.value)
               && (b.event.sourceProvider.None? && b.route.provider.None? ==> s.provider == "")
               && (b.event.sourceModel.Some? ==> s.model == b.event.sourceModel.value)
               && (b.event.sourceModel.None? && b.route.model.Some? ==> s.model == b.route.model.value)
               && (b.event.sourceModel.None? && b.route.model.None? ==> s.model == "")
  {
    SamplesAreAttempts(events);
    var groups := Groups(InheritedCut(events), InOrder(events));
    GroupsAreNotEmpty(InheritedCut(events), InOrder(events));
    SummarizeAt(groups, i);
  }

  // ---------------------------------------------------------------- which events are folded

  /** No later event has this one's sequence. */
  predicate IsLast(events: seq<Event>, i: int) {
    0 <= i < |events| && forall j :: i < j < |events| ==> events[j].seqNo != events[i].seqNo
  }

  lemma {:induction false} BySeqIsLast(events: seq<Event>, i: int)
    ensures IsLast(events, i) ==> events[i].seqNo in BySeq(events) && BySeq(events)[events[i].seqNo] == events[i]
  {
    if IsLast(events, i) && i < |events| - 1 {
      var front := events[..|events| - 1];
      assert IsLast(front, i);
      BySeqIsLast(front, i);
    }
  }

  lemma {:induction false} LastOf(events: seq<Event>, k: nat) returns (i: int)
    requires k in BySeq(events)
    ensures IsLast(events, i) && events[i].seqNo == k
  {
    var n := |events| - 1;
    if events[n].seqNo == k {
      i := n;
    } else {
      i := LastOf(events[..n], k);
    }
  }

  lemma {:induction false} ListedAll(events: map<nat, Event>, keys: seq<nat>)
    requires forall k :: k in keys ==> k in events
    ensures |Listed(events, keys)| == |keys|
    ensures forall i :: 0 <= i < |keys| ==> Listed(events, keys)[i] == events[keys[i]]
  {
    if keys != [] {
      ListedAll(events, keys[..|keys| - 1]);
    }
  }

  lemma FoldedKeys(events: seq<Event>, keys: seq<nat>)
    requires keys == Ascending(BySeq(events).Keys)
    ensures |InOrder(events)| == |keys| && IsAscending(keys) && forall k :: k in keys <==> k in BySeq(events)
    ensures forall i :: 0 <= i < |keys| ==> keys[i] in BySeq(events) && InOrder(events)[i] == BySeq(events)[keys[i]]
  {
    AscendingLists(BySeq(events).Keys);
    ListedAll(BySeq(events), keys);
  }

  /** The events folded are in ascending sequence. */
  lemma FoldedInSequence(events: seq<Event>)
    ensures forall i, j :: 0 <= i < j < |InOrder(events)| ==> InOrder(events)[i].seqNo < InOrder(events)[j].seqNo
  {
    FoldedKeys(events, Ascending(BySeq(events).Keys));
    BySeqHolds(events);
  }

  /** They are exactly those that nothing of their sequence follows. */
  lemma FoldedAreTheLast(events: seq<Event>, e: Event)
    ensures e in InOrder(events) <==> exists i :: IsLast(events, i) && events[i] == e
  {
    var keys := Ascending(BySeq(events).Keys);
    FoldedKeys(events, keys);
    if e in InOrder(events) {
      var k :| 0 <= k < |keys| && InOrder(events)[k] == e;
      var i := LastOf(events, keys[k]);
      BySeqIsLast(events, i);
    }
    if i :| IsLast(events, i) && events[i] == e {
      BySeqIsLast(events, i);
      var k :| 0 <= k < |keys| && keys[k] == e.seqNo;
      assert InOrder(events)[k] == e;
    }
  }
}
