/** What a slice's numbers count (src/cost/ledger.ts:76-106), said of its decided requests one by one. */
module CostTallies {
  import opened Collections
  import opened Pricing
  import opened CostLedger
  import CostRecords
  import CostPeriods
  import opened DayNames

  function Chosen(items: seq<Item>, p: Item -> bool): seq<Item> {
    if items == [] then []
    else
      var front, last := Chosen(items[..|items| - 1], p), items[|items| - 1];
      if p(last) then front + [last] else front
  }

  /** The sum of the amounts there are. */
  function Amounts(items: seq<Item>): real {
    if items == [] then 0.0
    else
      var last := items[|items| - 1].decision;
      Amounts(items[..|items| - 1]) + if last.Amount? then last.amount else 0.0
  }

  /** How many have none. */
  function Unknown(items: seq<Item>): nat {
    if items == [] then 0
    else Unknown(items[..|items| - 1]) + if items[|items| - 1].decision.Unpriced? then 1 else 0
  }

  lemma ChosenSnoc(items: seq<Item>, last: Item, p: Item -> bool)
    ensures Chosen(items + [last], p) == if p(last) then Chosen(items, p) + [last] else Chosen(items, p)
  {
    assert (items + [last])[..|items|] == items;
  }

  lemma SumsSnoc(items: seq<Item>, last: Item)
    ensures Amounts(items + [last]) == Amounts(items) + if last.decision.Amount? then last.decision.amount else 0.0
    ensures Unknown(items + [last]) == Unknown(items) + if last.decision.Unpriced? then 1 else 0
  {
    assert (items + [last])[..|items|] == items;
  }

  predicate Counts(t: Tally, items: seq<Item>) {
    t.amount == Amounts(items) && t.unknown == Unknown(items) && t.records == |items|
  }

  lemma CountsSnoc(t: Tally, items: seq<Item>, last: Item)
    requires Counts(t, items)
    ensures Counts(Plus(t, One(last.decision)), items + [last])
  {
    SumsSnoc(items, last);
  }

  lemma WhereSnoc(items: seq<Item>, last: Item, p: Item -> bool)
    ensures TallyWhere(items + [last], p)
            == if p(last) then Plus(TallyWhere(items, p), One(last.decision)) else TallyWhere(items, p)
  {
    assert (items + [last])[..|items|] == items;
  }

  /** A tally holds the sum of the amounts, the requests without one, and all requests. */
  lemma {:induction false} TallyCounts(items: seq<Item>, p: Item -> bool)
    ensures Counts(TallyWhere(items, p), Chosen(items, p))
  {
    if items != [] {
      var front, last := items[..|items| - 1], items[|items| - 1];
      assert items == front + [last];
      TallyCounts(front, p);
      ChosenSnoc(front, last, p);
      WhereSnoc(front, last, p);
      CountsSnoc(TallyWhere(front, p), Chosen(front, p), last);
    }
  }

  /** So a session's total is the sum of all its requests, and says how many have no amount. */
  lemma TotalCounts(items: seq<Item>, floor: string)
    ensures Counts(FoldItems(items, floor).total, items)
  {
    TotalIsEverything(items, floor);
    TallyCounts(items, Any());
    AllChosen(items);
  }

  lemma {:induction false} AllChosen(items: seq<Item>)
    ensures Chosen(items, Any()) == items
  {
    if items != [] {
      AllChosen(items[..|items| - 1]);
    }
  }

  // ---------------------------------------------------------------- reasons

  predicate Without(items: seq<Item>, reason: string) {
    exists i :: 0 <= i < |items| && items[i].decision.Unpriced? && items[i].reason == reason
  }

  lemma WithoutSnoc(items: seq<Item>, last: Item, reason: string)
    ensures Without(items + [last], reason)
            <==> Without(items, reason) || (last.decision.Unpriced? && last.reason == reason)
  {
    var all := items + [last];
    assert all[|items|] == last && forall i :: 0 <= i < |items| ==> all[i] == items[i];
    if i :| 0 <= i < |items| && items[i].decision.Unpriced? && items[i].reason == reason {
      assert all[i] == items[i];
    }
  }

  ghost predicate ListsReasons(kept: seq<string>, items: seq<Item>) {
    && |kept| <= 8 && (forall i, j :: 0 <= i < j < |kept| ==> kept[i] != kept[j])
    && (forall r :: r in kept ==> Without(items, r))
    && (|kept| < 8 ==> forall r :: Without(items, r) ==> r in kept)
  }

  function Keep(kept: seq<string>, i: Item): seq<string> {
    if i.decision.Unpriced? && |kept| < UnpricedLimit && i.reason !in kept then kept + [i.reason] else kept
  }

  lemma KeepLists(kept: seq<string>, items: seq<Item>, last: Item)
    requires ListsReasons(kept, items)
    ensures ListsReasons(Keep(kept, last), items + [last])
  {
    forall r
      ensures Without(items + [last], r) <==> Without(items, r) || (last.decision.Unpriced? && last.reason == r)
    {
      WithoutSnoc(items, last, r);
    }
  }

  lemma AddItemKeeps(f: Folded, floor: string, i: Item)
    ensures AddItem(f, floor, i).unpriced == Keep(f.unpriced, i)
  {
  }

  lemma FoldSnoc(items: seq<Item>, last: Item, floor: string)
    ensures FoldItems(items + [last], floor) == AddItem(FoldItems(items, floor), floor, last)
  {
    assert (items + [last])[..|items|] == items;
  }

  /** A slice keeps the reasons of its requests without an amount, each once, at most eight, and all of them when there are
    * fewer. */
  lemma {:induction false} ReasonsAreListed(items: seq<Item>, floor: string)
    ensures ListsReasons(FoldItems(items, floor).unpriced, items)
  {
    if items != [] {
      var front, last := items[..|items| - 1], items[|items| - 1];
      assert items == front + [last];
      ReasonsAreListed(front, floor);
      FoldSnoc(front, last, floor);
      AddItemKeeps(FoldItems(front, floor), floor, last);
      KeepLists(FoldItems(front, floor).unpriced, front, last);
    }
  }

  /** The first ones are kept: a reason, once listed, stays where it is. */
  lemma ReasonsStay(items: seq<Item>, last: Item, floor: string)
    ensures FoldItems(items, floor).unpriced <= FoldItems(items + [last], floor).unpriced
  {
    assert (items + [last])[..|items|] == items;
  }

  // ---------------------------------------------------------------- a session's total

  /** The item is the decision on the sample, and says why when it has no amount. */
  predicate Decides(t: Table, s: CostRecords.Sample, item: Item) {
    && item.decision == ChargeFor(t, s.provider, s.model, s.time, s.usage)
    && (item.decision.Unpriced? ==> item.reason == s.provider + "/" + s.model + ": " + item.decision.reason)
  }

  ghost predicate DecidesAll(t: Table, samples: seq<CostRecords.Sample>, items: seq<Item>) {
    |items| == |samples| && forall i :: 0 <= i < |items| ==> Decides(t, samples[i], items[i])
  }

  lemma ItemDecides(t: Table, s: CostRecords.Sample, day: string)
    ensures Decides(t, s, ItemOf(t, s, day))
  {
  }

  lemma DecidesSnoc(t: Table, samples: seq<CostRecords.Sample>, items: seq<Item>, s: CostRecords.Sample, item: Item)
    requires DecidesAll(t, samples, items) && Decides(t, s, item)
    ensures DecidesAll(t, samples + [s], items + [item])
  {
  }

  lemma ItemsStep(t: Table, front: seq<CostRecords.Sample>, last: CostRecords.Sample, scanDay: string)
    requires Items(t, front + [last], scanDay).Some?
    ensures Items(t, front, scanDay).Some? && DayOfSample(last, scanDay).Some?
    ensures Items(t, front + [last], scanDay).value
         == Items(t, front, scanDay).value + [ItemOf(t, last, DayOfSample(last, scanDay).value)]
  {
    assert (front + [last])[..|front|] == front;
  }

  lemma {:induction false} ItemsDecide(t: Table, samples: seq<CostRecords.Sample>, scanDay: string)
    requires Items(t, samples, scanDay).Some?
    ensures DecidesAll(t, samples, Items(t, samples, scanDay).value)
  {
    if samples != [] {
      var front, last := samples[..|samples| - 1], samples[|samples| - 1];
      assert samples == front + [last];
      ItemsStep(t, front, last, scanDay);
      ItemsDecide(t, front, scanDay);
      var day := DayOfSample(last, scanDay).value;
      ItemDecides(t, last, day);
      DecidesSnoc(t, front, Items(t, front, scanDay).value, last, ItemOf(t, last, day));
    }
  }

  /** The total of a session counts every sample of its scan, in the window or not: the amounts of those that have one, how
    * many have none, and how many there are. */
  lemma SessionTotalIsSamples(sessions: map<string, Slice>, scans: map<string, CostPeriods.Scan>, id: string)
    returns (items: seq<Item>)
    requires CostPeriods.BuiltFrom(sessions, scans) && id in scans
    ensures DecidesAll(scans[id].table, scans[id].samples, items) && Counts(Fresh(sessions, OfSession(id)), items)
  {
    var scan := scans[id];
    assert CostPeriods.FromScan(sessions[id], scan);
    var day := CostDay(scan.now).value;
    items := Items(scan.table, scan.samples, day).value;
    ItemsDecide(scan.table, scan.samples, day);
    TotalCounts(items, WindowStart(scan.now).value);
  }

  /** A read remembers a total; one that is remembered stays what it was. */
  lemma ReadRemembers(l: Ledger, key: Key, other: Key)
    ensures var n := Read(l, key);
            && n.sessions == l.sessions && n.provisional == l.provisional && key in n.totals
            && n.totals[key] == (if key in l.totals then l.totals[key] else Fresh(l.sessions, key))
            && (other in l.totals ==> other in n.totals && n.totals[other] == l.totals[other])
            && (other in n.totals ==> other in l.totals || other == key)
  {
  }

  // ---------------------------------------------------------------- provisional sessions

  /** The session was created here, where none was in place. */
  ghost predicate CreatedAt(events: seq<Event>, i: int, id: string) {
    0 <= i < |events| && events[i] == Seed(id) && id !in Run(events[..i]).ledger.sessions
  }

  /** A scan of the session was committed, or a load began. */
  predicate Settles(e: Event, id: string) {
    e.LoadBegins? || (e.Commit? && e.id == id)
  }

  ghost predicate ProvisionalSince(events: seq<Event>, i: int, id: string) {
    CreatedAt(events, i, id) && forall k :: i <= k < |events| ==> !Settles(events[k], id)
  }

  /** A session shows as provisional exactly when it was created and neither scanned since nor everything loaded again. */
  lemma {:induction false} ProvisionalExactlyWhen(events: seq<Event>, id: string)
    ensures id in Run(events).ledger.provisional <==> exists i :: ProvisionalSince(events, i, id)
  {
    if events != [] {
      var front, n := events[..|events| - 1], |events| - 1;
      ProvisionalExactlyWhen(front, id);
      if i :| ProvisionalSince(events, i, id) {
        assert events[..i] == front[..i] || i == n;
        assert i < n ==> ProvisionalSince(front, i, id);
        assert !Settles(events[n], id);
      }
      if i :| ProvisionalSince(front, i, id) {
        assert events[..i] == front[..i];
        assert !Settles(events[n], id) ==> ProvisionalSince(events, i, id);
      }
      if CreatedAt(events, n, id) {
        assert ProvisionalSince(events, n, id);
      }
    }
  }
}
