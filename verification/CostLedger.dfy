/** Per-session cost slices with day buckets and memoised totals (src/cost/ledger.ts). */
module CostLedger {
  import opened Collections
  import opened Calendar
  import opened DayNames
  import opened CostRecords
  import opened Pricing

  /** Requests, those without an amount, and the amount of the others. */
  datatype Tally = Tally(amount: real, unknown: nat, records: nat)

  const Zero := Tally(0.0, 0, 0)

  function Plus(a: Tally, b: Tally): Tally {
    Tally(a.amount + b.amount, a.unknown + b.unknown, a.records + b.records)
  }

  /** One request as a tally of its own. */
  function One(d: Decision): Tally {
    if d.Amount? then Tally(d.amount, 0, 1) else Tally(0.0, 1, 1)
  }

  datatype DayTotal = DayTotal(day: string, tally: Tally)

  datatype Slice = Slice(cut: int, total: Tally, days: seq<DayTotal>, unpriced: seq<string>)

  /** A decided request: the day it is attributed to, its decision, and how it is described when it has no amount. */
  datatype Item = Item(day: string, decision: Decision, reason: string)

  const UnpricedLimit := 8

  // ---------------------------------------------------------------- folding a slice

  datatype Folded = Folded(total: Tally, days: map<string, Tally>, unpriced: seq<string>)

  function Bucket(days: map<string, Tally>, day: string): Tally {
    if day in days then days[day] else Zero
  }

  function AddItem(f: Folded, floor: string, i: Item): Folded {
    var one := One(i.decision);
    Folded(Plus(f.total, one),
           if Less(i.day, floor) then f.days else f.days[i.day := Plus(Bucket(f.days, i.day), one)],
           if i.decision.Unpriced? && |f.unpriced| < UnpricedLimit && i.reason !in f.unpriced then f.unpriced + [i.reason]
           else f.unpriced)
  }

  function FoldItems(items: seq<Item>, floor: string): Folded {
    if items == [] then Folded(Zero, map[], []) else AddItem(FoldItems(items[..|items| - 1], floor), floor, items[|items| - 1])
  }

  /** The tally of the items that satisfy a condition. */
  function TallyWhere(items: seq<Item>, p: Item -> bool): Tally {
    if items == [] then Zero
    else
      var front, last := TallyWhere(items[..|items| - 1], p), items[|items| - 1];
      if p(last) then Plus(front, One(last.decision)) else front
  }

  ghost function Pick(keys: set<string>): (k: string)
    requires keys != {}
    ensures k in keys
  {
    var k :| k in keys;
    k
  }

  /** The sum over some days of a map. */
  ghost function SumDays(days: map<string, Tally>, keys: set<string>): Tally {
    if keys == {} then Zero else Plus(SumDays(days, keys - {Pick(keys)}), Bucket(days, Pick(keys)))
  }

  /** It does not depend on the order of the days. */
  lemma {:induction false} SumDaysRemoves(days: map<string, Tally>, keys: set<string>, k: string)
    requires k in keys
    ensures SumDays(days, keys) == Plus(SumDays(days, keys - {k}), Bucket(days, k))
    decreases |keys|
  {
    var first := Pick(keys);
    if first != k {
      var rest := keys - {first} - {k};
      assert rest == keys - {k} - {first};
      SumDaysRemoves(days, keys - {first}, k);
      SumDaysRemoves(days, keys - {k}, first);
      PlusSwaps(SumDays(days, rest), Bucket(days, k), Bucket(days, first));
    }
  }

  lemma PlusSwaps(a: Tally, b: Tally, c: Tally)
    ensures Plus(Plus(a, b), c) == Plus(Plus(a, c), b)
  {
  }

  lemma {:induction false} SumDaysAgrees(days: map<string, Tally>, other: map<string, Tally>, keys: set<string>)
    requires forall k :: k in keys ==> Bucket(days, k) == Bucket(other, k)
    ensures SumDays(days, keys) == SumDays(other, keys)
    decreases |keys|
  {
    if keys != {} {
      SumDaysAgrees(days, other, keys - {Pick(keys)});
    }
  }

  ghost function SumAll(days: map<string, Tally>): Tally {
    SumDays(days, days.Keys)
  }

  lemma SumAllSplits(days: map<string, Tally>, day: string)
    ensures SumAll(days) == Plus(SumDays(days, days.Keys - {day}), Bucket(days, day))
  {
    if day in days {
      SumDaysRemoves(days, days.Keys, day);
    } else {
      assert days.Keys - {day} == days.Keys;
      PlusZero(SumAll(days));
    }
  }

  lemma SumDaysGrows(days: map<string, Tally>, day: string, one: Tally)
    ensures SumAll(days[day := Plus(Bucket(days, day), one)]) == Plus(SumAll(days), one)
  {
    var grown := days[day := Plus(Bucket(days, day), one)];
    var rest := days.Keys - {day};
    assert grown.Keys - {day} == rest;
    SumAllSplits(grown, day);
    SumAllSplits(days, day);
    SumDaysAgrees(grown, days, rest);
    PlusAssociates(SumDays(days, rest), Bucket(days, day), one);
  }

  function BeforeWindow(floor: string): Item -> bool {
    (i: Item) => Less(i.day, floor)
  }

  function OnDay(day: string): Item -> bool {
    (i: Item) => i.day == day
  }

  function Any(): Item -> bool {
    (i: Item) => true
  }

  lemma {:induction false} TotalIsEverything(items: seq<Item>, floor: string)
    ensures var total := FoldItems(items, floor).total; total == TallyWhere(items, Any()) && total.records == |items|
  {
    if items != [] {
      TotalIsEverything(items[..|items| - 1], floor);
    }
  }

  lemma PlusZero(t: Tally)
    ensures Plus(t, Zero) == t && Plus(Zero, t) == t
  {
  }

  lemma NothingConserves(floor: string)
    ensures var f := FoldItems([], floor);
            f.total == Plus(SumAll(f.days), TallyWhere([], BeforeWindow(floor)))
  {
    var none: map<string, Tally> := map[];
    assert none.Keys == {} && SumDays(none, {}) == Zero;
    PlusZero(SumAll(none));
  }

  lemma AddItemConserves(f: Folded, before: Tally, floor: string, i: Item)
    requires f.total == Plus(SumAll(f.days), before)
    ensures var n := AddItem(f, floor, i);
            n.total == Plus(SumAll(n.days), if Less(i.day, floor) then Plus(before, One(i.decision)) else before)
  {
    var sum, one := SumAll(f.days), One(i.decision);
    SumDaysGrows(f.days, i.day, one);
    PlusSwaps(sum, before, one);
    PlusAssociates(sum, before, one);
  }

  /** Conservation: a slice's total is the sum of its day buckets and of the requests before the window. */
  lemma {:induction false} SliceConserves(items: seq<Item>, floor: string)
    ensures var f := FoldItems(items, floor);
            f.total == Plus(SumAll(f.days), TallyWhere(items, BeforeWindow(floor)))
  {
    if items == [] {
      NothingConserves(floor);
    } else {
      var front, last := items[..|items| - 1], items[|items| - 1];
      SliceConserves(front, floor);
      AddItemConserves(FoldItems(front, floor), TallyWhere(front, BeforeWindow(floor)), floor, last);
    }
  }

  lemma PlusAssociates(a: Tally, b: Tally, c: Tally)
    ensures Plus(Plus(a, b), c) == Plus(a, Plus(b, c))
  {
  }

  predicate HasDay(items: seq<Item>, day: string) {
    exists i :: i in items && i.day == day
  }

  lemma HasDaySnoc(front: seq<Item>, last: Item, day: string)
    ensures HasDay(front + [last], day) <==> HasDay(front, day) || last.day == day
  {
    assert last in front + [last];
    assert forall i :: i in front + [last] <==> i in front || i == last;
  }

  /** Each bucket tallies exactly the requests of its day, and no day before the window has one. */
  lemma {:induction false} BucketsAreTallies(items: seq<Item>, floor: string, day: string)
    ensures var days := FoldItems(items, floor).days;
            && (day in days <==> !Less(day, floor) && HasDay(items, day))
            && (!Less(day, floor) ==> Bucket(days, day) == TallyWhere(items, OnDay(day)))
  {
    if items != [] {
      var front, last := items[..|items| - 1], items[|items| - 1];
      BucketsAreTallies(front, floor, day);
      assert front + [last] == items;
      HasDaySnoc(front, last, day);
    }
  }

  // ---------------------------------------------------------------- the stored day list

  lemma {:induction false} GreatestExists(keys: set<string>)
    requires keys != {}
    ensures exists g :: g in keys && forall k :: k in keys && k != g ==> Less(k, g)
    decreases |keys|
  {
    var k := Pick(keys);
    var rest := keys - {k};
    if rest == {} {
      assert keys == {k} + rest;
    } else {
      GreatestExists(rest);
      var g :| g in rest && forall x :: x in rest && x != g ==> Less(x, g);
      LessIsTotal(k, g);
      var top := if Less(g, k) then k else g;
      forall x | x in keys && x != top
        ensures Less(x, top)
      {
        if x != k && top == k && x != g {
          LessIsTransitive(x, g, k);
        }
      }
      assert top in keys;
    }
  }

  predicate Ordered(days: seq<DayTotal>) {
    forall i, j :: 0 <= i < j < |days| ==> Less(days[i].day, days[j].day)
  }

  /** The sum over a day list. */
  function SumList(days: seq<DayTotal>): Tally {
    if days == [] then Zero else Plus(SumList(days[..|days| - 1]), days[|days| - 1].tally)
  }

  predicate Lists(days: map<string, Tally>, sorted: seq<DayTotal>) {
    && (forall d :: d in sorted ==> d.day in days && days[d.day] == d.tally)
    && (forall k :: k in days ==> DayTotal(k, days[k]) in sorted)
  }

  /** While sorting: the listed days are in order and later than all that are left, and nothing is lost. */
  ghost predicate Sorting(days: map<string, Tally>, left: map<string, Tally>, sorted: seq<DayTotal>) {
    && (forall k :: k in left ==> k in days && left[k] == days[k])
    && Ordered(sorted)
    && (forall i, k :: 0 <= i < |sorted| && k in left ==> Less(k, sorted[i].day))
    && (forall d :: d in sorted ==> d.day in days && days[d.day] == d.tally)
    && (forall k :: k in days && k !in left ==> DayTotal(k, days[k]) in sorted)
  }

  lemma SortingStep(days: map<string, Tally>, left: map<string, Tally>, sorted: seq<DayTotal>, g: string)
    requires Sorting(days, left, sorted) && g in left && forall k :: k in left && k != g ==> Less(k, g)
    ensures Sorting(days, left - {g}, [DayTotal(g, left[g])] + sorted)
  {
    var first := DayTotal(g, left[g]);
    FrontIsOrdered(first, sorted, left - {g});
    assert forall d :: d in [first] + sorted <==> d == first || d in sorted;
  }

  lemma FrontIsOrdered(first: DayTotal, sorted: seq<DayTotal>, left: map<string, Tally>)
    requires Ordered(sorted) && forall i :: 0 <= i < |sorted| ==> Less(first.day, sorted[i].day)
    requires forall k :: k in left ==> Less(k, first.day)
    requires forall i, k :: 0 <= i < |sorted| && k in left ==> Less(k, sorted[i].day)
    ensures Ordered([first] + sorted)
    ensures forall i, k :: 0 <= i < |[first] + sorted| && k in left ==> Less(k, ([first] + sorted)[i].day)
  {
    var next := [first] + sorted;
    forall i | 0 < i < |next|
      ensures next[i] == sorted[i - 1]
    {
    }
  }

  /** The buckets in day order, as a library sort by name produces them. */
  method SortDays(days: map<string, Tally>) returns (sorted: seq<DayTotal>)
    ensures Ordered(sorted) && Lists(days, sorted) && SumList(sorted) == SumAll(days)
  {
    sorted := [];
    var left := days;
    PlusZero(SumAll(days));
    while left.Keys != {}
      invariant Sorting(days, left, sorted) && SumAll(days) == Plus(SumAll(left), SumList(sorted))
      decreases |left|
    {
      var g := Greatest(left.Keys);
      MovedToFront(left, g, sorted);
      SortingStep(days, left, sorted, g);
      sorted := [DayTotal(g, left[g])] + sorted;
      left := left - {g};
    }
    NothingLeft(left, SumList(sorted));
  }

  method Greatest(keys: set<string>) returns (g: string)
    requires keys != {}
    ensures g in keys && forall k :: k in keys && k != g ==> Less(k, g)
  {
    GreatestExists(keys);
    g :| g in keys && forall k :: k in keys && k != g ==> Less(k, g);
  }

  lemma NothingLeft(left: map<string, Tally>, t: Tally)
    requires left.Keys == {}
    ensures Plus(SumAll(left), t) == t
  {
    assert SumDays(left, {}) == Zero;
    PlusZero(t);
  }

  lemma {:induction false} SumListFront(first: DayTotal, days: seq<DayTotal>)
    ensures SumList([first] + days) == Plus(first.tally, SumList(days))
  {
    if days == [] {
      assert [first] + days == [first] && [first][..0] == [];
      PlusZero(first.tally);
    } else {
      var front := days[..|days| - 1];
      assert ([first] + days)[..|days|] == [first] + front;
      SumListFront(first, front);
      PlusAssociates(first.tally, SumList(front), days[|days| - 1].tally);
    }
  }

  lemma MovedToFront(left: map<string, Tally>, g: string, sorted: seq<DayTotal>)
    requires g in left
    ensures Plus(SumAll(left), SumList(sorted)) == Plus(SumAll(left - {g}), SumList([DayTotal(g, left[g])] + sorted))
    ensures |left - {g}| < |left|
  {
    SumAllSplits(left, g);
    assert (left - {g}).Keys == left.Keys - {g};
    SumDaysAgrees(left, left - {g}, left.Keys - {g});
    SumListFront(DayTotal(g, left[g]), sorted);
    PlusAssociates(SumAll(left - {g}), left[g], SumList(sorted));
  }

  // ---------------------------------------------------------------- periods

  /** A day name inside a range of names, both ends included. */
  predicate Within(day: string, from: string, to: string) {
    !Less(day, from) && !Less(to, day)
  }

  /** What one slice reports for a range of names. */
  function PeriodIn(days: seq<DayTotal>, from: string, to: string): Tally {
    if days == [] then Zero
    else
      var front, last := PeriodIn(days[..|days| - 1], from, to), days[|days| - 1];
      if Within(last.day, from, to) then Plus(front, last.tally) else front
  }

  /** Every stored name is that of a plain date. */
  predicate AllPlain(days: seq<DayTotal>) {
    forall i :: 0 <= i < |days| ==> IsPlainName(days[i].day)
  }

  predicate IsPlainName(name: string) {
    IsDayName(name) && Plain(ReadName(name)) && NameOf(ReadName(name)) == name
  }

  function DayOf(d: DayTotal): int
    requires IsDayName(d.day)
  {
    NumberOf(ReadName(d.day))
  }

  /** The tally of the stored days whose number lies in a range. */
  ghost function TallyOfDays(days: seq<DayTotal>, from: int, to: int): Tally
    requires AllPlain(days)
  {
    if days == [] then Zero
    else
      var front, last := TallyOfDays(days[..|days| - 1], from, to), days[|days| - 1];
      if from <= DayOf(last) <= to then Plus(front, last.tally) else front
  }

  /** A range of names is a range of days: a period sums exactly the stored days that lie in it. */
  lemma {:induction false} PeriodIsChronological(days: seq<DayTotal>, from: Date, to: Date)
    requires AllPlain(days) && Plain(from) && Plain(to)
    ensures PeriodIn(days, NameOf(from), NameOf(to)) == TallyOfDays(days, NumberOf(from), NumberOf(to))
  {
    if days != [] {
      PeriodIsChronological(days[..|days| - 1], from, to);
      var d := ReadName(days[|days| - 1].day);
      NamesAreChronological(d, from);
      NamesAreChronological(to, d);
    }
  }

  /** A Monday near a plain day past the year 99 is plain, and in the calendar's range. */
  lemma MondayIsPlain(d: Date)
    requires Plain(d) && d.year > 99 && NumberOf(d) <= MaxDay
    ensures Plain(DateOf(MondayOf(NumberOf(d)))) && NameOfDay(MondayOf(NumberOf(d))).Some?
  {
    var monday := DateOf(MondayOf(NumberOf(d)));
    DateInYear(d);
    YearsAscend(99, 100);
    if d.year > 100 {
      YearsAscend(100, d.year);
    }
    FirstOfYear(99);
    DatesAreChronological(monday, d);
    DatesAreChronological(d, monday);
    DatesAreChronological(Date(99, 0, 1), monday);
    DatesAreChronological(monday, Date(99, 0, 1));
  }

  lemma FirstOfYear(year: int)
    ensures ValidDate(Date(year, 0, 1)) && NumberOf(Date(year, 0, 1)) == DayFromYear(year)
    ensures DayFromYear(99) > -MaxDay
  {
  }

  /** Adjacent ranges add up. */
  lemma {:induction false} PeriodsAdd(days: seq<DayTotal>, from: int, middle: int, to: int)
    requires AllPlain(days) && from - 1 <= middle <= to
    ensures TallyOfDays(days, from, to) == Plus(TallyOfDays(days, from, middle), TallyOfDays(days, middle + 1, to))
  {
    if days == [] {
      PlusZero(Zero);
    } else {
      var front, last := days[..|days| - 1], days[|days| - 1];
      PeriodsAdd(front, from, middle, to);
      DayAdds(DayOf(last), last.tally, TallyOfDays(front, from, middle), TallyOfDays(front, middle + 1, to), from, middle, to);
    }
  }

  /** One more day adds to the part it lies in, or to none. */
  lemma DayAdds(day: int, one: Tally, a: Tally, b: Tally, from: int, middle: int, to: int)
    requires from - 1 <= middle <= to
    ensures (if from <= day <= to then Plus(Plus(a, b), one) else Plus(a, b))
            == Plus(if from <= day <= middle then Plus(a, one) else a, if middle + 1 <= day <= to then Plus(b, one) else b)
  {
    PlusSwaps(a, b, one);
    PlusAssociates(a, b, one);
  }

  // ---------------------------------------------------------------- the ledger and its memo

  /** What a memoised total is the total of. */
  datatype Key = OfSession(id: string) | OfPeriod(from: string, to: string)

  datatype Ledger = Ledger(sessions: map<string, Slice>, provisional: set<string>, totals: map<Key, Tally>)

  function InPeriod(sessions: map<string, Slice>, from: string, to: string): map<string, Tally> {
    map id | id in sessions :: PeriodIn(sessions[id].days, from, to)
  }

  /** A total computed from the slices alone. */
  ghost function Fresh(sessions: map<string, Slice>, key: Key): Tally {
    match key
    case OfSession(id) => if id in sessions then sessions[id].total else Zero
    case OfPeriod(from, to) => SumAll(InPeriod(sessions, from, to))
  }

  ghost function Read(l: Ledger, key: Key): Ledger {
    if key in l.totals then l else l.(totals := l.totals[key := Fresh(l.sessions, key)])
  }

  const Unscanned := Slice(-2, Zero, [], [])

  function Seeded(l: Ledger, id: string): Ledger {
    if id in l.sessions then l
    else Ledger(l.sessions[id := Unscanned], l.provisional + {id}, map[])
  }

  function Committed(l: Ledger, id: string, slice: Slice): Ledger {
    Ledger(l.sessions[id := slice], l.provisional - {id}, map[])
  }

  /** A scan is taken unless a newer one is already here. */
  predicate Admits(l: Ledger, id: string, cut: int) {
    !(id in l.sessions && l.sessions[id].cut > cut) && !(id !in l.sessions && -2 > cut)
  }

  /** The day a sample is attributed to: its own, or the day of the scan when it has no time. */
  function DayOfSample(s: Sample, scanDay: string): Option<string> {
    if s.time.None? then Some(scanDay) else CostDay(s.time.value)
  }

  function ItemOf(t: Table, s: Sample, day: string): Item {
    var decision := ChargeFor(t, s.provider, s.model, s.time, s.usage);
    Item(day, decision, s.provider + "/" + s.model + ": " + if decision.Unpriced? then decision.reason else "")
  }

  /** The decided requests of a scan; None when one of them has no calendar day. */
  function Items(t: Table, samples: seq<Sample>, scanDay: string): Option<seq<Item>> {
    if samples == [] then Some([])
    else
      var front, last := Items(t, samples[..|samples| - 1], scanDay), samples[|samples| - 1];
      var day := DayOfSample(last, scanDay);
      if front.None? || day.None? then None else Some(front.value + [ItemOf(t, last, day.value)])
  }

  /** The slice is what a scan at some time folds these samples into: the total of all, and the days of the window. */
  ghost predicate Built(t: Table, slice: Slice, samples: seq<Sample>, now: int) {
    && CostDay(now).Some? && WindowStart(now).Some? && Items(t, samples, CostDay(now).value).Some?
    && var f := FoldItems(Items(t, samples, CostDay(now).value).value, WindowStart(now).value);
       && slice.total == f.total && slice.unpriced == f.unpriced
       && Ordered(slice.days) && Lists(f.days, slice.days) && SumList(slice.days) == SumAll(f.days)
  }

  class CostLedger {
    const table: Table
    var sessions: map<string, Slice>
    var provisional: set<string>
    var totals: map<Key, Tally>

    constructor (table: Table)
      ensures State() == Ledger(map[], {}, map[]) && this.table == table
    {
      this.table := table;
      sessions, provisional, totals := map[], {}, map[];
    }

    ghost function State(): Ledger
      reads this
    {
      Ledger(sessions, provisional, totals)
    }

    method SeedNewSession(id: string)
      modifies this
      ensures State() == Seeded(old(State()), id)
    {
      if id in sessions {
        return;
      }
      sessions := sessions[id := Unscanned];
      provisional := provisional + {id};
      totals := map[];
    }

    /** Decide every sample again and put the slice in place. False is a range error of the calendar, which leaves the
      * ledger as it was. Persisted says whether the directory took the slice. */
    method Replace(id: string, cut: int, samples: seq<Sample>, now: int, persisted: bool) returns (ok: bool)
      modifies this
      ensures !Admits(old(State()), id, cut) ==> ok && State() == old(State())
      ensures Admits(old(State()), id, cut) ==>
                && ok == (CostDay(now).Some? && WindowStart(now).Some? && Items(table, samples, CostDay(now).value).Some?)
                && (!ok || !persisted ==> State() == old(State()))
                && (ok && persisted ==>
                      && id in sessions && State() == Committed(old(State()), id, sessions[id])
                      && sessions[id].cut == cut && Built(table, sessions[id], samples, now))
    {
      if (if id in sessions then sessions[id].cut else -2) > cut {
        return true;
      }
      var scanDay, floor := CostDay(now), WindowStart(now);
      if scanDay.None? || floor.None? {
        return false;
      }
      var f;
      ok, f := FoldScan(samples, scanDay.value, floor.value);
      if !ok || !persisted {
        return;
      }
      var days := SortDays(f.days);
      sessions := sessions[id := Slice(cut, f.total, days, f.unpriced)];
      provisional := provisional - {id};
      totals := map[];
    }

    method FoldScan(samples: seq<Sample>, scanDay: string, floor: string) returns (ok: bool, f: Folded)
      ensures ok == Items(table, samples, scanDay).Some?
      ensures ok ==> f == FoldItems(Items(table, samples, scanDay).value, floor)
    {
      ok, f := true, Folded(Zero, map[], []);
      for i := 0 to |samples|
        invariant Items(table, samples[..i], scanDay).Some?
        invariant f == FoldItems(Items(table, samples[..i], scanDay).value, floor)
      {
        assert samples[..i + 1][..i] == samples[..i];
        var day := DayOfSample(samples[i], scanDay);
        if day.None? {
          NoDayNoItems(table, samples, scanDay, i + 1);
          return false, f;
        }
        ghost var items := Items(table, samples[..i], scanDay).value;
        var item := ItemOf(table, samples[i], day.value);
        assert (items + [item])[..|items|] == items;
        f := AddItem(f, floor, item);
      }
      assert samples[..|samples|] == samples;
    }

    method Total(id: string) returns (t: Tally)
      modifies this`totals
      ensures State() == Read(old(State()), OfSession(id))
      ensures OfSession(id) in totals && t == totals[OfSession(id)]
    {
      if OfSession(id) !in totals {
        totals := totals[OfSession(id) := if id in sessions then sessions[id].total else Zero];
      }
      t := totals[OfSession(id)];
    }

    /** The total of a range of days, remembered until the slices change. */
    method Period(from: string, to: string) returns (t: Tally)
      modifies this`totals
      ensures State() == Read(old(State()), OfPeriod(from, to))
      ensures OfPeriod(from, to) in totals && t == totals[OfPeriod(from, to)]
    {
      if OfPeriod(from, to) !in totals {
        var sum := SumPeriod(from, to);
        totals := totals[OfPeriod(from, to) := sum];
      }
      t := totals[OfPeriod(from, to)];
    }

    /** The day that holds an instant, its week and its month, each up to that day; None is a range error. */
    method Today(now: int) returns (t: Option<Tally>)
      modifies this`totals
      ensures CostDay(now).None? ==> t == None && State() == old(State())
      ensures CostDay(now).Some? ==> var key := OfPeriod(CostDay(now).value, CostDay(now).value);
                                     State() == Read(old(State()), key) && key in totals && t == Some(totals[key])
    {
      var day := CostDay(now);
      if day.None? {
        return None;
      }
      var sum := Period(day.value, day.value);
      t := Some(sum);
    }

    method Week(now: int) returns (t: Option<Tally>)
      modifies this`totals
      ensures (CostDay(now).Some? && IsDayName(CostDay(now).value) && WeekStart(CostDay(now).value).Some?) <==> t.Some?
      ensures t.None? ==> State() == old(State())
      ensures t.Some? ==> var key := OfPeriod(WeekStart(CostDay(now).value).value, CostDay(now).value);
                          State() == Read(old(State()), key) && key in totals && t == Some(totals[key])
    {
      var day := CostDay(now);
      if day.None? || !IsDayName(day.value) || WeekStart(day.value).None? {
        return None;
      }
      var sum := Period(WeekStart(day.value).value, day.value);
      t := Some(sum);
    }

    method Month(now: int) returns (t: Option<Tally>)
      modifies this`totals
      ensures (CostDay(now).Some? && IsDayName(CostDay(now).value)) <==> t.Some?
      ensures t.None? ==> State() == old(State())
      ensures t.Some? ==> var key := OfPeriod(MonthStartName(CostDay(now).value), CostDay(now).value);
                          State() == Read(old(State()), key) && key in totals && t == Some(totals[key])
    {
      var day := CostDay(now);
      if day.None? || !IsDayName(day.value) {
        return None;
      }
      var sum := Period(MonthStartName(day.value), day.value);
      t := Some(sum);
    }

    method SumPeriod(from: string, to: string) returns (sum: Tally)
      ensures sum == SumAll(InPeriod(sessions, from, to))
    {
      sum := Zero;
      var todo := sessions.Keys;
      ghost var each := InPeriod(sessions, from, to);
      SumOfNone(each, sessions.Keys);
      while todo != {}
        invariant todo <= sessions.Keys && sum == SumDays(each, sessions.Keys - todo)
        decreases |todo|
      {
        var id := AnyOf(todo);
        SumOfOneMore(each, sessions.Keys, todo, id);
        sum := AddPeriod(sum, sessions[id].days, from, to);
        todo := todo - {id};
      }
      assert sessions.Keys - {} == each.Keys;
    }

    method AddPeriod(before: Tally, days: seq<DayTotal>, from: string, to: string) returns (sum: Tally)
      ensures sum == Plus(before, PeriodIn(days, from, to))
    {
      sum := before;
      PlusZero(before);
      for i := 0 to |days|
        invariant sum == Plus(before, PeriodIn(days[..i], from, to))
      {
        assert days[..i + 1][..i] == days[..i];
        if Within(days[i].day, from, to) {
          PlusAssociates(before, PeriodIn(days[..i], from, to), days[i].tally);
          sum := Plus(sum, days[i].tally);
        }
      }
      assert days[..|days|] == days;
    }
  }

  lemma SumOfNone(each: map<string, Tally>, keys: set<string>)
    ensures SumDays(each, keys - keys) == Zero
  {
    assert keys - keys == {};
  }

  lemma SumOfOneMore(each: map<string, Tally>, keys: set<string>, todo: set<string>, id: string)
    requires id in todo && todo <= keys
    ensures SumDays(each, keys - (todo - {id})) == Plus(SumDays(each, keys - todo), Bucket(each, id))
  {
    assert keys - (todo - {id}) - {id} == keys - todo;
    SumDaysRemoves(each, keys - (todo - {id}), id);
  }

  lemma {:induction false} NoDayNoItems(t: Table, samples: seq<Sample>, scanDay: string, n: nat)
    requires n <= |samples| && Items(t, samples[..n], scanDay).None?
    ensures Items(t, samples, scanDay).None?
    decreases |samples| - n
  {
    if n < |samples| {
      assert samples[..n + 1][..n] == samples[..n];
      NoDayNoItems(t, samples, scanDay, n + 1);
    } else {
      assert samples[..n] == samples;
    }
  }

  // ---------------------------------------------------------------- runs

  /** The ledger and the number of loads that have begun and not ended. */
  datatype System = System(ledger: Ledger, loads: nat)

  const Init := System(Ledger(map[], {}, map[]), 0)

  datatype Event =
    | LoadBegins
    | LoadReads(sessions: map<string, Slice>) // what the directory held
    | LoadEnds(dropped: set<string>)          // the slices that left the window
    | Commit(id: string, slice: Slice)
    | Seed(id: string)
    | See(key: Key)

  ghost function Step(s: System, e: Event): System {
    match e
    case LoadBegins => System(s.ledger.(totals := map[], provisional := {}), s.loads + 1)
    case LoadReads(sessions) => if s.loads == 0 then s else s.(ledger := s.ledger.(sessions := sessions))
    case LoadEnds(dropped) =>
      if s.loads == 0 then s else System(s.ledger.(sessions := s.ledger.sessions - dropped), s.loads - 1)
    case Commit(id, slice) => s.(ledger := Committed(s.ledger, id, slice))
    case Seed(id) => s.(ledger := Seeded(s.ledger, id))
    case See(key) => s.(ledger := Read(s.ledger, key))
  }

  ghost function Run(events: seq<Event>): System {
    if events == [] then Init else Step(Run(events[..|events| - 1]), events[|events| - 1])
  }

  /** Every remembered total equals a computation from the slices. */
  ghost predicate MemoOk(l: Ledger) {
    forall key :: key in l.totals ==> l.totals[key] == Fresh(l.sessions, key)
  }

  ghost predicate Inv(s: System) {
    MemoOk(s.ledger) && (s.loads > 0 ==> s.ledger.totals == map[])
  }

  /** No total is read while a load is under way. */
  ghost predicate ReadsBetweenLoads(events: seq<Event>) {
    forall i :: 0 <= i < |events| && events[i].See? ==> Run(events[..i]).loads == 0
  }

  lemma StepKeepsInv(s: System, e: Event)
    requires Inv(s) && (e.See? ==> s.loads == 0)
    ensures Inv(Step(s, e))
  {
  }

  /** Memoised totals equal recomputation after any run in which no read falls inside a load. */
  lemma {:induction false} MemoIsFresh(events: seq<Event>)
    requires ReadsBetweenLoads(events)
    ensures Inv(Run(events))
  {
    if events != [] {
      var n := |events| - 1;
      assert forall i :: 0 <= i < n ==> events[..n][..i] == events[..i];
      MemoIsFresh(events[..n]);
      StepKeepsInv(Run(events[..n]), events[n]);
    }
  }

  /** A total read inside a load is remembered from the old slices: afterwards the memo is right exactly when the loaded
    * slices happen to give the same total. */
  lemma ReadInsideLoadGoesStale(s: System, key: Key, loaded: map<string, Slice>)
    requires Inv(s) && s.loads == 1
    ensures var n := Step(Step(Step(s, See(key)), LoadReads(loaded)), LoadEnds({}));
            n.loads == 0 && (MemoOk(n.ledger) <==> Fresh(loaded, key) == Fresh(s.ledger.sessions, key))
  {
    var seen := Step(s, See(key));
    assert seen.ledger.totals == map[key := Fresh(s.ledger.sessions, key)];
    assert loaded - {} == loaded;
    var n := Step(Step(seen, LoadReads(loaded)), LoadEnds({}));
    assert n.ledger == Ledger(loaded, seen.ledger.provisional, seen.ledger.totals) && key in n.ledger.totals;
  }

  /** Replaces that run one after the other. */
  function ReplaceAll(l: Ledger, scans: seq<(string, Slice)>): Ledger {
    if scans == [] then l
    else
      var before, last := ReplaceAll(l, scans[..|scans| - 1]), scans[|scans| - 1];
      if Admits(before, last.0, last.1.cut) then Committed(before, last.0, last.1) else before
  }

  /** They never lower a session's cut, and end at the newest of them. */
  lemma {:induction false} SequentialReplacesKeepTheNewestCut(l: Ledger, scans: seq<(string, Slice)>, id: string)
    ensures id in l.sessions ==>
              id in ReplaceAll(l, scans).sessions && ReplaceAll(l, scans).sessions[id].cut >= l.sessions[id].cut
    ensures forall s :: s in scans && s.0 == id && s.1.cut >= -2 ==>
              id in ReplaceAll(l, scans).sessions && ReplaceAll(l, scans).sessions[id].cut >= s.1.cut
  {
    if scans != [] {
      SequentialReplacesKeepTheNewestCut(l, scans[..|scans| - 1], id);
      assert scans == scans[..|scans| - 1] + [scans[|scans| - 1]];
    }
  }
}
