/** What the periods of the cost ledger sum (src/cost/ledger.ts): exactly the requests whose Beijing day lies in the range
  * and in the window, over all sessions. */
module CostPeriods {
  import opened Collections
  import opened Calendar
  import opened DayNames
  import CostRecords
  import opened Pricing
  import opened CostLedger

  // ---------------------------------------------------------------- days of samples

  /** The number of the Beijing day of an instant. */
  function BeijingDay(time: int): int {
    (time + EightHours) / MsPerDay
  }

  /** A day of the years 0 to 9999, the ones whose names order by text. */
  predicate PlainDay(day: int) {
    Plain(DateOf(day))
  }

  /** The samples and the clock of a scan lie in plain years, the clock's past the year 99. */
  predicate PlainScan(samples: seq<CostRecords.Sample>, now: int) {
    && 99 < DateOf(BeijingDay(now)).year <= 9999
    && forall i :: 0 <= i < |samples| && samples[i].time.Some? ==> PlainDay(BeijingDay(samples[i].time.value))
  }

  /** The day a sample counts on: its own, or the scan's when it has no time. */
  function SampleDay(s: CostRecords.Sample, now: int): int {
    BeijingDay(if s.time.Some? then s.time.value else now)
  }

  lemma PlainDayHasName(day: int)
    requires PlainDay(day)
    ensures NameOfDay(day) == Some(NameOf(DateOf(day))) && day < MaxDay - 1
  {
    var d := DateOf(day);
    DateInYear(d);
    if 0 < d.year {
      YearsAscend(0, d.year);
    }
    YearsAscend(d.year + 1, 10001);
    assert DayFromYear(0) == -719528 && DayFromYear(10001) == 2933263;
  }

  lemma PlainInstantHasDay(time: int)
    requires PlainDay(BeijingDay(time))
    ensures CostDay(time) == Some(NameOf(DateOf(BeijingDay(time))))
  {
    PlainDayHasName(BeijingDay(time));
  }

  /** The first day of the window, as a number. */
  function FloorDay(now: int): int {
    BeijingDay(now) - (WindowDays - 1)
  }

  lemma FloorIsPlain(now: int)
    requires 99 < DateOf(BeijingDay(now)).year <= 9999
    ensures PlainDay(FloorDay(now))
  {
    var d, floor := DateOf(BeijingDay(now)), DateOf(FloorDay(now));
    DatesAreChronological(floor, d);
    DateInYear(d);
    YearsAscend(99, d.year);
    if floor.year < 99 {
      DateInYear(floor);
      if floor.year + 1 < 99 {
        YearsAscend(floor.year + 1, 99);
      }
    }
  }

  /** A plain scan has a day and a window, named as their numbers say. */
  lemma ScanHasWindow(now: int)
    requires 99 < DateOf(BeijingDay(now)).year <= 9999
    ensures CostDay(now) == Some(NameOf(DateOf(BeijingDay(now))))
    ensures WindowStart(now) == Some(NameOf(DateOf(FloorDay(now))))
  {
    var d := DateOf(BeijingDay(now));
    PlainInstantHasDay(now);
    NamesReadBack(d);
    DaysBeforeIsExact(d, WindowDays - 1);
    FloorIsPlain(now);
    PlainDayHasName(FloorDay(now));
  }

  // ---------------------------------------------------------------- items and names

  /** The items of some samples on days of these names. */
  function ItemsOn(t: Table, samples: seq<CostRecords.Sample>, names: seq<string>): (items: seq<Item>)
    requires |names| == |samples|
    ensures |items| == |samples| && forall i :: 0 <= i < |items| ==> items[i] == ItemOf(t, samples[i], names[i])
  {
    if samples == [] then []
    else
      var n := |samples| - 1;
      ItemsOn(t, samples[..n], names[..n]) + [ItemOf(t, samples[n], names[n])]
  }

  predicate DayIs(s: CostRecords.Sample, scanDay: string, name: string) {
    DayOfSample(s, scanDay) == Some(name)
  }

  lemma {:induction false} ItemsAre(t: Table, samples: seq<CostRecords.Sample>, scanDay: string, names: seq<string>)
    requires |names| == |samples| && forall i :: 0 <= i < |samples| ==> DayIs(samples[i], scanDay, names[i])
    ensures Items(t, samples, scanDay) == Some(ItemsOn(t, samples, names))
  {
    if samples != [] {
      var n := |samples| - 1;
      ItemsAre(t, samples[..n], scanDay, names[..n]);
      assert DayIs(samples[n], scanDay, names[n]);
    }
  }

  /** The items of a plain scan, one for each sample, on the day of its number. */
  lemma ItemsOfPlainScan(t: Table, samples: seq<CostRecords.Sample>, now: int)
    requires PlainScan(samples, now)
    ensures CostDay(now).Some? && Items(t, samples, CostDay(now).value).Some?
    ensures var items := Items(t, samples, CostDay(now).value).value;
            |items| == |samples|
            && forall i :: 0 <= i < |items| ==> items[i] == ItemOf(t, samples[i], SampleName(samples[i], now))
  {
    ScanHasWindow(now);
    forall i | 0 <= i < |samples|
      ensures DayIs(samples[i], CostDay(now).value, SampleName(samples[i], now))
    {
      SampleDayIsPlain(samples, now, i);
      DayOfPlainSample(samples[i], now);
    }
    ItemsAre(t, samples, CostDay(now).value, Each(samples, (s: CostRecords.Sample) => SampleName(s, now)));
  }

  /** The name of the day a sample counts on. */
  function SampleName(s: CostRecords.Sample, now: int): string {
    NameOf(DateOf(SampleDay(s, now)))
  }

  function Each(samples: seq<CostRecords.Sample>, name: CostRecords.Sample -> string): (names: seq<string>)
    ensures |names| == |samples| && forall i :: 0 <= i < |names| ==> names[i] == name(samples[i])
  {
    if samples == [] then [] else Each(samples[..|samples| - 1], name) + [name(samples[|samples| - 1])]
  }

  lemma DayOfPlainSample(s: CostRecords.Sample, now: int)
    requires PlainDay(SampleDay(s, now))
    ensures CostDay(now).Some? ==> DayIs(s, CostDay(now).value, SampleName(s, now))
  {
    PlainInstantHasDay(if s.time.Some? then s.time.value else now);
  }

  /** The tally of the items on some days. */
  function TallyIn(items: seq<Item>, names: set<string>): Tally {
    if items == [] then Zero
    else
      var front, last := TallyIn(items[..|items| - 1], names), items[|items| - 1];
      if last.day in names then Plus(front, One(last.decision)) else front
  }

  lemma {:induction false} TallyInNone(items: seq<Item>)
    ensures TallyIn(items, {}) == Zero
  {
    if items != [] {
      TallyInNone(items[..|items| - 1]);
    }
  }

  lemma {:induction false} TallyInJoin(items: seq<Item>, names: set<string>, day: string)
    requires day !in names
    ensures TallyIn(items, names + {day}) == Plus(TallyIn(items, names), TallyWhere(items, OnDay(day)))
  {
    if items == [] {
      PlusZero(Zero);
    } else {
      var front, one := items[..|items| - 1], One(items[|items| - 1].decision);
      TallyInJoin(front, names, day);
      PlusSwaps(TallyIn(front, names), TallyWhere(front, OnDay(day)), one);
      PlusAssociates(TallyIn(front, names), TallyWhere(front, OnDay(day)), one);
    }
  }

  /** The listed days in a range of names. */
  function NamesIn(days: seq<DayTotal>, from: string, to: string): set<string> {
    set i | 0 <= i < |days| && Within(days[i].day, from, to) :: days[i].day
  }

  lemma NamesInSnoc(days: seq<DayTotal>, from: string, to: string)
    requires days != [] && Ordered(days)
    ensures var front, last := NamesIn(days[..|days| - 1], from, to), days[|days| - 1].day;
            last !in front && NamesIn(days, from, to) == if Within(last, from, to) then front + {last} else front
  {
    var front, last := days[..|days| - 1], days[|days| - 1].day;
    forall i | 0 <= i < |front|
      ensures front[i].day != last
    {
      assert front[i] == days[i] && Less(days[i].day, last);
      LessIsTotal(last, last);
    }
    forall name
      ensures name in NamesIn(days, from, to)
              <==> name in NamesIn(front, from, to) || (name == last && Within(last, from, to))
    {
      if name in NamesIn(front, from, to) {
        var i :| 0 <= i < |front| && front[i].day == name && Within(front[i].day, from, to);
        assert days[i].day == name;
      }
      if name in NamesIn(days, from, to) {
        var i :| 0 <= i < |days| && days[i].day == name && Within(days[i].day, from, to);
        assert i < |front| ==> front[i].day == name;
      }
    }
  }

  /** A period of the day list is the tally of the items on its days. */
  lemma {:induction false} PeriodIsTally(items: seq<Item>, days: seq<DayTotal>, from: string, to: string)
    requires Ordered(days) && forall i :: 0 <= i < |days| ==> days[i].tally == TallyWhere(items, OnDay(days[i].day))
    ensures PeriodIn(days, from, to) == TallyIn(items, NamesIn(days, from, to))
  {
    if days == [] {
      assert NamesIn(days, from, to) == {};
      TallyInNone(items);
    } else {
      var front, last := days[..|days| - 1], days[|days| - 1];
      PeriodIsTally(items, front, from, to);
      NamesInSnoc(days, from, to);
      TallyInJoin(items, NamesIn(front, from, to), last.day);
    }
  }

  // ---------------------------------------------------------------- one slice

  /** A sample counts in a range of days when its day lies in the range and in the window. */
  predicate Counts(s: CostRecords.Sample, now: int, from: int, to: int) {
    from <= SampleDay(s, now) <= to && FloorDay(now) <= SampleDay(s, now)
  }

  /** The tally of the samples that count in a range of days. */
  function SamplesIn(t: Table, samples: seq<CostRecords.Sample>, now: int, from: int, to: int): Tally {
    if samples == [] then Zero
    else
      var front, last := SamplesIn(t, samples[..|samples| - 1], now, from, to), samples[|samples| - 1];
      if Counts(last, now, from, to)
      then Plus(front, One(ChargeFor(t, last.provider, last.model, last.time, last.usage))) else front
  }

  lemma {:induction false} TallyInIsSamples(t: Table, samples: seq<CostRecords.Sample>, items: seq<Item>, now: int, names: set<string>,
                                            from: int, to: int)
    requires |items| == |samples|
    requires forall i :: 0 <= i < |items| ==>
               && items[i] == ItemOf(t, samples[i], SampleName(samples[i], now))
               && (items[i].day in names <==> Counts(samples[i], now, from, to))
    ensures TallyIn(items, names) == SamplesIn(t, samples, now, from, to)
  {
    if items != [] {
      TallyInIsSamples(t, samples[..|samples| - 1], items[..|items| - 1], now, names, from, to);
    }
  }

  lemma BuiltDays(t: Table, slice: Slice, samples: seq<CostRecords.Sample>, now: int, i: nat)
    requires Built(t, slice, samples, now) && i < |slice.days|
    ensures var items := Items(t, samples, CostDay(now).value).value;
            && slice.days[i].tally == TallyWhere(items, OnDay(slice.days[i].day))
            && HasDay(items, slice.days[i].day)
  {
    var items := Items(t, samples, CostDay(now).value).value;
    assert slice.days[i] in slice.days;
    BucketsAreTallies(items, WindowStart(now).value, slice.days[i].day);
  }

  /** The day of an item is listed exactly when it is in the window. */
  lemma ListedInWindow(t: Table, slice: Slice, samples: seq<CostRecords.Sample>, now: int, i: Item, from: string, to: string)
    requires Built(t, slice, samples, now) && i in Items(t, samples, CostDay(now).value).value
    ensures i.day in NamesIn(slice.days, from, to)
            <==> Within(i.day, from, to) && !Less(i.day, WindowStart(now).value)
  {
    var items := Items(t, samples, CostDay(now).value).value;
    var f := FoldItems(items, WindowStart(now).value);
    BucketsAreTallies(items, WindowStart(now).value, i.day);
    assert HasDay(items, i.day);
    if i.day in f.days {
      var d := DayTotal(i.day, f.days[i.day]);
      assert d in slice.days;
      var k :| 0 <= k < |slice.days| && slice.days[k] == d;
      assert slice.days[k].day == i.day;
    } else {
      forall k | 0 <= k < |slice.days|
        ensures slice.days[k].day != i.day
      {
        assert slice.days[k] in slice.days;
      }
    }
  }

  /** The stored days of a plain scan are plain. */
  lemma SliceIsPlain(t: Table, slice: Slice, samples: seq<CostRecords.Sample>, now: int)
    requires Built(t, slice, samples, now) && PlainScan(samples, now)
    ensures AllPlain(slice.days)
  {
    var items := Items(t, samples, CostDay(now).value).value;
    forall k | 0 <= k < |slice.days|
      ensures IsPlainName(slice.days[k].day)
    {
      BuiltDays(t, slice, samples, now, k);
      var item :| item in items && item.day == slice.days[k].day;
      ItemsArePlain(t, samples, now, item);
    }
  }

  lemma ItemsArePlain(t: Table, samples: seq<CostRecords.Sample>, now: int, item: Item)
    requires PlainScan(samples, now) && CostDay(now).Some? && Items(t, samples, CostDay(now).value).Some?
    requires item in Items(t, samples, CostDay(now).value).value
    ensures IsPlainName(item.day)
  {
    ItemsOfPlainScan(t, samples, now);
    var items := Items(t, samples, CostDay(now).value).value;
    var i :| 0 <= i < |items| && items[i] == item;
    SampleNameReadsBack(samples, now, i);
  }

  lemma SampleNameReadsBack(samples: seq<CostRecords.Sample>, now: int, i: nat)
    requires PlainScan(samples, now) && i < |samples|
    ensures IsPlainName(SampleName(samples[i], now))
  {
    SampleDayIsPlain(samples, now, i);
    NamesReadBack(DateOf(SampleDay(samples[i], now)));
  }

  lemma SampleDayIsPlain(samples: seq<CostRecords.Sample>, now: int, i: nat)
    requires PlainScan(samples, now) && i < |samples|
    ensures PlainDay(SampleDay(samples[i], now))
  {
  }

  lemma NamesCompare(a: int, b: int)
    requires PlainDay(a) && PlainDay(b)
    ensures Less(NameOf(DateOf(a)), NameOf(DateOf(b))) <==> a < b
  {
    NamesAreChronological(DateOf(a), DateOf(b));
  }

  /** A period of one slice sums exactly the samples of its scan whose day lies in the range and in the window. */
  lemma SlicePeriodIsSamples(t: Table, slice: Slice, samples: seq<CostRecords.Sample>, now: int, from: int, to: int)
    requires Built(t, slice, samples, now) && PlainScan(samples, now) && PlainDay(from) && PlainDay(to)
    ensures PeriodIn(slice.days, NameOf(DateOf(from)), NameOf(DateOf(to))) == SamplesIn(t, samples, now, from, to)
  {
    var first, last := NameOf(DateOf(from)), NameOf(DateOf(to));
    ItemsOfPlainScan(t, samples, now);
    ScanHasWindow(now);
    FloorIsPlain(now);
    var items := Items(t, samples, CostDay(now).value).value;
    forall k | 0 <= k < |slice.days|
      ensures slice.days[k].tally == TallyWhere(items, OnDay(slice.days[k].day))
    {
      BuiltDays(t, slice, samples, now, k);
    }
    PeriodIsTally(items, slice.days, first, last);
    forall i | 0 <= i < |items|
      ensures items[i].day in NamesIn(slice.days, first, last) <==> Counts(samples[i], now, from, to)
    {
      var day := SampleDay(samples[i], now);
      SampleDayIsPlain(samples, now, i);
      ListedInWindow(t, slice, samples, now, items[i], first, last);
      NamesCompare(day, from);
      NamesCompare(to, day);
      NamesCompare(day, FloorDay(now));
    }
    TallyInIsSamples(t, samples, items, now, NamesIn(slice.days, first, last), from, to);
  }

  // ---------------------------------------------------------------- all sessions

  /** One scan: the price table it decided by, its samples, and its clock. */
  datatype Scan = Scan(table: Table, samples: seq<CostRecords.Sample>, now: int)

  /** The slice is what a plain scan folds to. */
  ghost predicate FromScan(slice: Slice, scan: Scan) {
    Built(scan.table, slice, scan.samples, scan.now) && PlainScan(scan.samples, scan.now)
  }

  /** Every slice is what its session's scan folds to, each with the table of its own time; a session nobody scanned has the
    * scan of nothing. */
  ghost predicate BuiltFrom(sessions: map<string, Slice>, scans: map<string, Scan>) {
    && sessions.Keys == scans.Keys
    && forall id :: id in sessions ==> FromScan(sessions[id], scans[id])
  }

  function EachIn(scans: map<string, Scan>, from: int, to: int): map<string, Tally> {
    map id | id in scans :: SamplesIn(scans[id].table, scans[id].samples, scans[id].now, from, to)
  }

  /** The tally, over all sessions, of the samples that count in a range of days. */
  ghost function AllSamplesIn(scans: map<string, Scan>, from: int, to: int): Tally {
    SumAll(EachIn(scans, from, to))
  }

  function RangeOf(from: int, to: int): Key {
    OfPeriod(NameOf(DateOf(from)), NameOf(DateOf(to)))
  }

  /** A period of the ledger sums exactly the samples, of all sessions, whose day lies in the range and in the window. */
  lemma PeriodIsSamples(sessions: map<string, Slice>, scans: map<string, Scan>, from: int, to: int)
    requires BuiltFrom(sessions, scans) && PlainDay(from) && PlainDay(to)
    ensures Fresh(sessions, RangeOf(from, to)) == AllSamplesIn(scans, from, to)
  {
    forall id | id in sessions
      ensures PeriodIn(sessions[id].days, NameOf(DateOf(from)), NameOf(DateOf(to)))
              == SamplesIn(scans[id].table, scans[id].samples, scans[id].now, from, to)
    {
      assert FromScan(sessions[id], scans[id]);
      SlicePeriodIsSamples(scans[id].table, sessions[id], scans[id].samples, scans[id].now, from, to);
    }
    EachPeriodIsSamples(sessions, scans, NameOf(DateOf(from)), NameOf(DateOf(to)), from, to);
  }

  lemma EachPeriodIsSamples(sessions: map<string, Slice>, scans: map<string, Scan>, first: string, last: string,
                            from: int, to: int)
    requires sessions.Keys == scans.Keys
    requires forall id :: id in sessions ==>
               PeriodIn(sessions[id].days, first, last) == SamplesIn(scans[id].table, scans[id].samples, scans[id].now, from, to)
    ensures Fresh(sessions, OfPeriod(first, last)) == AllSamplesIn(scans, from, to)
  {
    assert InPeriod(sessions, first, last) == EachIn(scans, from, to);
  }

  /** Today, the week to date and the month to date are the periods of these days. */
  lemma ReportsAreSamples(sessions: map<string, Slice>, scans: map<string, Scan>, now: int)
    requires BuiltFrom(sessions, scans) && 99 < DateOf(BeijingDay(now)).year <= 9999
    ensures CostDay(now).Some? && IsDayName(CostDay(now).value) && WeekStart(CostDay(now).value).Some?
    ensures var name, day := CostDay(now).value, BeijingDay(now);
            && Fresh(sessions, OfPeriod(name, name)) == AllSamplesIn(scans, day, day)
            && Fresh(sessions, OfPeriod(WeekStart(name).value, name)) == AllSamplesIn(scans, MondayOf(day), day)
            && Fresh(sessions, OfPeriod(MonthStartName(name), name))
               == AllSamplesIn(scans, NumberOf(DateOf(day).(day := 1)), day)
  {
    var day := BeijingDay(now);
    var d := DateOf(day);
    PlainInstantHasDay(now);
    PlainDayHasName(day);
    NamesReadBack(d);
    WeekStartIsMonday(d);
    MondayIsPlain(d);
    MonthStartIsFirst(d);
    DateOfNumber(d.(day := 1));
    PeriodIsSamples(sessions, scans, day, day);
    PeriodIsSamples(sessions, scans, MondayOf(day), day);
    PeriodIsSamples(sessions, scans, NumberOf(d.(day := 1)), day);
  }

  lemma DateOfNumber(d: Date)
    requires ValidDate(d)
    ensures DateOf(NumberOf(d)) == d
  {
    DatesAreChronological(DateOf(NumberOf(d)), d);
  }

  // ---------------------------------------------------------------- adding up

  predicate AddsAt(whole: map<string, Tally>, a: map<string, Tally>, b: map<string, Tally>, k: string) {
    Bucket(whole, k) == Plus(Bucket(a, k), Bucket(b, k))
  }

  lemma {:induction false} SumDaysAdds(whole: map<string, Tally>, a: map<string, Tally>, b: map<string, Tally>,
                                       keys: set<string>)
    requires keys <= b.Keys && forall k :: k in b ==> AddsAt(whole, a, b, k)
    ensures SumDays(whole, keys) == Plus(SumDays(a, keys), SumDays(b, keys))
    decreases |keys|
  {
    if keys == {} {
      NoDaysAdd(whole, a, b, keys);
    } else {
      var k := Pick(keys);
      SumDaysAdds(whole, a, b, keys - {k});
      OneMoreAdds(whole, a, b, keys, k);
    }
  }

  lemma OneMoreAdds(whole: map<string, Tally>, a: map<string, Tally>, b: map<string, Tally>, keys: set<string>, k: string)
    requires k in keys && SumDays(whole, keys - {k}) == Plus(SumDays(a, keys - {k}), SumDays(b, keys - {k}))
    requires AddsAt(whole, a, b, k)
    ensures SumDays(whole, keys) == Plus(SumDays(a, keys), SumDays(b, keys))
  {
    SumDaysRemoves(whole, keys, k);
    SumDaysRemoves(a, keys, k);
    SumDaysRemoves(b, keys, k);
    FourSum(SumDays(whole, keys - {k}), Bucket(whole, k), SumDays(a, keys - {k}), Bucket(a, k),
            SumDays(b, keys - {k}), Bucket(b, k));
  }

  lemma NoDaysAdd(whole: map<string, Tally>, a: map<string, Tally>, b: map<string, Tally>, keys: set<string>)
    requires keys == {}
    ensures SumDays(whole, keys) == Plus(SumDays(a, keys), SumDays(b, keys))
  {
    PlusZero(SumDays(a, keys));
  }

  lemma FourSum(rest: Tally, one: Tally, restA: Tally, oneA: Tally, restB: Tally, oneB: Tally)
    requires rest == Plus(restA, restB) && one == Plus(oneA, oneB)
    ensures Plus(rest, one) == Plus(Plus(restA, oneA), Plus(restB, oneB))
  {
  }

  /** Adjacent periods of the ledger add up to the period of both. */
  lemma LedgerPeriodsAdd(sessions: map<string, Slice>, from: int, middle: int, to: int)
    requires forall id :: id in sessions ==> AllPlain(sessions[id].days)
    requires PlainDay(from) && PlainDay(middle) && PlainDay(middle + 1) && PlainDay(to) && from - 1 <= middle <= to
    ensures Fresh(sessions, RangeOf(from, to))
            == Plus(Fresh(sessions, RangeOf(from, middle)), Fresh(sessions, RangeOf(middle + 1, to)))
  {
    var first, mid, next, last := NameOf(DateOf(from)), NameOf(DateOf(middle)), NameOf(DateOf(middle + 1)), NameOf(DateOf(to));
    var whole, a, b := InPeriod(sessions, first, last), InPeriod(sessions, first, mid), InPeriod(sessions, next, last);
    forall id | id in sessions.Keys
      ensures AddsAt(whole, a, b, id)
    {
      SlicePeriodsAdd(sessions[id].days, from, middle, to);
    }
    assert whole.Keys == sessions.Keys && a.Keys == sessions.Keys && b.Keys == sessions.Keys;
    SumDaysAdds(whole, a, b, sessions.Keys);
  }

  lemma SlicePeriodsAdd(days: seq<DayTotal>, from: int, middle: int, to: int)
    requires AllPlain(days)
    requires PlainDay(from) && PlainDay(middle) && PlainDay(middle + 1) && PlainDay(to) && from - 1 <= middle <= to
    ensures PeriodIn(days, NameOf(DateOf(from)), NameOf(DateOf(to)))
            == Plus(PeriodIn(days, NameOf(DateOf(from)), NameOf(DateOf(middle))),
                    PeriodIn(days, NameOf(DateOf(middle + 1)), NameOf(DateOf(to))))
  {
    PeriodIsChronological(days, DateOf(from), DateOf(to));
    PeriodIsChronological(days, DateOf(from), DateOf(middle));
    PeriodIsChronological(days, DateOf(middle + 1), DateOf(to));
    PeriodsAdd(days, from, middle, to);
  }

  // ---------------------------------------------------------------- runs

  /** The scans behind what an event brings: that of the slice it commits, or those of the slices a load found. */
  ghost predicate Supplied(e: Event, scans: map<string, Scan>) {
    match e
    case Commit(id, slice) => id in scans && FromScan(slice, scans[id])
    case LoadReads(sessions) => BuiltFrom(sessions, scans)
    case _ => true
  }

  /** The scan of a session that nobody scanned yet. */
  predicate Nothing(scan: Scan) {
    scan.samples == [] && PlainScan(scan.samples, scan.now)
  }

  /** The scans behind the slices after one more event. */
  function ScansBy(loading: bool, before: map<string, Scan>, e: Event, scans: map<string, Scan>, none: Scan): map<string, Scan> {
    match e
    case LoadReads(_) => if loading then scans else before
    case LoadEnds(dropped) => if loading then before - dropped else before
    case Commit(id, _) => if id in scans then before[id := scans[id]] else before
    case Seed(id) => if id in before then before else before[id := none]
    case _ => before
  }

  /** The scans of a run: of every session the one whose slice is in place. */
  ghost function ScansOf(events: seq<Event>, sources: seq<map<string, Scan>>, none: Scan): map<string, Scan>
    requires |sources| == |events|
  {
    if events == [] then map[]
    else
      var n := |events| - 1;
      ScansBy(Run(events[..n]).loads > 0, ScansOf(events[..n], sources[..n], none), events[n], sources[n], none)
  }

  lemma NothingFolds(t: Table, day: string, floor: string)
    ensures Items(t, [], day) == Some([]) && FoldItems([], floor) == Folded(Zero, map[], [])
    ensures SumAll(FoldItems([], floor).days) == Zero
  {
    var days: map<string, Tally> := map[];
    assert days.Keys == {} && SumDays(days, {}) == Zero;
  }

  lemma NothingIsBuilt(none: Scan)
    requires Nothing(none)
    ensures FromScan(Unscanned, none)
  {
    ScanHasWindow(none.now);
    NothingBuilds(none.table, none.now);
  }

  lemma NothingBuilds(t: Table, now: int)
    requires CostDay(now).Some? && WindowStart(now).Some?
    ensures Built(t, Unscanned, [], now)
  {
    NothingFolds(t, CostDay(now).value, WindowStart(now).value);
  }

  lemma BuiltWith(sessions: map<string, Slice>, scans: map<string, Scan>, id: string, slice: Slice, scan: Scan)
    requires BuiltFrom(sessions, scans) && FromScan(slice, scan)
    ensures BuiltFrom(sessions[id := slice], scans[id := scan])
  {
    var s, n := sessions[id := slice], scans[id := scan];
    forall k | k in s
      ensures FromScan(s[k], n[k])
    {
      if k == id {
        assert s[k] == slice && n[k] == scan;
      } else {
        assert s[k] == sessions[k] && n[k] == scans[k];
      }
    }
  }

  lemma BuiltWithout(sessions: map<string, Slice>, scans: map<string, Scan>, dropped: set<string>)
    requires BuiltFrom(sessions, scans)
    ensures BuiltFrom(sessions - dropped, scans - dropped)
  {
  }

  lemma StepIsBuilt(s: System, before: map<string, Scan>, e: Event, scans: map<string, Scan>, none: Scan)
    requires BuiltFrom(s.ledger.sessions, before) && Supplied(e, scans) && Nothing(none)
    ensures BuiltFrom(Step(s, e).ledger.sessions, ScansBy(s.loads > 0, before, e, scans, none))
  {
    SessionsOfStep(s, e);
    match e
    case LoadEnds(dropped) => BuiltWithout(s.ledger.sessions, before, dropped);
    case Commit(id, slice) => BuiltWith(s.ledger.sessions, before, id, slice, scans[id]);
    case Seed(id) =>
      NothingIsBuilt(none);
      BuiltWith(s.ledger.sessions, before, id, Unscanned, none);
    case _ =>
  }

  /** The slices after one more event. */
  function SessionsBy(loading: bool, before: map<string, Slice>, e: Event): map<string, Slice> {
    match e
    case LoadReads(sessions) => if loading then sessions else before
    case LoadEnds(dropped) => if loading then before - dropped else before
    case Commit(id, slice) => before[id := slice]
    case Seed(id) => if id in before then before else before[id := Unscanned]
    case _ => before
  }

  lemma SessionsOfStep(s: System, e: Event)
    ensures Step(s, e).ledger.sessions == SessionsBy(s.loads > 0, s.ledger.sessions, e)
  {
  }

  /** In every run the slices in place are what the run's own scans fold to, each with the table of its time. */
  lemma {:induction false} EveryRunIsBuilt(events: seq<Event>, sources: seq<map<string, Scan>>, none: Scan)
    requires |sources| == |events| && Nothing(none) && forall i :: 0 <= i < |events| ==> Supplied(events[i], sources[i])
    ensures BuiltFrom(Run(events).ledger.sessions, ScansOf(events, sources, none))
  {
    if events != [] {
      var n := |events| - 1;
      EveryRunIsBuilt(events[..n], sources[..n], none);
      StepIsBuilt(Run(events[..n]), ScansOf(events[..n], sources[..n], none), events[n], sources[n], none);
    }
  }

  /** In every run without a read inside a load, a remembered period is the tally of the samples of all sessions whose day
    * lies in the range and in the window, whichever scans the slices in place come from. */
  lemma RememberedPeriodIsSamples(events: seq<Event>, scans: map<string, Scan>, from: int, to: int)
    requires ReadsBetweenLoads(events) && BuiltFrom(Run(events).ledger.sessions, scans) && PlainDay(from) && PlainDay(to)
    ensures var l := Run(events).ledger;
            RangeOf(from, to) in l.totals ==> l.totals[RangeOf(from, to)] == AllSamplesIn(scans, from, to)
  {
    MemoIsFresh(events);
    PeriodIsSamples(Run(events).ledger.sessions, scans, from, to);
  }

  /** So of the run's own scans. */
  lemma RunRemembersItsSamples(events: seq<Event>, sources: seq<map<string, Scan>>, none: Scan, from: int, to: int)
    requires |sources| == |events| && Nothing(none) && forall i :: 0 <= i < |events| ==> Supplied(events[i], sources[i])
    requires ReadsBetweenLoads(events) && PlainDay(from) && PlainDay(to)
    ensures var l := Run(events).ledger;
            RangeOf(from, to) in l.totals ==>
              l.totals[RangeOf(from, to)] == AllSamplesIn(ScansOf(events, sources, none), from, to)
  {
    EveryRunIsBuilt(events, sources, none);
    RememberedPeriodIsSamples(events, ScansOf(events, sources, none), from, to);
  }
}
