/** Which stored records a trim releases, and what the kept ones still say (src/session/transcript.ts). */
module TrimHistory {
  import opened Collections
  import opened KeyOrder
  import opened LegacyFold

  datatype Limits = Limits(maxRecords: nat, maxBytes: nat)

  // ---------------------------------------------------------------- byte totals

  /** The stored bytes of some keys. */
  function SumKeys(sizes: map<nat, nat>, keys: seq<nat>): nat {
    if keys == [] then 0
    else
      var last := keys[|keys| - 1];
      SumKeys(sizes, keys[..|keys| - 1]) + if last in sizes then sizes[last] else 0
  }

  ghost function Total(sizes: map<nat, nat>): nat {
    SumKeys(sizes, Ascending(sizes.Keys))
  }

  lemma {:induction false} SumJoin(sizes: map<nat, nat>, a: seq<nat>, b: seq<nat>)
    ensures SumKeys(sizes, a + b) == SumKeys(sizes, a) + SumKeys(sizes, b)
  {
    if b == [] {
      assert a + b == a;
    } else {
      assert (a + b)[..|a + b| - 1] == a + b[..|b| - 1];
      SumJoin(sizes, a, b[..|b| - 1]);
    }
  }

  lemma {:induction false} SumAgrees(sizes: map<nat, nat>, other: map<nat, nat>, keys: seq<nat>)
    requires forall k :: k in keys ==> k in sizes && k in other && sizes[k] == other[k]
    ensures SumKeys(sizes, keys) == SumKeys(other, keys)
  {
    if keys != [] {
      assert keys[|keys| - 1] in keys && forall k :: k in keys[..|keys| - 1] ==> k in keys;
      SumAgrees(sizes, other, keys[..|keys| - 1]);
    }
  }

  lemma {:induction false} SumWithout(sizes: map<nat, nat>, s: set<nat>, k: nat)
    requires k in s && k in sizes
    ensures SumKeys(sizes, Ascending(s)) == SumKeys(sizes, Ascending(s - {k})) + sizes[k]
    decreases |s|
  {
    var m := MaxOf(s);
    AscendingStep(s, m);
    assert (Ascending(s - {m}) + [m])[..|Ascending(s - {m})|] == Ascending(s - {m});
    if m != k {
      var rest := s - {k};
      assert rest - {m} == s - {m} - {k};
      AscendingStep(rest, m);
      assert (Ascending(rest - {m}) + [m])[..|Ascending(rest - {m})|] == Ascending(rest - {m});
      SumWithout(sizes, s - {m}, k);
    }
  }

  function BytesOf(sizes: map<nat, nat>, k: nat): nat {
    if k in sizes then sizes[k] else 0
  }

  lemma TotalSplit(sizes: map<nat, nat>, k: nat)
    ensures Total(sizes) == SumKeys(sizes, Ascending(sizes.Keys - {k})) + BytesOf(sizes, k)
  {
    if k in sizes {
      SumWithout(sizes, sizes.Keys, k);
    } else {
      assert sizes.Keys - {k} == sizes.Keys;
    }
  }

  /** Storing or deleting one record moves the total by exactly its own bytes. */
  lemma TotalStored(sizes: map<nat, nat>, k: nat, bytes: nat)
    ensures Total(sizes[k := bytes]) == Total(sizes) + bytes - BytesOf(sizes, k)
  {
    var n := sizes[k := bytes];
    TotalSplit(sizes, k);
    TotalSplit(n, k);
    var rest := sizes.Keys - {k};
    assert n.Keys - {k} == rest;
    AscendingLists(rest);
    SumAgrees(n, sizes, Ascending(rest));
  }

  lemma TotalDeleted(sizes: map<nat, nat>, k: nat)
    ensures Total(sizes - {k}) == Total(sizes) - BytesOf(sizes, k)
  {
    TotalSplit(sizes, k);
    var rest := sizes.Keys - {k};
    assert (sizes - {k}).Keys == rest;
    AscendingLists(rest);
    SumAgrees(sizes - {k}, sizes, Ascending(rest));
  }

  // ---------------------------------------------------------------- tool summaries

  /** What a result says about its tool on its own; a command is read only beside an operation. */
  function OwnSummary(o: Outcome): Option<Summary> {
    if o.name.None? then None
    else Some(Summary(o.name.value, o.operation, if o.operation.Some? then o.command else None))
  }

  /** The calls an event announces. */
  function Calls(e: Event): seq<(string, Summary)> {
    if e.AssistantMessage? && e.shown then e.calls else []
  }

  function AddCalls(tools: map<string, Summary>, calls: seq<(string, Summary)>): map<string, Summary> {
    if calls == [] then tools
    else
      var last := calls[|calls| - 1];
      AddCalls(tools, calls[..|calls| - 1])[last.0 := last.1]
  }

  /** The newest call of each identity among these records, in their order. */
  function Tools(events: map<nat, Event>, keys: seq<nat>): map<string, Summary> {
    if keys == [] then map[]
    else
      var last := keys[|keys| - 1];
      AddCalls(Tools(events, keys[..|keys| - 1]), if last in events then Calls(events[last]) else [])
  }

  /** The tool a displayed result is shown with: its call when that is known, otherwise what it says itself. */
  function Resolve(o: Outcome, tools: map<string, Summary>): Option<Summary> {
    if o.call in tools then Some(tools[o.call]) else OwnSummary(o)
  }

  function Or<T>(first: Option<T>, second: Option<T>): Option<T> {
    if first.Some? then first else second
  }

  /** A kept result takes over the summary of its call. */
  function Annotated(o: Outcome, tools: map<string, Summary>): Outcome {
    if o.call !in tools then o
    else
      var t := tools[o.call];
      Outcome(o.call, Some(t.name), Or(t.operation, o.operation), Or(t.command, o.command))
  }

  function AnnotateAll(os: seq<Outcome>, tools: map<string, Summary>): (r: seq<Outcome>)
    ensures |r| == |os| && forall i :: 0 <= i < |os| ==> r[i] == Annotated(os[i], tools)
  {
    if os == [] then [] else AnnotateAll(os[..|os| - 1], tools) + [Annotated(os[|os| - 1], tools)]
  }

  function AnnotateEvent(e: Event, tools: map<string, Summary>): Event {
    if e.ToolResult? && e.shown then e.(outcomes := AnnotateAll(e.outcomes, tools)) else e
  }

  // ---------------------------------------------------------------- the trim itself

  function Keep(limits: Limits): nat {
    Min(32, Max(1, limits.maxRecords / 4))
  }

  function TargetRecords(limits: Limits): nat {
    Max(Keep(limits), limits.maxRecords * 3 / 4)
  }

  /** This many records of this many bytes are more than a trim aims for. */
  predicate Over(records: int, bytes: int, limits: Limits) {
    records > TargetRecords(limits) || 4 * bytes > 3 * limits.maxBytes
  }

  /** Nothing to do: both budgets hold. */
  predicate Fits(records: int, bytes: int, limits: Limits) {
    records <= limits.maxRecords && bytes <= limits.maxBytes
  }

  /** The scan releases the record at n too. */
  predicate Releases(events: map<nat, Event>, sizes: map<nat, nat>, keys: seq<nat>, limits: Limits, n: nat)
    requires n <= |keys|
  {
    && n < |keys| - Keep(limits) && Over(|keys| - n, SumKeys(sizes, keys[n..]), limits)
    && !(keys[n] in events && !Displays(events[keys[n]]))
  }

  /** How many records the scan releases, from n on. */
  function ScanFrom(events: map<nat, Event>, sizes: map<nat, nat>, keys: seq<nat>, limits: Limits, n: nat): (stop: nat)
    requires n <= |keys|
    ensures n <= stop <= |keys|
    decreases |keys| - n
  {
    if Releases(events, sizes, keys, limits, n) then ScanFrom(events, sizes, keys, limits, n + 1) else n
  }

  lemma {:induction false} ScanStops(events: map<nat, Event>, sizes: map<nat, nat>, keys: seq<nat>, limits: Limits, n: nat)
    requires n <= |keys|
    ensures !Releases(events, sizes, keys, limits, ScanFrom(events, sizes, keys, limits, n))
    ensures forall c :: n <= c < ScanFrom(events, sizes, keys, limits, n) ==> Releases(events, sizes, keys, limits, c)
    decreases |keys| - n
  {
    if Releases(events, sizes, keys, limits, n) {
      ScanStops(events, sizes, keys, limits, n + 1);
    }
  }

  ghost function Released(events: map<nat, Event>, sizes: map<nat, nat>, limits: Limits): nat {
    if Fits(|events|, Total(sizes), limits) then 0
    else ScanFrom(events, sizes, Ascending(events.Keys), limits, 0)
  }

  /** What a trim aims for: three quarters of each budget, and never fewer records than the tail it keeps, which is a quarter
    * of the records but at least one and at most 32. */
  lemma TargetsAreThreeQuarters(records: int, bytes: int, limits: Limits)
    ensures var tail := Min(32, Max(1, (limits.maxRecords as real / 4.0).Floor));
            Over(records, bytes, limits)
            <==> records > Max(tail, (limits.maxRecords as real * 0.75).Floor) || bytes as real > limits.maxBytes as real * 0.75
  {
    assert (limits.maxRecords as real / 4.0).Floor == limits.maxRecords / 4;
    assert (limits.maxRecords as real * 0.75).Floor == limits.maxRecords * 3 / 4;
  }

  lemma ScanBegins(events: map<nat, Event>, sizes: map<nat, nat>, keys: seq<nat>, limits: Limits)
    ensures ScanFrom(events, sizes, keys, limits, 0) == 0 <==> !Releases(events, sizes, keys, limits, 0)
  {
  }

  lemma FirstReleases(events: map<nat, Event>, sizes: map<nat, nat>, keys: seq<nat>, limits: Limits)
    requires keys != [] && keys[0] in events
    ensures Releases(events, sizes, keys, limits, 0) <==>
              && |keys| > Keep(limits) && Over(|keys|, SumKeys(sizes, keys), limits)
              && (events[keys[0]].UserMessage? || events[keys[0]].AssistantMessage? || events[keys[0]].ToolResult?)
  {
    assert keys[0..] == keys;
  }

  /** A trim releases nothing exactly when both budgets hold, its targets are met, only the tail is left, or the oldest
    * record is unfinished. */
  lemma ReleasesNothingExactlyWhen(events: map<nat, Event>, sizes: map<nat, nat>, limits: Limits, oldest: nat)
    requires oldest in events && forall k :: k in events ==> oldest <= k
    ensures Released(events, sizes, limits) == 0 <==>
              || (|events| <= limits.maxRecords && Total(sizes) <= limits.maxBytes)
              || !Over(|events|, SumKeys(sizes, Ascending(events.Keys)), limits)
              || |events| <= Keep(limits)
              || events[oldest].Edge? || events[oldest].Piece? || events[oldest].Note?
  {
    var keys := Ascending(events.Keys);
    AscendingLists(events.Keys);
    OldestIsFirst(events.Keys, oldest);
    ScanBegins(events, sizes, keys, limits);
    FirstReleases(events, sizes, keys, limits);
    assert |events.Keys| == |events|;
  }

  lemma OldestIsFirst(s: set<nat>, oldest: nat)
    requires oldest in s && forall k :: k in s ==> oldest <= k
    ensures Ascending(s) != [] && Ascending(s)[0] == oldest
  {
    AscendingLists(s);
    var keys := Ascending(s);
    assert keys != [] by {
      assert oldest in keys;
    }
    var i :| 0 <= i < |keys| && keys[i] == oldest;
    assert keys[0] in keys;
  }

  /** The records after a trim: the first n keys are gone, the kept results are annotated with the calls before them. */
  ghost function Trimmed(events: map<nat, Event>, n: nat): map<nat, Event> {
    var keys := Ascending(events.Keys);
    if n == 0 || n >= |keys| then events
    else
      map k | k in events && keys[n] <= k :: AnnotateEvent(events[k], ToolsBy(events, k))
  }

  /** The calls announced up to a record. */
  ghost function ToolsBy(events: map<nat, Event>, k: nat): map<string, Summary> {
    Tools(events, Ascending(UpTo(events.Keys, k)))
  }

  function UpTo(keys: set<nat>, k: nat): set<nat> {
    set j | j in keys && j <= k
  }

  // ---------------------------------------------------------------- what a trim keeps

  /** The keys from an index on are those at or above its key. */
  lemma TailOfAscending(s: set<nat>, i: nat)
    requires i < |Ascending(s)|
    ensures var keys := Ascending(s); keys[i..] == Ascending(set j | j in s && keys[i] <= j)
  {
    AscendingLists(s);
    var keys := Ascending(s);
    var high := set j | j in s && keys[i] <= j;
    SliceHolds(s, keys, i, |keys|, high);
    AscendingIsUnique(keys[i..], high);
  }

  /** The keys up to and including an index are those at or below its key. */
  lemma HeadOfAscending(s: set<nat>, i: nat)
    requires i < |Ascending(s)|
    ensures var keys := Ascending(s); keys[..i + 1] == Ascending(UpTo(s, keys[i]))
  {
    var keys, low := Ascending(s), UpTo(s, Ascending(s)[i]);
    AscendingLists(s);
    forall x | 0 <= x < |keys|
      ensures keys[x] in low <==> 0 <= x < i + 1
    {
      KeyIsHeld(s, x);
      SliceIsBeyond(s, i, x);
    }
    SliceHolds(s, keys, 0, i + 1, low);
    AscendingIsUnique(keys[..i + 1], low);
  }

  lemma SliceHolds(s: set<nat>, keys: seq<nat>, from: nat, to: nat, part: set<nat>)
    requires IsAscending(keys) && (forall k :: k in keys <==> k in s) && from <= to <= |keys|
    requires forall i :: 0 <= i < |keys| ==> (keys[i] in part <==> from <= i < to)
    requires part <= s
    ensures IsAscending(keys[from..to]) && forall k :: k in keys[from..to] <==> k in part
  {
    forall i, j | 0 <= i < j < to - from
      ensures keys[from..to][i] < keys[from..to][j]
    {
      assert keys[from + i] < keys[from + j];
    }
    forall k
      ensures k in keys[from..to] <==> k in part
    {
      if k in part {
        var i :| 0 <= i < |keys| && keys[i] == k;
        assert keys[from..to][i - from] == k;
      }
      if k in keys[from..to] {
        var i :| 0 <= i < to - from && keys[from..to][i] == k;
        assert keys[from + i] == k;
      }
    }
  }

  /** A trim releases only displayed records, and never the last one. */
  lemma TrimReleasesDisplayed(events: map<nat, Event>, sizes: map<nat, nat>, limits: Limits, i: nat)
    requires i < Released(events, sizes, limits)
    ensures var keys := Ascending(events.Keys);
            && Released(events, sizes, limits) < |keys| && keys[i] in events && Displays(events[keys[i]])
  {
    var keys, n := Ascending(events.Keys), Released(events, sizes, limits);
    ScanStops(events, sizes, keys, limits, 0);
    assert Releases(events, sizes, keys, limits, i) && Releases(events, sizes, keys, limits, n - 1);
    KeyIsHeld(events.Keys, i);
  }

  /** What is left are exactly the records after the first n. */
  lemma TrimLeavesTheTail(events: map<nat, Event>, n: nat, i: nat)
    requires n < |Ascending(events.Keys)| && i < |Ascending(events.Keys)|
    ensures Trimmed(events, n).Keys <= events.Keys
    ensures Ascending(events.Keys)[i] in Trimmed(events, n) <==> n <= i
  {
    KeyIsHeld(events.Keys, i);
    TrimmedHolds(events, n, Ascending(events.Keys)[i]);
    SliceIsBeyond(events.Keys, n, i);
  }

  lemma TrimmedHolds(events: map<nat, Event>, n: nat, k: nat)
    requires n < |Ascending(events.Keys)|
    ensures Trimmed(events, n).Keys <= events.Keys
    ensures k in Trimmed(events, n) <==> k in events && (n == 0 || Ascending(events.Keys)[n] <= k)
  {
  }

  /** It leaves the minimum tail; the scan stops below its targets, at that tail or at an unfinished record. The bytes are
    * those before the kept results are annotated. */
  lemma TrimStopsForAReason(events: map<nat, Event>, sizes: map<nat, nat>, limits: Limits)
    ensures var keys, n := Ascending(events.Keys), Released(events, sizes, limits);
            && n <= |keys| && |keys| == |events|
            && |keys| - n >= Min(|keys|, Keep(limits))
            && var bytes := SumKeys(sizes, keys[n..]);
               || (n == 0 && Fits(|keys|, Total(sizes), limits))
               || !Over(|keys| - n, bytes, limits)
               || |keys| - n <= Keep(limits)
               || (keys[n] in events && !Displays(events[keys[n]]))
  {
    AscendingLists(events.Keys);
    var keys, n := Ascending(events.Keys), Released(events, sizes, limits);
    assert keys[0..] == keys;
    if !Fits(|events|, Total(sizes), limits) {
      ScanStops(events, sizes, keys, limits, 0);
      assert n > 0 ==> Releases(events, sizes, keys, limits, n - 1);
    }
  }

  /** And it releases no more than that: with one record fewer released, the targets were not met. */
  lemma TrimReleasesNoMore(events: map<nat, Event>, sizes: map<nat, nat>, limits: Limits, c: nat)
    requires c < Released(events, sizes, limits)
    ensures c <= |Ascending(events.Keys)|
    ensures Over(|events| - c, SumKeys(sizes, Ascending(events.Keys)[c..]), limits)
  {
    AscendingLists(events.Keys);
    ScanStops(events, sizes, Ascending(events.Keys), limits, 0);
    assert Releases(events, sizes, Ascending(events.Keys), limits, c);
  }

  lemma {:induction false} LastCallWins(tools: map<string, Summary>, other: map<string, Summary>, calls: seq<(string, Summary)>, id: string)
    ensures var a, b := AddCalls(tools, calls), AddCalls(other, calls);
            (id in tools <==> id in other) && (id in tools ==> tools[id] == other[id])
            ==> (id in a <==> id in b) && (id in a ==> a[id] == b[id])
    ensures id in AddCalls(map[], calls) ==>
              id in AddCalls(tools, calls) && AddCalls(tools, calls)[id] == AddCalls(map[], calls)[id]
    ensures id !in AddCalls(map[], calls) ==>
              (id in AddCalls(tools, calls) <==> id in tools) && (id in tools ==> AddCalls(tools, calls)[id] == tools[id])
  {
    if calls != [] {
      LastCallWins(tools, other, calls[..|calls| - 1], id);
    }
  }

  /** Calls announced later win over earlier ones, and only those. */
  lemma {:induction false} LaterToolsWin(events: map<nat, Event>, a: seq<nat>, b: seq<nat>, id: string)
    ensures var early, late, both := Tools(events, a), Tools(events, b), Tools(events, a + b);
            && (id in both <==> id in early || id in late)
            && (id in late ==> both[id] == late[id])
            && (id !in late && id in early ==> both[id] == early[id])
  {
    if b == [] {
      assert a + b == a;
    } else {
      var front, last := b[..|b| - 1], b[|b| - 1];
      assert (a + b)[..|a + b| - 1] == a + front;
      LaterToolsWin(events, a, front, id);
      var calls := if last in events then Calls(events[last]) else [];
      LastCallWins(Tools(events, a + front), Tools(events, front), calls, id);
      LastCallWins(Tools(events, front), Tools(events, front), calls, id);
    }
  }

  lemma {:induction false} ToolsAgree(events: map<nat, Event>, other: map<nat, Event>, keys: seq<nat>)
    requires forall k :: k in keys ==> k in events && k in other && Calls(events[k]) == Calls(other[k])
    ensures Tools(events, keys) == Tools(other, keys)
  {
    if keys != [] {
      assert keys[|keys| - 1] in keys && forall k :: k in keys[..|keys| - 1] ==> k in keys;
      ToolsAgree(events, other, keys[..|keys| - 1]);
    }
  }

  function Between(events: map<nat, Event>, cut: nat, k: nat): set<nat> {
    set j | j in events && cut <= j <= k
  }

  lemma EarlierAndLaterTools(events: map<nat, Event>, cut: nat, k: nat, id: string)
    requires cut <= k
    ensures var all, late := ToolsBy(events, k), Tools(events, Ascending(Between(events, cut, k)));
            id in late ==> id in all && all[id] == late[id]
  {
    var low: set<nat> := set j | j in events && j < cut;
    var high := Between(events, cut, k);
    assert UpTo(events.Keys, k) == low + high;
    AscendingJoin(low, high);
    LaterToolsWin(events, Ascending(low), Ascending(high), id);
  }

  lemma ToolsOfTrimmed(events: map<nat, Event>, n: nat, k: nat)
    requires 0 < n < |Ascending(events.Keys)|
    ensures ToolsBy(Trimmed(events, n), k) == Tools(events, Ascending(Between(events, Ascending(events.Keys)[n], k)))
  {
    var trimmed, cut := Trimmed(events, n), Ascending(events.Keys)[n];
    var high := Between(events, cut, k);
    assert UpTo(trimmed.Keys, k) == high;
    AscendingLists(high);
    forall j | j in Ascending(high)
      ensures j in events && j in trimmed && Calls(events[j]) == Calls(trimmed[j])
    {
      assert trimmed[j] == AnnotateEvent(events[j], ToolsBy(events, j));
    }
    ToolsAgree(events, trimmed, Ascending(high));
  }

  /** The calls known to a kept record are the later ones among all it knew, and what a kept call says is unchanged. */
  lemma KeptTools(events: map<nat, Event>, n: nat, k: nat, id: string)
    requires 0 < n < |Ascending(events.Keys)| && k in Trimmed(events, n)
    ensures var all, kept := ToolsBy(events, k), ToolsBy(Trimmed(events, n), k);
            id in kept ==> id in all && all[id] == kept[id]
  {
    EarlierAndLaterTools(events, Ascending(events.Keys)[n], k, id);
    ToolsOfTrimmed(events, n, k);
  }

  /** The summary a result was annotated with can be read back from it alone. */
  predicate ReadsBack(o: Outcome, t: Summary) {
    (t.operation.Some? || o.operation.None?) && (t.operation.Some? ==> t.command.Some? || o.command.None?)
  }

  /** A kept result is shown with the same tool summary as before the trim: always when its call is kept or was never
    * known, and otherwise exactly when no older annotation of it says more than the call that is released. */
  lemma KeptResultsResolveTheSame(events: map<nat, Event>, n: nat, k: nat, i: nat)
    requires 0 < n < |Ascending(events.Keys)| && k in Trimmed(events, n)
    requires events[k].ToolResult? && events[k].shown && i < |events[k].outcomes|
    requires forall id :: id in ToolsBy(events, k) ==>
               (ToolsBy(events, k)[id].command.Some? ==> ToolsBy(events, k)[id].operation.Some?)
    ensures Trimmed(events, n)[k].ToolResult? && |Trimmed(events, n)[k].outcomes| == |events[k].outcomes|
    ensures var all, kept, o := ToolsBy(events, k), ToolsBy(Trimmed(events, n), k), events[k].outcomes[i];
            Resolve(Trimmed(events, n)[k].outcomes[i], kept) == Resolve(o, all)
            <==> (o.call in all && o.call !in kept ==> ReadsBack(o, all[o.call]))
  {
    KeptTools(events, n, k, events[k].outcomes[i].call);
  }

  /** A result as the host reports it carries no summary, so its first trim always resolves the same. */
  lemma HostResultsReadBack(o: Outcome, t: Summary)
    requires o.operation.None? && o.command.None?
    ensures ReadsBack(o, t)
    ensures (t.command.Some? ==> t.operation.Some?) ==> OwnSummary(Annotated(o, map[o.call := t])) == Some(t)
  {
  }

  // ---------------------------------------------------------------- the bytes after a trim

  /** The account of a store: one record's bytes are its own. */
  ghost function SizesOf(events: map<nat, Event>, sizeOf: Event -> nat): map<nat, nat> {
    map k | k in events :: sizeOf(events[k])
  }

  /** What annotating these kept records adds to the account; less than nothing when the rewritten results are smaller. */
  ghost function Grown(events: map<nat, Event>, sizeOf: Event -> nat, keys: seq<nat>): int {
    if keys == [] then 0
    else
      var last := keys[|keys| - 1];
      Grown(events, sizeOf, keys[..|keys| - 1])
      + if last in events then sizeOf(AnnotateEvent(events[last], ToolsBy(events, last))) - sizeOf(events[last]) else 0
  }

  lemma {:induction false} GrownSums(events: map<nat, Event>, after: map<nat, Event>, sizeOf: Event -> nat, keys: seq<nat>)
    requires forall k :: k in keys ==>
               k in events && k in after && after[k] == AnnotateEvent(events[k], ToolsBy(events, k))
    ensures SumKeys(SizesOf(after, sizeOf), keys) == SumKeys(SizesOf(events, sizeOf), keys) + Grown(events, sizeOf, keys)
  {
    if keys != [] {
      assert keys[|keys| - 1] in keys && forall k :: k in keys[..|keys| - 1] ==> k in keys;
      GrownSums(events, after, sizeOf, keys[..|keys| - 1]);
    }
  }

  lemma {:induction false} NothingGrows(events: map<nat, Event>, sizeOf: Event -> nat, keys: seq<nat>)
    requires forall k :: k in keys && k in events ==> AnnotateEvent(events[k], ToolsBy(events, k)) == events[k]
    ensures Grown(events, sizeOf, keys) == 0
  {
    if keys != [] {
      assert keys[|keys| - 1] in keys && forall k :: k in keys[..|keys| - 1] ==> k in keys;
      NothingGrows(events, sizeOf, keys[..|keys| - 1]);
    }
  }

  lemma TrimmedKeys(events: map<nat, Event>, n: nat)
    requires 0 < n < |Ascending(events.Keys)|
    ensures Ascending(Trimmed(events, n).Keys) == Ascending(events.Keys)[n..]
    ensures |Trimmed(events, n)| == |events| - n
  {
    var keys, trimmed := Ascending(events.Keys), Trimmed(events, n);
    TailOfAscending(events.Keys, n);
    assert trimmed.Keys == set j | j in events.Keys && keys[n] <= j;
    AscendingLists(events.Keys);
    AscendingLists(trimmed.Keys);
  }

  /** The bytes the scan counts when it has released n records: those the kept ones have before they are annotated. */
  ghost function Scanned(events: map<nat, Event>, sizeOf: Event -> nat, n: nat): nat
    requires n <= |Ascending(events.Keys)|
  {
    SumKeys(SizesOf(events, sizeOf), Ascending(events.Keys)[n..])
  }

  /** What annotating the records kept after the first n adds. */
  ghost function Added(events: map<nat, Event>, sizeOf: Event -> nat, n: nat): int
    requires n <= |Ascending(events.Keys)|
  {
    Grown(events, sizeOf, Ascending(events.Keys)[n..])
  }

  /** The account of a store. */
  ghost function Stored(events: map<nat, Event>, sizeOf: Event -> nat): nat {
    Total(SizesOf(events, sizeOf))
  }

  /** How many records a trim of this store releases. */
  ghost function ReleasedOf(events: map<nat, Event>, sizeOf: Event -> nat, limits: Limits): nat {
    Released(events, SizesOf(events, sizeOf), limits)
  }

  lemma StoredIsSum(events: map<nat, Event>, sizeOf: Event -> nat)
    ensures Stored(events, sizeOf) == SumKeys(SizesOf(events, sizeOf), Ascending(events.Keys))
  {
    assert SizesOf(events, sizeOf).Keys == events.Keys;
  }

  lemma KeptAreAnnotated(events: map<nat, Event>, n: nat)
    requires 0 < n < |Ascending(events.Keys)|
    ensures forall k :: k in Ascending(events.Keys)[n..] ==>
              k in events && k in Trimmed(events, n) && Trimmed(events, n)[k] == AnnotateEvent(events[k], ToolsBy(events, k))
  {
    var keys := Ascending(events.Keys);
    forall k | k in keys[n..]
      ensures k in events && keys[n] <= k
    {
      var i :| n <= i < |keys| && keys[i] == k;
      KeyIsHeld(events.Keys, i);
      SliceIsBeyond(events.Keys, n, i);
    }
  }

  /** The account after releasing n records: what the scan counted, and what annotating the kept results added. */
  lemma BytesAfterTrim(events: map<nat, Event>, sizeOf: Event -> nat, n: nat)
    requires 0 < n < |Ascending(events.Keys)|
    ensures Stored(Trimmed(events, n), sizeOf) == Scanned(events, sizeOf, n) + Added(events, sizeOf, n)
  {
    TrimmedKeys(events, n);
    StoredIsSum(Trimmed(events, n), sizeOf);
    KeptAreAnnotated(events, n);
    GrownSums(events, Trimmed(events, n), sizeOf, Ascending(events.Keys)[n..]);
  }

  /** The trim has nothing more to release: one of the two things that end a scan early did. */
  ghost predicate Stopped(events: map<nat, Event>, limits: Limits, n: nat) {
    var keys := Ascending(events.Keys);
    |keys| <= n + Keep(limits) || (n < |keys| && keys[n] in events && !Displays(events[keys[n]]))
  }

  lemma ScanMeetsItsTargets(events: map<nat, Event>, sizeOf: Event -> nat, limits: Limits)
    ensures var n := ReleasedOf(events, sizeOf, limits);
            && n <= |Ascending(events.Keys)| && (n > 0 ==> n < |Ascending(events.Keys)|)
            && (!Stopped(events, limits, n) && !(n == 0 && Fits(|events|, Stored(events, sizeOf), limits))
                ==> !Over(|events| - n, Scanned(events, sizeOf, n), limits))
  {
    var sizes := SizesOf(events, sizeOf);
    TrimStopsForAReason(events, sizes, limits);
    if Released(events, sizes, limits) > 0 {
      TrimReleasesDisplayed(events, sizes, limits, 0);
    }
  }

  /** A trim that neither the tail nor an unfinished record stops leaves a store within its targets exactly when what the
    * annotations added fits beside the bytes the scan counted. */
  lemma TargetsMetExactlyWhenGrowthFits(events: map<nat, Event>, sizeOf: Event -> nat, limits: Limits)
    requires var n := ReleasedOf(events, sizeOf, limits); n > 0 && !Stopped(events, limits, n)
    ensures var n := ReleasedOf(events, sizeOf, limits);
            && n < |Ascending(events.Keys)|
            && (!Over(|Trimmed(events, n)|, Stored(Trimmed(events, n), sizeOf), limits)
                <==> 4 * (Scanned(events, sizeOf, n) + Added(events, sizeOf, n)) <= 3 * limits.maxBytes)
  {
    var n := ReleasedOf(events, sizeOf, limits);
    ScanMeetsItsTargets(events, sizeOf, limits);
    TrimmedKeys(events, n);
    BytesAfterTrim(events, sizeOf, n);
  }

  /** What a trim annotated, annotating again leaves as it is. */
  lemma AnnotatedOnce(events: map<nat, Event>, n: nat, k: nat)
    requires 0 < n < |Ascending(events.Keys)| && k in Trimmed(events, n)
    ensures var after := Trimmed(events, n); AnnotateEvent(after[k], ToolsBy(after, k)) == after[k]
  {
    var all, kept := ToolsBy(events, k), ToolsBy(Trimmed(events, n), k);
    forall id | id in kept
      ensures id in all && all[id] == kept[id]
    {
      KeptTools(events, n, k, id);
    }
    AnnotatedAgain(events[k], all, kept);
  }

  /** A record that annotating once more would leave as it is. */
  ghost predicate Settled(events: map<nat, Event>, k: nat) {
    k in events ==> AnnotateEvent(events[k], ToolsBy(events, k)) == events[k]
  }

  /** What annotating the records of some keys adds, those of an earlier store left aside. */
  ghost function GrownSince(events: map<nat, Event>, sizeOf: Event -> nat, keys: seq<nat>, before: set<nat>): int {
    if keys == [] then 0
    else
      var last := keys[|keys| - 1];
      GrownSince(events, sizeOf, keys[..|keys| - 1], before)
      + if last in events && last !in before
        then sizeOf(AnnotateEvent(events[last], ToolsBy(events, last))) - sizeOf(events[last]) else 0
  }

  lemma {:induction false} SettledDoNotGrow(events: map<nat, Event>, sizeOf: Event -> nat, keys: seq<nat>, before: set<nat>)
    requires forall k :: k in before ==> Settled(events, k)
    ensures Grown(events, sizeOf, keys) == GrownSince(events, sizeOf, keys, before)
  {
    if keys != [] {
      SettledDoNotGrow(events, sizeOf, keys[..|keys| - 1], before);
      assert keys[|keys| - 1] in before ==> Settled(events, keys[|keys| - 1]);
    }
  }

  /** The store some time after a trim of n records: what the trim left is as it was left, of what it released the newest
    * part, from some key on, may have been read back, and everything else came later. Undisplayed records may be gone. */
  ghost predicate Continues(events: map<nat, Event>, n: nat, low: nat, later: map<nat, Event>)
    requires 0 < n < |Ascending(events.Keys)|
  {
    ContinuesAt(events, Trimmed(events, n), Ascending(events.Keys)[n], low, later)
  }

  ghost predicate ContinuesAt(events: map<nat, Event>, left: map<nat, Event>, cut: nat, low: nat, later: map<nat, Event>) {
    && low <= cut
    && (forall k :: k in left && Displays(left[k]) ==> k in later)
    && (forall k :: k in left && k in later ==> later[k] == left[k])
    && (forall k :: k in events && low <= k < cut && Displays(events[k]) ==> k in later)
    && (forall k :: k in later && k < cut ==> low <= k && k in events && later[k] == events[k])
    && (forall j, k :: j in later && cut <= j && j !in left && k in left ==> k < j)
  }

  /** Records that announce no call may be left out. */
  lemma {:induction false} CallessDoNotMatter(events: map<nat, Event>, all: set<nat>, some: set<nat>)
    requires some <= all && forall k :: k in all - some && k in events ==> Calls(events[k]) == []
    ensures Tools(events, Ascending(all)) == Tools(events, Ascending(some))
    decreases |all|
  {
    if all != {} {
      var m := MaxOf(all);
      AscendingStep(all, m);
      CallessDoNotMatter(events, all - {m}, some - {m});
      if m in some {
        AscendingStep(some, m);
      } else {
        assert some - {m} == some;
      }
    }
  }

  /** What a store knows of earlier calls at a kept record is then part of what it knew before the trim. */
  lemma ToolsOfContinued(events: map<nat, Event>, n: nat, low: nat, later: map<nat, Event>, k: nat)
    requires 0 < n < |Ascending(events.Keys)| && Continues(events, n, low, later) && k in Trimmed(events, n)
    ensures ToolsBy(later, k) == Tools(events, Ascending(Between(events, low, k)))
  {
    var all, known := Between(events, low, k), UpTo(later.Keys, k);
    forall j | j in known
      ensures j in all && Calls(later[j]) == Calls(events[j])
    {
      TrimmedHolds(events, n, j);
      CallsAreKept(events, n, j);
    }
    forall j | j in all - known
      ensures Calls(events[j]) == []
    {
      TrimmedHolds(events, n, j);
      CallsAreKept(events, n, j);
    }
    AscendingLists(known);
    ToolsAgree(later, events, Ascending(known));
    CallessDoNotMatter(events, all, known);
  }

  lemma CallsAreKept(events: map<nat, Event>, n: nat, k: nat)
    requires k in events
    ensures k in Trimmed(events, n) ==>
              Calls(Trimmed(events, n)[k]) == Calls(events[k]) && (Displays(Trimmed(events, n)[k]) <==> Displays(events[k]))
  {
  }

  /** Neither records that come later nor those read back change how a kept record is annotated. */
  lemma LeftStaysSettled(events: map<nat, Event>, n: nat, low: nat, later: map<nat, Event>, k: nat)
    requires 0 < n < |Ascending(events.Keys)| && Continues(events, n, low, later) && k in Trimmed(events, n)
    ensures Settled(later, k)
  {
    ToolsOfContinued(events, n, low, later, k);
    TrimmedHolds(events, n, k);
    var all, known := ToolsBy(events, k), ToolsBy(later, k);
    forall id | id in known
      ensures id in all && all[id] == known[id]
    {
      EarlierAndLaterTools(events, low, k, id);
    }
    assert k in later ==> later[k] == AnnotateEvent(events[k], all);
    AnnotatedAgain(events[k], all, known);
  }

  /** A second annotation by calls among those of the first changes nothing. */
  lemma AnnotatedAgain(e: Event, all: map<string, Summary>, known: map<string, Summary>)
    requires forall id :: id in known ==> id in all && all[id] == known[id]
    ensures AnnotateEvent(AnnotateEvent(e, all), known) == AnnotateEvent(e, all)
  {
    if e.ToolResult? && e.shown {
      var once := AnnotateAll(e.outcomes, all);
      forall i | 0 <= i < |once|
        ensures Annotated(once[i], known) == once[i]
      {
        assert once[i] == Annotated(e.outcomes[i], all);
      }
      assert AnnotateAll(once, known) == once;
    }
  }

  /** What the next trim adds, it adds to records that were stored, or read back, since this one. */
  lemma NextTrimGrowsTheNew(events: map<nat, Event>, sizeOf: Event -> nat, n: nat, low: nat, later: map<nat, Event>, m: nat)
    requires 0 < n < |Ascending(events.Keys)| && Continues(events, n, low, later) && m <= |Ascending(later.Keys)|
    ensures Added(later, sizeOf, m) == GrownSince(later, sizeOf, Ascending(later.Keys)[m..], Trimmed(events, n).Keys)
  {
    var left := Trimmed(events, n);
    forall k | k in left.Keys
      ensures Settled(later, k)
    {
      LeftStaysSettled(events, n, low, later, k);
    }
    SettledDoNotGrow(later, sizeOf, Ascending(later.Keys)[m..], left.Keys);
  }

  /** So the trim after this one, when neither the tail nor an unfinished record stops it, leaves the store within its
    * targets exactly when what the annotations added to the records stored in between fits. */
  lemma NextTrimMeetsItsTargetsExactlyWhen(events: map<nat, Event>, sizeOf: Event -> nat, n: nat, low: nat,
                                           later: map<nat, Event>, limits: Limits)
    requires 0 < n < |Ascending(events.Keys)| && Continues(events, n, low, later)
    requires var m := ReleasedOf(later, sizeOf, limits); m > 0 && !Stopped(later, limits, m)
    ensures var m, keys := ReleasedOf(later, sizeOf, limits), Ascending(later.Keys);
            && m < |keys|
            && (!Over(|Trimmed(later, m)|, Stored(Trimmed(later, m), sizeOf), limits)
                <==> 4 * (Scanned(later, sizeOf, m) + GrownSince(later, sizeOf, keys[m..], Trimmed(events, n).Keys))
                     <= 3 * limits.maxBytes)
  {
    TargetsMetExactlyWhenGrowthFits(later, sizeOf, limits);
    NextTrimGrowsTheNew(events, sizeOf, n, low, later, ReleasedOf(later, sizeOf, limits));
  }

  /** In particular when nothing was stored in between that annotating changes, it always does. */
  lemma NextTrimMeetsItsTargets(events: map<nat, Event>, sizeOf: Event -> nat, n: nat, low: nat, later: map<nat, Event>,
                                limits: Limits)
    requires 0 < n < |Ascending(events.Keys)| && Continues(events, n, low, later)
    requires forall k :: k in later && k !in Trimmed(events, n) ==> Settled(later, k)
    ensures var m := ReleasedOf(later, sizeOf, limits);
            || !Over(|Trimmed(later, m)|, Stored(Trimmed(later, m), sizeOf), limits)
            || Stopped(later, limits, m)
            || (m == 0 && Fits(|later|, Stored(later, sizeOf), limits))
  {
    var m := ReleasedOf(later, sizeOf, limits);
    ScanMeetsItsTargets(later, sizeOf, limits);
    forall k | k in Ascending(later.Keys)[m..] && k in later
      ensures AnnotateEvent(later[k], ToolsBy(later, k)) == later[k]
    {
      if k in Trimmed(events, n) {
        LeftStaysSettled(events, n, low, later, k);
      }
      assert Settled(later, k);
    }
    NothingGrows(later, sizeOf, Ascending(later.Keys)[m..]);
    UngrownTrimMeetsItsTargets(later, sizeOf, limits);
  }

  lemma UngrownTrimMeetsItsTargets(once: map<nat, Event>, sizeOf: Event -> nat, limits: Limits)
    requires var m := ReleasedOf(once, sizeOf, limits); m <= |Ascending(once.Keys)| && Added(once, sizeOf, m) == 0
    ensures var m := ReleasedOf(once, sizeOf, limits);
            || !Over(|Trimmed(once, m)|, Stored(Trimmed(once, m), sizeOf), limits)
            || Stopped(once, limits, m)
            || (m == 0 && Fits(|once|, Stored(once, sizeOf), limits))
  {
    var m := ReleasedOf(once, sizeOf, limits);
    ScanMeetsItsTargets(once, sizeOf, limits);
    if m > 0 && !Stopped(once, limits, m) {
      TargetsMetExactlyWhenGrowthFits(once, sizeOf, limits);
    } else if m == 0 {
      assert Ascending(once.Keys)[0..] == Ascending(once.Keys);
      StoredIsSum(once, sizeOf);
    }
  }

  /** A call, its bare result and a prompt: the trim releases the call and writes its summary into the result. */
  function CallThenResult(call: Event, bare: Event): map<nat, Event> {
    map[0 := call, 1 := bare, 2 := UserMessage(true)]
  }

  lemma CallIsKnown(events: map<nat, Event>, id: string, summary: Summary)
    requires events.Keys == {0, 1, 2} && events[0] == AssistantMessage(true, [(id, summary)]) && events[1].ToolResult?
    ensures ToolsBy(events, 1) == map[id := summary]
  {
    assert UpTo(events.Keys, 1) == {0, 1} && [0, 1][..1] == [0];
    AscendingIsUnique([0, 1], {0, 1});
    var calls := Calls(events[0]);
    assert calls[..0] == [] && Tools(events, [0][..0]) == map[];
    assert AddCalls(map[], calls) == map[id := summary];
    assert Tools(events, [0]) == map[id := summary];
  }

  lemma SumOfTwo(sizes: map<nat, nat>, a: nat, b: nat)
    requires a in sizes && b in sizes
    ensures SumKeys(sizes, [a, b]) == sizes[a] + sizes[b]
  {
    assert [a, b][..1] == [a] && [a][..0] == [] && SumKeys(sizes, [a]) == sizes[a];
  }

  lemma ScanReleasesOne(events: map<nat, Event>, sizes: map<nat, nat>)
    requires events.Keys == {0, 1, 2} && forall k :: k in events ==> Displays(events[k])
    requires sizes == map[0 := 50, 1 := 60, 2 := 10]
    ensures SumKeys(sizes, [0, 1, 2]) == 120 && SumKeys(sizes, [0, 1, 2][1..]) == 70
    ensures ScanFrom(events, sizes, [0, 1, 2], Limits(4, 100), 0) == 1
  {
    var keys, limits := [0, 1, 2], Limits(4, 100);
    assert keys[0..] == keys && keys[..2] == [0, 1] && keys[1..] == [1, 2];
    SumOfTwo(sizes, 1, 2);
    SumOfTwo(sizes, 0, 1);
    assert !Releases(events, sizes, keys, limits, 1);
    assert ScanFrom(events, sizes, keys, limits, 1) == 1;
    assert Releases(events, sizes, keys, limits, 0);
  }

  lemma CallIsReleased(events: map<nat, Event>, sizeOf: Event -> nat)
    requires events.Keys == {0, 1, 2} && forall k :: k in events ==> Displays(events[k])
    requires sizeOf(events[0]) == 50 && sizeOf(events[1]) == 60 && sizeOf(events[2]) == 10
    ensures Ascending(events.Keys) == [0, 1, 2] && ReleasedOf(events, sizeOf, Limits(4, 100)) == 1
    ensures Scanned(events, sizeOf, 1) == 70
  {
    var sizes, keys := SizesOf(events, sizeOf), [0, 1, 2];
    AscendingIsUnique(keys, events.Keys);
    assert sizes.Keys == events.Keys;
    ScanReleasesOne(events, sizes);
  }

  lemma CallWritesIntoResult(events: map<nat, Event>, sizeOf: Event -> nat, id: string, summary: Summary)
    requires events.Keys == {0, 1, 2} && events[0] == AssistantMessage(true, [(id, summary)])
    requires events[1] == ToolResult(true, [Bare(id)]) && events[2] == UserMessage(true)
    ensures Grown(events, sizeOf, [1, 2]) == sizeOf(AnnotateEvent(events[1], map[id := summary])) - sizeOf(events[1])
  {
    CallIsKnown(events, id, summary);
    GrownOfTwo(events, sizeOf, 1, 2);
  }

  /** Of two records the second of which is no result, only the first may grow. */
  lemma GrownOfTwo(events: map<nat, Event>, sizeOf: Event -> nat, a: nat, b: nat)
    requires a in events && b in events && !events[b].ToolResult?
    ensures Grown(events, sizeOf, [a, b]) == sizeOf(AnnotateEvent(events[a], ToolsBy(events, a))) - sizeOf(events[a])
  {
    assert [a, b][..1] == [a] && [a][..0] == [] && Grown(events, sizeOf, [a][..0]) == 0;
    assert Grown(events, sizeOf, [a]) == sizeOf(AnnotateEvent(events[a], ToolsBy(events, a))) - sizeOf(events[a]);
  }

  /** A result that says nothing of its tool. */
  function Bare(id: string): Outcome {
    Outcome(id, None, None, None)
  }

  /** The targets of a trim are not promised of what it leaves: the released call's summary moves into the kept result, and
    * when that is large enough even the budget itself is exceeded, with neither the tail nor an unfinished record in the
    * way. */
  lemma AnnotationExceedsTheTarget(sizeOf: Event -> nat, id: string, summary: Summary)
    requires sizeOf(AssistantMessage(true, [(id, summary)])) == 50
    requires sizeOf(ToolResult(true, [Bare(id)])) == 60 && sizeOf(UserMessage(true)) == 10
    ensures var events := CallThenResult(AssistantMessage(true, [(id, summary)]), ToolResult(true, [Bare(id)]));
            var full := ToolResult(true, [Annotated(Bare(id), map[id := summary])]);
            && ReleasedOf(events, sizeOf, Limits(4, 100)) == 1 && !Stopped(events, Limits(4, 100), 1)
            && Stored(Trimmed(events, 1), sizeOf) == sizeOf(full) + 10
            && (Over(2, Stored(Trimmed(events, 1), sizeOf), Limits(4, 100)) <==> sizeOf(full) > 65)
            && (!Fits(2, Stored(Trimmed(events, 1), sizeOf), Limits(4, 100)) <==> sizeOf(full) > 90)
  {
    var bare := ToolResult(true, [Bare(id)]);
    var events := CallThenResult(AssistantMessage(true, [(id, summary)]), bare);
    CallIsReleased(events, sizeOf);
    BytesAfterTrim(events, sizeOf, 1);
    CallWritesIntoResult(events, sizeOf, id, summary);
    assert [0, 1, 2][1..] == [1, 2];
    BareIsAnnotated(id, summary);
  }

  const TwoPrompts: map<nat, Event> := map[0 := UserMessage(true), 1 := UserMessage(true)]

  /** What a trim left after two prompts, and a call with its result and a prompt that came later. */
  function CallLater(id: string, summary: Summary): map<nat, Event> {
    map[1 := UserMessage(true), 2 := AssistantMessage(true, [(id, summary)]), 3 := ToolResult(true, [Bare(id)]),
        4 := UserMessage(true)]
  }

  lemma OneOfTwoLeft()
    ensures Ascending(TwoPrompts.Keys) == [0, 1]
    ensures Trimmed(TwoPrompts, 1).Keys == {1} && Trimmed(TwoPrompts, 1)[1] == UserMessage(true)
  {
    assert TwoPrompts.Keys == {0, 1};
    AscendingIsUnique([0, 1], TwoPrompts.Keys);
    OnlySecondIsLeft(TwoPrompts);
  }

  lemma OnlySecondIsLeft(events: map<nat, Event>)
    requires Ascending(events.Keys) == [0, 1] && 1 in events && events[1].UserMessage?
    ensures Trimmed(events, 1).Keys == {1} && Trimmed(events, 1)[1] == events[1]
  {
    assert [0, 1][1..] == [1];
    TrimmedKeys(events, 1);
    OneKey(Trimmed(events, 1).Keys, 1);
    KeptAreAnnotated(events, 1);
  }

  lemma OneKey(keys: set<nat>, k: nat)
    requires Ascending(keys) == [k]
    ensures keys == {k}
  {
    AscendingLists(keys);
  }

  lemma KeysOfCallLater(id: string, summary: Summary)
    ensures Ascending(CallLater(id, summary).Keys) == [1, 2, 3, 4]
    ensures Ascending(UpTo(CallLater(id, summary).Keys, 3)) == [1, 2, 3]
  {
    var keys := CallLater(id, summary).Keys;
    assert keys == {1, 2, 3, 4} && UpTo(keys, 3) == {1, 2, 3};
    AscendingIsUnique([1, 2, 3, 4], keys);
    AscendingIsUnique([1, 2, 3], UpTo(keys, 3));
  }

  lemma CallIsKnownLater(id: string, summary: Summary)
    ensures ToolsBy(CallLater(id, summary), 3) == map[id := summary]
  {
    var later, call := CallLater(id, summary), [(id, summary)];
    KeysOfCallLater(id, summary);
    assert [1, 2, 3][..2] == [1, 2] && [1, 2][..1] == [1] && [1][..0] == [];
    OneCall(id, summary);
    assert Tools(later, [1]) == map[];
    assert Tools(later, [1, 2]) == AddCalls(map[], call);
  }

  lemma OneCall(id: string, summary: Summary)
    ensures AddCalls(map[], [(id, summary)]) == map[id := summary]
  {
    assert [(id, summary)][..0] == [];
  }

  lemma BareIsAnnotated(id: string, summary: Summary)
    ensures AnnotateEvent(ToolResult(true, [Bare(id)]), map[id := summary])
            == ToolResult(true, [Annotated(Bare(id), map[id := summary])])
  {
    assert AnnotateAll([Bare(id)], map[id := summary]) == [Annotated(Bare(id), map[id := summary])];
  }

  lemma CallContinues(left: map<nat, Event>, id: string, summary: Summary)
    requires left.Keys == {1} && left[1] == UserMessage(true)
    ensures ContinuesAt(TwoPrompts, left, 1, 1, CallLater(id, summary))
  {
  }

  lemma CallLaterGrows(sizeOf: Event -> nat, id: string, summary: Summary)
    ensures |Ascending(CallLater(id, summary).Keys)| == 4
    ensures Added(CallLater(id, summary), sizeOf, 2)
            == sizeOf(ToolResult(true, [Annotated(Bare(id), map[id := summary])])) - sizeOf(ToolResult(true, [Bare(id)]))
  {
    KeysOfCallLater(id, summary);
    CallIsKnownLater(id, summary);
    BareIsAnnotated(id, summary);
    assert [1, 2, 3, 4][2..] == [3, 4];
    GrownOfTwo(CallLater(id, summary), sizeOf, 3, 4);
  }

  /** Growth is not over after the first trim: a result stored in between grows in the next one as it would have before. */
  lemma NewResultGrows(sizeOf: Event -> nat, id: string, summary: Summary)
    ensures |Ascending(TwoPrompts.Keys)| == 2 && Continues(TwoPrompts, 1, 1, CallLater(id, summary))
    ensures |Ascending(CallLater(id, summary).Keys)| == 4
    ensures Added(CallLater(id, summary), sizeOf, 2)
            == sizeOf(ToolResult(true, [Annotated(Bare(id), map[id := summary])])) - sizeOf(ToolResult(true, [Bare(id)]))
  {
    OneOfTwoLeft();
    CallContinues(Trimmed(TwoPrompts, 1), id, summary);
    CallLaterGrows(sizeOf, id, summary);
  }
}
