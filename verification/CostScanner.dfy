/** Paging one session's history backwards into its billing events (src/cost/scanner.ts).
  *
  * The host is any function of the call number and the sequence asked for; it may fail, repeat itself or answer
  * nonsense at any call. A cancelled scan is a host failure. */
module CostScanner {
  import opened Collections
  import opened CostRecords

  /** A wire record: its sequence when that is a safe integer, and the billing event it carries, if any. */
  datatype Record = Record(seqNo: Option<int>, billing: Option<Event>)

  datatype Page = Page(records: seq<Record>, hasMore: bool)

  datatype Reply = Read(page: Page) | Broken(error: string)

  /** The host's answer to its n-th page request, for records before a sequence. */
  type Host = (nat, int) -> Reply

  datatype Result = Found(events: seq<Event>) | Failed(error: string)

  predicate SafeSeq(n: Option<int>) {
    n.Some? && -MaxSafe <= n.value <= MaxSafe
  }

  /** The billing events of one page, in page order. */
  function Billing(records: seq<Record>): seq<Event> {
    if records == [] then []
    else
      var last := records[|records| - 1];
      Billing(records[..|records| - 1]) + if last.billing.Some? then [last.billing.value] else []
  }

  predicate AllSafe(records: seq<Record>) {
    forall i :: 0 <= i < |records| ==> SafeSeq(records[i].seqNo)
  }

  /** The smallest sequence of a page. */
  function Oldest(records: seq<Record>): (m: int)
    requires records != [] && AllSafe(records)
    ensures -MaxSafe <= m <= MaxSafe
    ensures forall i :: 0 <= i < |records| ==> m <= records[i].seqNo.value
    ensures exists i :: 0 <= i < |records| && m == records[i].seqNo.value
  {
    var last := records[|records| - 1].seqNo.value;
    if |records| == 1 then last
    else
      var front := Oldest(records[..|records| - 1]);
      if front < last then front else last
  }

  /** A page that claims more but holds nothing older than what was asked for. */
  predicate Stuck(page: Page, beforeSeq: int) {
    page.hasMore && forall i :: 0 <= i < |page.records| ==>
                      page.records[i].seqNo.Some? && page.records[i].seqNo.value >= beforeSeq
  }

  /** Some event ends a fork's inherited history. */
  predicate NamesInheritance(events: seq<Event>) {
    exists e :: e in events && e.kind.Seed? && e.inherited
  }

  /** A usable page that claims more reaches below the last sequence asked for. */
  predicate Advances(page: Page, bound: int) {
    page.hasMore && page.records != [] && AllSafe(page.records) ==> Oldest(page.records) < bound
  }

  /** Read on from a page: everything the host still has, or the first failure. */
  function Scan(host: Host, calls: nat, page: Page, events: seq<Event>, bound: int): Result
    requires Advances(page, bound) && bound >= -MaxSafe
    decreases bound + MaxSafe
  {
    var all := events + Billing(page.records);
    if !page.hasMore then Found(all)
    else if page.records == [] || !AllSafe(page.records) then Failed("Invalid cost history page")
    else
      var beforeSeq := Oldest(page.records);
      var reply := host(calls, beforeSeq);
      if reply.Broken? then Failed(reply.error)
      else if Stuck(reply.page, beforeSeq) then Failed("Cost history page did not advance")
      else
        UnstuckAdvances(reply.page, beforeSeq);
        Scan(host, calls + 1, reply.page, all, beforeSeq)
  }

  lemma UnstuckAdvances(page: Page, beforeSeq: int)
    requires !Stuck(page, beforeSeq)
    ensures Advances(page, beforeSeq)
  {
  }

  function Finish(result: Result, seeded: bool): Result {
    if result.Found? && seeded && !NamesInheritance(result.events)
    then Failed("Cannot attribute inherited session usage") else result
  }

  /** The history of one session. Every page asked for is strictly older than the one before, so the loop ends for any
    * host. */
  method ReadHistory(host: Host, opening: Page, seeded: bool) returns (result: Result, asked: seq<int>)
    ensures result == Finish(Scan(host, 0, opening, [], MaxSafe + 1), seeded)
    ensures forall i, j :: 0 <= i < j < |asked| ==> asked[i] > asked[j]
    ensures forall i :: 0 <= i < |asked| ==> -MaxSafe <= asked[i] <= MaxSafe
  {
    var page, events := opening, [];
    asked := [];
    var bound := MaxSafe + 1;
    while true
      invariant Advances(page, bound) && -MaxSafe <= bound <= MaxSafe + 1
      invariant Scan(host, 0, opening, [], MaxSafe + 1) == Scan(host, |asked|, page, events, bound)
      invariant forall i :: 0 <= i < |asked| ==> bound <= asked[i] <= MaxSafe
      invariant forall i, j :: 0 <= i < j < |asked| ==> asked[i] > asked[j]
      decreases bound + MaxSafe
    {
      events := events + Billing(page.records);
      if !page.hasMore {
        break;
      }
      if page.records == [] || !AllSafe(page.records) {
        return Failed("Invalid cost history page"), asked;
      }
      var beforeSeq := Oldest(page.records);
      var reply := host(|asked|, beforeSeq);
      asked := asked + [beforeSeq];
      if reply.Broken? {
        return Failed(reply.error), asked;
      }
      if Stuck(reply.page, beforeSeq) {
        return Failed("Cost history page did not advance"), asked;
      }
      UnstuckAdvances(reply.page, beforeSeq);
      page, bound := reply.page, beforeSeq;
    }
    if seeded && !NamesInheritance(events) {
      return Failed("Cannot attribute inherited session usage"), asked;
    }
    return Found(events), asked;
  }

  // ---------------------------------------------------------------- a host with one log

  /** A log: ascending safe sequences, and billing events under their record's own sequence. */
  ghost predicate IsLog(log: seq<Record>) {
    && AllSafe(log)
    && (forall i, j :: 0 <= i < j < |log| ==> log[i].seqNo.value < log[j].seqNo.value)
    && (forall i :: 0 <= i < |log| && log[i].billing.Some? ==> log[i].billing.value.seqNo == log[i].seqNo.value)
  }

  /** The window of a log from one index to another. */
  function Window(log: seq<Record>, from: nat, to: nat): Page
    requires from <= to <= |log|
  {
    Page(log[from..to], from > 0)
  }

  ghost predicate IsWindowBefore(log: seq<Record>, reply: Reply, to: nat)
    requires to <= |log|
  {
    exists from: nat :: from < to && reply == Read(Window(log, from, to))
  }

  /** Asked for what comes before one of its records, the host answers the records right before it, as many as it likes. */
  ghost predicate Contiguous(host: Host, log: seq<Record>)
    requires IsLog(log)
  {
    forall calls: nat, to: nat :: 0 < to < |log| ==> IsWindowBefore(log, host(calls, log[to].seqNo.value), to)
  }

  lemma OldestOfWindow(log: seq<Record>, from: nat, to: nat)
    requires IsLog(log) && from < to <= |log|
    ensures AllSafe(log[from..to]) && Oldest(log[from..to]) == log[from].seqNo.value
  {
    assert log[from..to][0] == log[from];
  }

  lemma {:induction false} BillingJoin(a: seq<Record>, b: seq<Record>)
    ensures Billing(a + b) == Billing(a) + Billing(b)
  {
    if b == [] {
      assert a + b == a;
    } else {
      assert (a + b)[..|a + b| - 1] == a + b[..|b| - 1];
      BillingJoin(a, b[..|b| - 1]);
    }
  }

  lemma BillingOfWindows(log: seq<Record>, from: nat, to: nat)
    requires from <= to <= |log|
    ensures Billing(log[..to]) == Billing(log[..from]) + Billing(log[from..to])
  {
    assert log[..to] == log[..from] + log[from..to];
    BillingJoin(log[..from], log[from..to]);
  }

  lemma ScanStep(host: Host, calls: nat, page: Page, next: Page, events: seq<Event>, bound: int)
    requires Advances(page, bound) && bound >= -MaxSafe
    requires page.hasMore && page.records != [] && AllSafe(page.records)
    requires host(calls, Oldest(page.records)) == Read(next) && !Stuck(next, Oldest(page.records))
    ensures Advances(next, Oldest(page.records))
    ensures Scan(host, calls, page, events, bound)
            == Scan(host, calls + 1, next, events + Billing(page.records), Oldest(page.records))
  {
    UnstuckAdvances(next, Oldest(page.records));
  }

  lemma WindowIsUnstuck(log: seq<Record>, from: nat, to: nat)
    requires IsLog(log) && from < to < |log|
    ensures !Stuck(Window(log, from, to), log[to].seqNo.value)
  {
    assert Window(log, from, to).records[0] == log[from];
  }

  /** Over such a host a scan moves from one window to the next. */
  lemma ScanOneWindow(host: Host, log: seq<Record>, calls: nat, from: nat, to: nat, events: seq<Event>, bound: int)
    returns (next: nat)
    requires IsLog(log) && Contiguous(host, log) && 0 < from < to <= |log|
    requires Advances(Window(log, from, to), bound) && bound >= -MaxSafe
    ensures next < from && Advances(Window(log, next, from), log[from].seqNo.value) && log[from].seqNo.value >= -MaxSafe
    ensures Scan(host, calls, Window(log, from, to), events, bound)
            == Scan(host, calls + 1, Window(log, next, from), events + Billing(log[from..to]), log[from].seqNo.value)
  {
    OldestOfWindow(log, from, to);
    assert IsWindowBefore(log, host(calls, log[from].seqNo.value), from);
    next :| next < from && host(calls, log[from].seqNo.value) == Read(Window(log, next, from));
    WindowIsUnstuck(log, next, from);
    ScanStep(host, calls, Window(log, from, to), Window(log, next, from), events, bound);
  }

  /** Reading on from a window finds what was found so far and every billing event of the log up to that window. */
  lemma {:induction false} ScanCovers(host: Host, log: seq<Record>, calls: nat, from: nat, to: nat, events: seq<Event>, bound: int)
    requires IsLog(log) && Contiguous(host, log) && (from < to <= |log| || from == to == 0)
    requires Advances(Window(log, from, to), bound) && bound >= -MaxSafe
    ensures var result := Scan(host, calls, Window(log, from, to), events, bound);
            result.Found? && forall e :: e in result.events <==> e in events || e in Billing(log[..to])
    decreases from
  {
    BillingOfWindows(log, from, to);
    if from > 0 {
      var next := ScanOneWindow(host, log, calls, from, to, events, bound);
      ScanCovers(host, log, calls + 1, next, from, events + Billing(log[from..to]), log[from].seqNo.value);
    } else {
      assert log[..0] == [];
    }
  }

  lemma {:induction false} BillingHolds(log: seq<Record>, e: Event) returns (i: nat)
    requires e in Billing(log)
    ensures i < |log| && log[i].billing == Some(e)
  {
    var n := |log| - 1;
    if log[n].billing == Some(e) {
      i := n;
    } else {
      i := BillingHolds(log[..n], e);
    }
  }

  lemma LogHasOneContent(log: seq<Record>)
    requires IsLog(log)
    ensures OneContent(Billing(log))
  {
    forall a, b | a in Billing(log) && b in Billing(log) && a.seqNo == b.seqNo
      ensures a == b
    {
      var i := BillingHolds(log, a);
      var j := BillingHolds(log, b);
    }
  }

  lemma OpeningAdvances(log: seq<Record>, from: nat)
    requires IsLog(log) && from <= |log|
    ensures Advances(Window(log, from, |log|), MaxSafe + 1)
  {
    if from < |log| {
      OldestOfWindow(log, from, |log|);
    }
  }

  /** A scan of a whole log reads its billing events, in some order. */
  lemma ScanFindsLog(host: Host, log: seq<Record>, from: nat)
    requires IsLog(log) && Contiguous(host, log) && (from < |log| || from == |log| == 0)
    requires Advances(Window(log, from, |log|), MaxSafe + 1)
    ensures var result := Scan(host, 0, Window(log, from, |log|), [], MaxSafe + 1);
            && result.Found? && Samples(result.events) == Samples(Billing(log))
            && (NamesInheritance(result.events) <==> NamesInheritance(Billing(log)))
  {
    ScanCovers(host, log, 0, from, |log|, [], MaxSafe + 1);
    assert log[..|log|] == log;
    LogHasOneContent(log);
    PageOrderDoesNotMatter(Billing(log), Scan(host, 0, Window(log, from, |log|), [], MaxSafe + 1).events);
  }

  /** Scanning a whole log page by page and folding is folding the log: for any page sizes the host chooses, the scan
    * succeeds, and it fails only when a fork's log does not say where its inherited part ends. */
  lemma ScanThenFoldIsFold(host: Host, log: seq<Record>, from: nat, seeded: bool)
    requires IsLog(log) && Contiguous(host, log) && (from < |log| || from == |log| == 0)
    ensures Advances(Window(log, from, |log|), MaxSafe + 1)
    ensures var result := Finish(Scan(host, 0, Window(log, from, |log|), [], MaxSafe + 1), seeded);
            if seeded && !NamesInheritance(Billing(log)) then result == Failed("Cannot attribute inherited session usage")
            else result.Found? && Samples(result.events) == Samples(Billing(log))
  {
    OpeningAdvances(log, from);
    ScanFindsLog(host, log, from);
  }

  /** A record is read exactly for the billing event it has. */
  lemma BillingOfOne(r: Record)
    ensures Billing([]) == [] && Billing([r]) == if r.billing.Some? then [r.billing.value] else []
  {
    assert [r][..0] == [];
  }
}
