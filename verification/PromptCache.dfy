/** The process-wide cache of sessions' prompts, bounded in bytes (src/session/info.ts). */
module PromptCache {
  import opened Collections

  datatype Prompt = Prompt(seqNo: int, text: string)

  datatype Entry = Entry(prompts: seq<Prompt>, complete: bool)

  /** One cached session; the cache lists them from the least to the most recently used. */
  datatype Slot = Slot(id: string, entry: Entry, bytes: nat)

  function Bytes(prompts: seq<Prompt>): nat {
    if prompts == [] then 0 else Bytes(prompts[..|prompts| - 1]) + 2 * |prompts[|prompts| - 1].text|
  }

  function NonEmpty(prompts: seq<Prompt>): seq<Prompt> {
    if prompts == [] then []
    else
      var front, last := NonEmpty(prompts[..|prompts| - 1]), prompts[|prompts| - 1];
      if last.text == "" then front else front + [last]
  }

  /** The newest prompts that fit, going back until one does not. */
  function Fitting(prompts: seq<Prompt>, room: nat): (kept: seq<Prompt>)
    ensures Bytes(kept) <= room
  {
    if prompts == [] then []
    else
      var last := prompts[|prompts| - 1];
      if 2 * |last.text| > room then []
      else
        var front := Fitting(prompts[..|prompts| - 1], room - 2 * |last.text|);
        assert (front + [last])[..|front|] == front;
        front + [last]
  }

  /** What is stored for a session: everything when it fits, otherwise the newest part, marked incomplete. */
  function Stored(prompts: seq<Prompt>, complete: bool, max: nat): (e: Entry)
    ensures Bytes(e.prompts) <= max
  {
    var all := NonEmpty(prompts);
    if Bytes(all) <= max then Entry(all, complete) else Entry(Fitting(all, max), false)
  }

  function Total(slots: seq<Slot>): nat {
    if slots == [] then 0 else slots[0].bytes + Total(slots[1..])
  }

  function Find(slots: seq<Slot>, id: string): (at: Option<nat>)
    ensures at.Some? ==> at.value < |slots| && slots[at.value].id == id
    ensures at.None? ==> forall k :: 0 <= k < |slots| ==> slots[k].id != id
  {
    if slots == [] then None
    else if slots[0].id == id then Some(0)
    else
      var rest := Find(slots[1..], id);
      if rest.Some? then Some(rest.value + 1) else None
  }

  function EntryOf(slots: seq<Slot>, id: string): Option<Entry> {
    var at := Find(slots, id);
    if at.Some? then Some(slots[at.value].entry) else None
  }

  function Drop(slots: seq<Slot>, id: string): seq<Slot> {
    var at := Find(slots, id);
    if at.Some? then slots[..at.value] + slots[at.value + 1..] else slots
  }

  /** How many of the least recently used sessions go, until the budget holds or one is left. */
  function Excess(slots: seq<Slot>, max: nat): (n: nat)
    ensures n <= |slots|
  {
    if Total(slots) <= max || |slots| <= 1 then 0 else 1 + Excess(slots[1..], max)
  }

  function Evict(slots: seq<Slot>, max: nat): seq<Slot> {
    slots[Excess(slots, max)..]
  }

  function Put(slots: seq<Slot>, max: nat, id: string, prompts: seq<Prompt>, complete: bool): seq<Slot> {
    var e := Stored(prompts, complete, max);
    Evict(Drop(slots, id) + [Slot(id, e, Bytes(e.prompts))], max)
  }

  function PromptsOf(slots: seq<Slot>, id: string): seq<Prompt> {
    var e := EntryOf(slots, id);
    if e.Some? then e.value.prompts else []
  }

  /** Fold one scanned page in front of a session's entry. */
  function Observe(slots: seq<Slot>, max: nat, id: string, page: seq<Prompt>, complete: bool): seq<Slot> {
    Put(slots, max, id, page + PromptsOf(slots, id), complete)
  }

  /** Reading a session makes it the most recently used. */
  function Get(slots: seq<Slot>, id: string): seq<Slot> {
    var at := Find(slots, id);
    if at.None? then slots else Drop(slots, id) + [slots[at.value]]
  }

  // ---------------------------------------------------------------- truncation

  lemma {:induction false} BytesJoin(a: seq<Prompt>, b: seq<Prompt>)
    ensures Bytes(a + b) == Bytes(a) + Bytes(b)
  {
    if b == [] {
      assert a + b == a;
    } else {
      assert (a + b)[..|a + b| - 1] == a + b[..|b| - 1];
      BytesJoin(a, b[..|b| - 1]);
    }
  }

  lemma FittingSnoc(front: seq<Prompt>, last: Prompt, room: nat)
    requires 2 * |last.text| <= room
    ensures Fitting(front + [last], room) == Fitting(front, room - 2 * |last.text|) + [last]
  {
    assert (front + [last])[..|front|] == front;
  }

  /** What is kept is a suffix. */
  lemma {:induction false} FittingIsSuffix(prompts: seq<Prompt>, room: nat)
    ensures var kept := Fitting(prompts, room); |kept| <= |prompts| && kept == prompts[|prompts| - |kept|..]
  {
    if prompts != [] {
      var front, last := prompts[..|prompts| - 1], prompts[|prompts| - 1];
      if 2 * |last.text| <= room {
        FittingIsSuffix(front, room - 2 * |last.text|);
      }
    }
  }

  /** It holds every suffix that fits. */
  lemma {:induction false} FittingHolds(older: seq<Prompt>, newer: seq<Prompt>, room: nat)
    requires Bytes(newer) <= room
    ensures |Fitting(older + newer, room)| >= |newer|
  {
    if newer != [] {
      var front, last := newer[..|newer| - 1], newer[|newer| - 1];
      assert older + newer == (older + front) + [last];
      FittingSnoc(older + front, last, room);
      FittingHolds(older, front, room - 2 * |last.text|);
    }
  }

  /** The part kept is the longest suffix that fits. */
  lemma FittingIsLongest(prompts: seq<Prompt>, room: nat)
    ensures var kept := Fitting(prompts, room);
            && |kept| <= |prompts| && kept == prompts[|prompts| - |kept|..] && Bytes(kept) <= room
            && forall from :: 0 <= from <= |prompts| && Bytes(prompts[from..]) <= room ==> |prompts| - |kept| <= from
  {
    FittingIsSuffix(prompts, room);
    forall from | 0 <= from <= |prompts| && Bytes(prompts[from..]) <= room
      ensures |prompts| - |Fitting(prompts, room)| <= from
    {
      assert prompts[..from] + prompts[from..] == prompts;
      FittingHolds(prompts[..from], prompts[from..], room);
    }
  }

  lemma {:induction false} NonEmptyJoin(a: seq<Prompt>, b: seq<Prompt>)
    ensures NonEmpty(a + b) == NonEmpty(a) + NonEmpty(b)
  {
    if b == [] {
      assert a + b == a;
    } else {
      assert (a + b)[..|a + b| - 1] == a + b[..|b| - 1];
      NonEmptyJoin(a, b[..|b| - 1]);
    }
  }

  lemma {:induction false} NonEmptyTwice(a: seq<Prompt>)
    ensures NonEmpty(NonEmpty(a)) == NonEmpty(a) && Bytes(NonEmpty(a)) == Bytes(a)
  {
    if a != [] {
      var front, last := a[..|a| - 1], a[|a| - 1];
      NonEmptyTwice(front);
      if last.text != "" {
        assert (NonEmpty(front) + [last])[..|NonEmpty(front)|] == NonEmpty(front);
      }
    }
  }

  // ---------------------------------------------------------------- the cache

  predicate Distinct(slots: seq<Slot>) {
    forall i, j :: 0 <= i < j < |slots| ==> slots[i].id != slots[j].id
  }

  /** Every session once, its bytes exact, and all of them within the budget. */
  predicate Ok(slots: seq<Slot>, max: nat) {
    && Distinct(slots) && (forall i :: 0 <= i < |slots| ==> slots[i].bytes == Bytes(slots[i].entry.prompts) <= max)
    && Total(slots) <= max
  }

  lemma {:induction false} TotalJoin(a: seq<Slot>, b: seq<Slot>)
    ensures Total(a + b) == Total(a) + Total(b)
  {
    if a == [] {
      assert a + b == b;
    } else {
      assert (a + b)[1..] == a[1..] + b;
      TotalJoin(a[1..], b);
    }
  }

  lemma TotalWithout(slots: seq<Slot>, at: nat)
    requires at < |slots|
    ensures Total(slots) == Total(slots[..at] + slots[at + 1..]) + slots[at].bytes
  {
    SplitAt(slots, at);
    TotalMiddle(slots[..at], slots[at], slots[at + 1..]);
  }

  lemma TotalMiddle(a: seq<Slot>, slot: Slot, b: seq<Slot>)
    ensures Total(a + ([slot] + b)) == Total(a + b) + slot.bytes
  {
    TotalJoin(a, [slot] + b);
    TotalJoin([slot], b);
    TotalJoin(a, b);
    assert [slot][1..] == [];
  }

  lemma {:induction false} FindAt(slots: seq<Slot>, at: nat)
    requires Distinct(slots) && at < |slots|
    ensures Find(slots, slots[at].id) == Some(at)
  {
    if at > 0 {
      assert slots[0].id != slots[at].id;
      FindAt(slots[1..], at - 1);
    }
  }

  lemma DropIsOk(slots: seq<Slot>, max: nat, id: string)
    requires Ok(slots, max)
    ensures Ok(Drop(slots, id), max) && EntryOf(Drop(slots, id), id).None?
  {
    var at := Find(slots, id);
    if at.Some? {
      TotalWithout(slots, at.value);
      var rest := Drop(slots, id);
      forall k | 0 <= k < |rest|
        ensures rest[k].id != id && rest[k] == slots[if k < at.value then k else k + 1]
      {
      }
    }
  }

  /** Dropping one session leaves every other as it was. */
  lemma DropKeepsOthers(slots: seq<Slot>, id: string, other: string)
    requires Distinct(slots) && id != other
    ensures EntryOf(Drop(slots, id), other) == EntryOf(slots, other)
  {
    var at, to, rest := Find(slots, id), Find(slots, other), Drop(slots, id);
    if at.Some? {
      forall k | 0 <= k < |rest|
        ensures rest[k] == slots[if k < at.value then k else k + 1]
      {
      }
      assert Distinct(rest);
      if to.Some? {
        var k := if to.value < at.value then to.value else to.value - 1;
        assert rest[k] == slots[to.value];
        FindAt(rest, k);
      } else {
        assert forall k :: 0 <= k < |rest| ==> rest[k].id != other;
      }
    }
  }

  /** Eviction keeps the newest session, ends within the budget, and stops as soon as it can. */
  lemma {:induction false} EvictIsLeast(slots: seq<Slot>, max: nat)
    requires slots != [] && slots[|slots| - 1].bytes <= max
    ensures var n := Excess(slots, max);
            n < |slots| && Total(slots[n..]) <= max && (n > 0 ==> Total(slots[n - 1..]) > max)
  {
    assert slots[0..] == slots;
    if Total(slots) > max && |slots| > 1 {
      EvictIsLeast(slots[1..], max);
      var n := Excess(slots, max);
      assert slots[1..][n - 1..] == slots[n..];
      if n > 1 {
        assert slots[1..][n - 2..] == slots[n - 1..];
      }
    } else if |slots| == 1 {
      assert slots[1..] == [];
    }
  }

  lemma SuffixIsOk(slots: seq<Slot>, max: nat, n: nat)
    requires n <= |slots| && Distinct(slots) && Total(slots[n..]) <= max
    requires forall i :: 0 <= i < |slots| ==> slots[i].bytes == Bytes(slots[i].entry.prompts) <= max
    ensures Ok(slots[n..], max)
    ensures forall id :: EntryOf(slots[n..], id) == EntryOf(slots, id) || EntryOf(slots[n..], id).None?
  {
    forall id
      ensures EntryOf(slots[n..], id) == EntryOf(slots, id) || EntryOf(slots[n..], id).None?
    {
      var at := Find(slots[n..], id);
      if at.Some? {
        assert slots[n..][at.value] == slots[n + at.value];
        FindAt(slots, n + at.value);
      }
    }
  }

  /** Storing keeps the cache within its budget and always keeps the session just stored; every other session is as it
    * was, or evicted. */
  lemma PutIsOk(slots: seq<Slot>, max: nat, id: string, prompts: seq<Prompt>, complete: bool)
    requires Ok(slots, max)
    ensures var n := Put(slots, max, id, prompts, complete);
            && Ok(n, max) && EntryOf(n, id) == Some(Stored(prompts, complete, max))
            && forall other :: other != id ==> EntryOf(n, other) == EntryOf(slots, other) || EntryOf(n, other).None?
  {
    var e := Stored(prompts, complete, max);
    var added := Drop(slots, id) + [Slot(id, e, Bytes(e.prompts))];
    DropIsOk(slots, max, id);
    AddedIsOk(Drop(slots, id), max, Slot(id, e, Bytes(e.prompts)));
    EvictIsLeast(added, max);
    var k := Excess(added, max);
    SuffixIsOk(added, max, k);
    assert added[k..][|added| - 1 - k] == added[|added| - 1];
    FindAt(added[k..], |added| - 1 - k);
    forall other | other != id
      ensures EntryOf(added, other) == EntryOf(slots, other)
    {
      DropKeepsOthers(slots, id, other);
      AddKeepsOthers(Drop(slots, id), Slot(id, e, Bytes(e.prompts)), other);
    }
  }

  lemma AddedIsOk(slots: seq<Slot>, max: nat, slot: Slot)
    requires Ok(slots, max) && EntryOf(slots, slot.id).None? && slot.bytes == Bytes(slot.entry.prompts) <= max
    ensures Distinct(slots + [slot])
    ensures forall i :: 0 <= i < |slots + [slot]| ==> (slots + [slot])[i].bytes == Bytes((slots + [slot])[i].entry.prompts) <= max
  {
  }

  lemma {:induction false} AddKeepsOthers(slots: seq<Slot>, slot: Slot, other: string)
    requires slot.id != other
    ensures EntryOf(slots + [slot], other) == EntryOf(slots, other)
  {
    if slots == [] {
      assert [slot][1..] == [];
      assert slots + [slot] == [slot];
    } else {
      assert (slots + [slot])[1..] == slots[1..] + [slot];
      AddKeepsOthers(slots[1..], slot, other);
      FindStep(slots, other);
      FindStep(slots + [slot], other);
    }
  }

  lemma FindStep(slots: seq<Slot>, id: string)
    requires slots != []
    ensures EntryOf(slots, id) == if slots[0].id == id then Some(slots[0].entry) else EntryOf(slots[1..], id)
  {
  }

  lemma GetIsOk(slots: seq<Slot>, max: nat, id: string)
    requires Ok(slots, max)
    ensures Ok(Get(slots, id), max) && forall other :: EntryOf(Get(slots, id), other) == EntryOf(slots, other)
  {
    var at := Find(slots, id);
    if at.Some? {
      var slot, rest := slots[at.value], Drop(slots, id);
      DropIsOk(slots, max, id);
      AddedIsOk(rest, max, slot);
      TotalWithout(slots, at.value);
      TotalJoin(rest, [slot]);
      FindAt(rest + [slot], |rest|);
      forall other
        ensures EntryOf(rest + [slot], other) == EntryOf(slots, other)
      {
        if other != id {
          DropKeepsOthers(slots, id, other);
          AddKeepsOthers(rest, slot, other);
        }
      }
    }
  }

  // ---------------------------------------------------------------- runs

  datatype Event =
    | Puts(id: string, prompts: seq<Prompt>, complete: bool)
    | Observes(id: string, page: seq<Prompt>, complete: bool)
    | Gets(id: string)
    | Drops(id: string)

  function Step(slots: seq<Slot>, max: nat, e: Event): seq<Slot> {
    match e
    case Puts(id, prompts, complete) => Put(slots, max, id, prompts, complete)
    case Observes(id, page, complete) => Observe(slots, max, id, page, complete)
    case Gets(id) => Get(slots, id)
    case Drops(id) => Drop(slots, id)
  }

  function Run(max: nat, events: seq<Event>): seq<Slot> {
    if events == [] then [] else Step(Run(max, events[..|events| - 1]), max, events[|events| - 1])
  }

  /** The cache never exceeds its byte budget, and a session just written is always kept. */
  lemma {:induction false} EveryRunIsOk(max: nat, events: seq<Event>)
    ensures Ok(Run(max, events), max)
    ensures events != [] ==>
              var e := events[|events| - 1];
              && (e.Puts? ==> EntryOf(Run(max, events), e.id) == Some(Stored(e.prompts, e.complete, max)))
              && (e.Observes? ==> EntryOf(Run(max, events), e.id).Some?)
  {
    if events != [] {
      var before, e := Run(max, events[..|events| - 1]), events[|events| - 1];
      EveryRunIsOk(max, events[..|events| - 1]);
      match e
      case Puts(id, prompts, complete) => PutIsOk(before, max, id, prompts, complete);
      case Observes(id, page, complete) => PutIsOk(before, max, id, page + PromptsOf(before, id), complete);
      case Gets(id) => GetIsOk(before, max, id);
      case Drops(id) => DropIsOk(before, max, id);
    }
  }

  // ---------------------------------------------------------------- which session goes

  /** Session `b` was used after the last use of session `a`. */
  ghost predicate UsedLater(events: seq<Event>, a: string, b: string) {
    exists j :: UsedSince(events, j, a, b)
  }

  ghost predicate UsedSince(events: seq<Event>, j: int, a: string, b: string) {
    0 <= j < |events| && events[j].id == b && forall k :: j <= k < |events| ==> events[k].id != a
  }

  ghost predicate InOrderOfUse(slots: seq<Slot>, events: seq<Event>) {
    forall i, j :: 0 <= i < j < |slots| ==> UsedLater(events, slots[i].id, slots[j].id)
  }

  lemma LaterStaysLater(events: seq<Event>, e: Event, a: string, b: string)
    requires a != e.id && (b == e.id || UsedLater(events, a, b))
    ensures UsedLater(events + [e], a, b)
  {
    if b == e.id {
      assert UsedSince(events + [e], |events|, a, b);
    } else {
      var j :| UsedSince(events, j, a, b);
      assert UsedSince(events + [e], j, a, b);
    }
  }

  lemma DropKeepsOrder(slots: seq<Slot>, events: seq<Event>, id: string)
    requires Distinct(slots) && InOrderOfUse(slots, events)
    ensures var rest := Drop(slots, id);
            InOrderOfUse(rest, events) && forall k :: 0 <= k < |rest| ==> rest[k].id != id
  {
    var at, rest := Find(slots, id), Drop(slots, id);
    if at.Some? {
      assert forall k :: 0 <= k < |rest| ==> rest[k] == slots[if k < at.value then k else k + 1];
    }
  }

  /** Whatever is used becomes the newest of the order. */
  lemma AddedInOrder(slots: seq<Slot>, events: seq<Event>, e: Event, slot: Slot)
    requires Distinct(slots) && InOrderOfUse(slots, events) && slot.id == e.id
    ensures InOrderOfUse(Drop(slots, e.id) + [slot], events + [e])
  {
    DropKeepsOrder(slots, events, e.id);
    var added := Drop(slots, e.id) + [slot];
    forall i, j | 0 <= i < j < |added|
      ensures UsedLater(events + [e], added[i].id, added[j].id)
    {
      LaterStaysLater(events, e, added[i].id, added[j].id);
    }
  }

  lemma OthersInOrder(slots: seq<Slot>, events: seq<Event>, e: Event)
    requires Distinct(slots) && InOrderOfUse(slots, events)
    ensures InOrderOfUse(Drop(slots, e.id), events + [e])
  {
    DropKeepsOrder(slots, events, e.id);
    var rest := Drop(slots, e.id);
    forall i, j | 0 <= i < j < |rest|
      ensures UsedLater(events + [e], rest[i].id, rest[j].id)
    {
      LaterStaysLater(events, e, rest[i].id, rest[j].id);
    }
  }

  /** A session put into the cache, in the order of use before anything is evicted. */
  function Added(slots: seq<Slot>, max: nat, e: Event): seq<Slot>
    requires e.Puts? || e.Observes?
  {
    var prompts := if e.Puts? then e.prompts else e.page + PromptsOf(slots, e.id);
    var entry := Stored(prompts, e.complete, max);
    Drop(slots, e.id) + [Slot(e.id, entry, Bytes(entry.prompts))]
  }

  /** In every run the cache lists its sessions in the order of their last use. */
  lemma {:induction false} EveryRunIsInOrderOfUse(max: nat, events: seq<Event>)
    ensures InOrderOfUse(Run(max, events), events)
  {
    if events != [] {
      var front, e := events[..|events| - 1], events[|events| - 1];
      var before := Run(max, front);
      assert events == front + [e];
      EveryRunIsInOrderOfUse(max, front);
      EveryRunIsOk(max, front);
      if e.Puts? || e.Observes? {
        var added := Added(before, max, e);
        AddedInOrder(before, front, e, added[|added| - 1]);
        assert Run(max, events) == added[Excess(added, max)..];
      } else if e.Gets? && Find(before, e.id).Some? {
        AddedInOrder(before, front, e, before[Find(before, e.id).value]);
      } else {
        OthersInOrder(before, front, e);
      }
    }
  }

  lemma FoundIs(slots: seq<Slot>, id: string) returns (at: nat)
    requires EntryOf(slots, id).Some?
    ensures at < |slots| && slots[at].id == id
  {
    at := Find(slots, id).value;
  }

  lemma SuffixHas(slots: seq<Slot>, n: nat, i: nat)
    requires n <= |slots| && i < |slots|
    ensures n <= i ==> EntryOf(slots[n..], slots[i].id).Some?
  {
    if n <= i {
      assert slots[n..][i - n] == slots[i];
    }
  }

  /** A session that another one's write pushes out was used before every session that stays. */
  lemma LeastRecentlyUsedGoes(max: nat, events: seq<Event>, e: Event, gone: string, kept: string)
    requires e.id != gone && EntryOf(Run(max, events), gone).Some?
    requires EntryOf(Run(max, events + [e]), gone).None? && EntryOf(Run(max, events + [e]), kept).Some?
    ensures UsedLater(events + [e], gone, kept)
  {
    var before := Run(max, events);
    RunSnoc(max, events, e);
    EveryRunIsOk(max, events);
    EveryRunIsInOrderOfUse(max, events);
    if e.Puts? || e.Observes? {
      var added := Added(before, max, e);
      var n := Excess(added, max);
      AddedInOrder(before, events, e, added[|added| - 1]);
      DropKeepsOthers(before, e.id, gone);
      var i := FoundIs(Drop(before, e.id), gone);
      var j := FoundIs(added[n..], kept);
      assert added[i].id == gone && added[n + j].id == kept;
      SuffixHas(added, n, i);
    } else if e.Gets? {
      GetIsOk(before, max, e.id);
      assert false;
    } else {
      DropKeepsOthers(before, e.id, gone);
      assert false;
    }
  }

  // ---------------------------------------------------------------- what is stored

  /** What has text is stored, each prompt as often as it was given, in the order given. */
  lemma {:induction false} NonEmptyMeans(prompts: seq<Prompt>, p: Prompt)
    ensures multiset(NonEmpty(prompts))[p] == if p.text == "" then 0 else multiset(prompts)[p]
  {
    if prompts != [] {
      var front, last := prompts[..|prompts| - 1], prompts[|prompts| - 1];
      assert prompts == front + [last];
      NonEmptyMeans(front, p);
    }
  }

  /** The longest newest part of a list that fits. */
  ghost predicate LongestFitting(kept: seq<Prompt>, all: seq<Prompt>, room: nat) {
    && |kept| <= |all| && kept == all[|all| - |kept|..] && Bytes(kept) <= room
    && forall from :: 0 <= from <= |all| && Bytes(all[from..]) <= room ==> |all| - |kept| <= from
  }

  lemma WholeIsLongest(all: seq<Prompt>, room: nat)
    requires Bytes(all) <= room
    ensures LongestFitting(all, all, room)
  {
    assert all[0..] == all;
  }

  lemma FittingIsLongestFitting(all: seq<Prompt>, room: nat)
    ensures LongestFitting(Fitting(all, room), all, room)
  {
    FittingIsLongest(all, room);
  }

  lemma BytesOfNonEmpty(prompts: seq<Prompt>)
    ensures Bytes(NonEmpty(prompts)) == Bytes(prompts)
  {
    NonEmptyTwice(prompts);
  }

  /** A session's entry is the longest newest part that fits of its prompts with text, and as complete as it was said to be
    * exactly when all of them fit. */
  lemma StoredExactly(prompts: seq<Prompt>, complete: bool, max: nat)
    ensures LongestFitting(Stored(prompts, complete, max).prompts, NonEmpty(prompts), max)
    ensures Stored(prompts, complete, max).complete <==> complete && Bytes(prompts) <= max
  {
    var all := NonEmpty(prompts);
    BytesOfNonEmpty(prompts);
    if Bytes(all) <= max {
      WholeIsLongest(all, max);
    } else {
      FittingIsLongestFitting(all, max);
    }
  }

  // ---------------------------------------------------------------- one scan of a session

  /** The prompts of a scan in session order: its pages came newest first. */
  function InOrder(pages: seq<seq<Prompt>>): seq<Prompt> {
    if pages == [] then [] else pages[|pages| - 1] + InOrder(pages[..|pages| - 1])
  }

  /** The pages observed for a session. */
  function PagesOf(events: seq<Event>, id: string): seq<seq<Prompt>> {
    if events == [] then []
    else
      var front, last := PagesOf(events[..|events| - 1], id), events[|events| - 1];
      if last.Observes? && last.id == id then front + [last.page] else front
  }

  /** An event that only observes or reads this session, and does not evict it. */
  ghost predicate Spares(max: nat, events: seq<Event>, i: nat, id: string)
    requires i < |events|
  {
    && (events[i].id == id ==> events[i].Observes? || events[i].Gets?)
    && (EntryOf(Run(max, events[..i]), id).Some? ==> EntryOf(Run(max, events[..i + 1]), id).Some?)
  }

  ghost predicate Undisturbed(max: nat, events: seq<Event>, id: string) {
    forall i :: 0 <= i < |events| ==> Spares(max, events, i, id)
  }

  /** A scan's entry while nothing was cut off: all its pages, in session order. */
  ghost predicate HoldsAll(max: nat, events: seq<Event>, id: string) {
    PromptsOf(Run(max, events), id) == NonEmpty(InOrder(PagesOf(events, id)))
  }

  /** A page observed in front of a complete list gives the longer complete list when it fits. */
  lemma ObservedHoldsAll(page: seq<Prompt>, rest: seq<Prompt>, complete: bool, max: nat)
    requires Bytes(page + rest) <= max
    ensures Stored(page + NonEmpty(rest), complete, max) == Entry(NonEmpty(page + rest), complete)
    ensures Bytes(rest) <= max
  {
    NonEmptyJoin(page, NonEmpty(rest));
    NonEmptyJoin(page, rest);
    NonEmptyTwice(rest);
    NonEmptyTwice(page + rest);
    BytesJoin(page, rest);
  }

  lemma SparesFront(max: nat, events: seq<Event>, id: string)
    requires events != [] && Undisturbed(max, events, id)
    ensures Undisturbed(max, events[..|events| - 1], id)
  {
    var n := |events| - 1;
    forall i | 0 <= i < n
      ensures Spares(max, events[..n], i, id)
    {
      assert Spares(max, events, i, id);
      assert events[..n][..i] == events[..i] && events[..n][..i + 1] == events[..i + 1];
    }
  }

  lemma PagesSnoc(front: seq<Event>, e: Event, id: string)
    ensures PagesOf(front + [e], id) == if e.Observes? && e.id == id then PagesOf(front, id) + [e.page] else PagesOf(front, id)
    ensures e.Observes? ==> InOrder(PagesOf(front, id) + [e.page]) == e.page + InOrder(PagesOf(front, id))
  {
    assert (front + [e])[..|front|] == front;
    if e.Observes? {
      assert (PagesOf(front, id) + [e.page])[..|PagesOf(front, id)|] == PagesOf(front, id);
    }
  }

  lemma RunSnoc(max: nat, front: seq<Event>, e: Event)
    ensures Run(max, front + [e]) == Step(Run(max, front), max, e)
  {
    assert (front + [e])[..|front|] == front;
  }

  /** One scan from an empty entry, whatever other sessions did meanwhile: while its text fits the budget the entry holds
    * every page, in session order. */
  lemma {:induction false} ScanThatFitsHoldsAll(max: nat, events: seq<Event>, id: string)
    requires Undisturbed(max, events, id) && Bytes(InOrder(PagesOf(events, id))) <= max
    ensures HoldsAll(max, events, id)
  {
    if events != [] {
      var front, e := events[..|events| - 1], events[|events| - 1];
      assert events == front + [e];
      PagesSnoc(front, e, id);
      RunSnoc(max, front, e);
      SparesFront(max, events, id);
      EveryRunIsOk(max, front);
      if e.Observes? && e.id == id {
        ObservedHoldsAll(e.page, InOrder(PagesOf(front, id)), e.complete, max);
        ScanThatFitsHoldsAll(max, front, id);
        PutIsOk(Run(max, front), max, id, e.page + PromptsOf(Run(max, front), id), e.complete);
      } else {
        ScanThatFitsHoldsAll(max, front, id);
        assert Spares(max, events, |front|, id) && events[..|front| + 1] == events;
        OtherStep(Run(max, front), max, e, id);
      }
    }
  }

  /** A finished scan claims to be complete whatever was cut off on the way; the claim is right exactly when the whole
    * text fits the budget. */
  lemma CompleteMeansNoHoleExactlyWhenItFits(max: nat, events: seq<Event>, id: string)
    requires Undisturbed(max, events + [Observes(id, [], true)], id)
    ensures var done := events + [Observes(id, [], true)];
            && EntryOf(Run(max, done), id).Some? && EntryOf(Run(max, done), id).value.complete
            && (HoldsAll(max, done, id) <==> Bytes(InOrder(PagesOf(done, id))) <= max)
  {
    var last := Observes(id, [], true);
    var done := events + [last];
    EveryRunIsOk(max, events);
    EveryRunIsOk(max, done);
    RunSnoc(max, events, last);
    StoredFits(Run(max, events), max, id);
    StoredFits(Run(max, done), max, id);
    NonEmptyTwice(PromptsOf(Run(max, events), id));
    assert [] + PromptsOf(Run(max, events), id) == PromptsOf(Run(max, events), id);
    PutIsOk(Run(max, events), max, id, PromptsOf(Run(max, events), id), true);
    NonEmptyTwice(InOrder(PagesOf(done, id)));
    if Bytes(InOrder(PagesOf(done, id))) <= max {
      ScanThatFitsHoldsAll(max, done, id);
    }
  }

  lemma StoredFits(slots: seq<Slot>, max: nat, id: string)
    requires Ok(slots, max)
    ensures Bytes(PromptsOf(slots, id)) <= max
  {
  }

  lemma OtherStep(slots: seq<Slot>, max: nat, e: Event, id: string)
    requires Ok(slots, max) && (e.id == id ==> e.Gets?)
    requires EntryOf(slots, id).Some? ==> EntryOf(Step(slots, max, e), id).Some?
    ensures EntryOf(Step(slots, max, e), id) == EntryOf(slots, id)
  {
    match e
    case Puts(other, prompts, complete) => PutIsOk(slots, max, other, prompts, complete);
    case Observes(other, page, complete) => PutIsOk(slots, max, other, page + PromptsOf(slots, other), complete);
    case Gets(other) => GetIsOk(slots, max, other);
    case Drops(other) =>
      DropIsOk(slots, max, other);
      DropKeepsOthers(slots, other, id);
  }

  // ---------------------------------------------------------------- the cache object

  class PromptCache {
    const maxBytes: nat
    var entries: seq<Slot>
    var bytes: int

    constructor (maxBytes: nat)
      ensures Valid() && entries == [] && this.maxBytes == maxBytes
    {
      this.maxBytes := maxBytes;
      entries, bytes := [], 0;
    }

    predicate Valid()
      reads this
    {
      Ok(entries, maxBytes) && bytes == Total(entries)
    }

    method Forget(id: string)
      requires Valid()
      modifies this
      ensures Valid() && entries == Drop(old(entries), id)
    {
      DropIsOk(entries, maxBytes, id);
      var at := Find(entries, id);
      if at.Some? {
        TotalWithout(entries, at.value);
        bytes := bytes - entries[at.value].bytes;
        entries := entries[..at.value] + entries[at.value + 1..];
      }
    }

    method Store(id: string, prompts: seq<Prompt>, complete: bool)
      requires Valid()
      modifies this
      ensures Valid() && entries == Put(old(entries), maxBytes, id, prompts, complete)
    {
      PutIsOk(entries, maxBytes, id, prompts, complete);
      var e := Fit(prompts, complete);
      Forget(id);
      Add(Slot(id, e, Bytes(e.prompts)));
    }

    /** Everything when it fits, otherwise the newest part, marked incomplete. */
    method Fit(prompts: seq<Prompt>, complete: bool) returns (e: Entry)
      ensures e == Stored(prompts, complete, maxBytes)
    {
      var all := NonEmpty(prompts);
      if Bytes(all) <= maxBytes {
        e := Entry(all, complete);
      } else {
        var kept := NewestThatFit(all);
        e := Entry(kept, false);
      }
    }

    method Add(slot: Slot)
      requires bytes == Total(entries)
      modifies this
      ensures entries == Evict(old(entries) + [slot], maxBytes) && bytes == Total(entries)
    {
      TotalJoin(entries, [slot]);
      entries := entries + [slot];
      bytes := bytes + slot.bytes;
      EvictOldest();
    }

    /** Walk back from the newest prompt while the next one still fits. */
    method NewestThatFit(all: seq<Prompt>) returns (kept: seq<Prompt>)
      ensures kept == Fitting(all, maxBytes)
    {
      var start, size := |all|, 0;
      while start > 0 && size + 2 * |all[start - 1].text| <= maxBytes
        invariant 0 <= start <= |all| && 0 <= size <= maxBytes
        invariant FitFrom(all, |all|, maxBytes) == FitFrom(all, start, maxBytes - size)
      {
        size := size + 2 * |all[start - 1].text|;
        start := start - 1;
      }
      kept := all[start..];
      FitFromIsFitting(all, |all|, maxBytes);
      assert all[..|all|] == all && all[start..|all|] == all[start..];
    }

    /** Drop the least recently used sessions until the budget holds or one is left. */
    method EvictOldest()
      requires bytes == Total(entries)
      modifies this
      ensures entries == Evict(old(entries), maxBytes) && bytes == Total(entries)
    {
      var n := 0;
      assert entries[0..] == entries;
      while bytes > maxBytes && |entries| > 1
        invariant n <= |old(entries)| && entries == old(entries)[n..] && bytes == Total(entries)
        invariant n + Excess(entries, maxBytes) == Excess(old(entries), maxBytes)
        decreases |entries|
      {
        bytes := bytes - entries[0].bytes;
        entries := entries[1..];
        n := n + 1;
      }
    }

    method ObservePage(id: string, page: seq<Prompt>, complete: bool)
      requires Valid()
      modifies this
      ensures Valid() && entries == Observe(old(entries), maxBytes, id, page, complete)
    {
      var at := Find(entries, id);
      var current := if at.Some? then entries[at.value].entry.prompts else [];
      Store(id, page + current, complete);
    }

    method Read(id: string) returns (entry: Option<Entry>)
      requires Valid()
      modifies this
      ensures Valid() && entries == Get(old(entries), id) && entry == EntryOf(old(entries), id)
    {
      GetIsOk(entries, maxBytes, id);
      var at := Find(entries, id);
      if at.None? {
        return None;
      }
      var slot := entries[at.value];
      TotalWithout(entries, at.value);
      TotalJoin(Drop(entries, id), [slot]);
      entries := entries[..at.value] + entries[at.value + 1..] + [slot];
      return Some(slot.entry);
    }
  }

  /** Where the walk back from a position ends. */
  function FitFrom(all: seq<Prompt>, start: nat, room: nat): (at: nat)
    requires start <= |all|
    ensures at <= start
  {
    if start == 0 || 2 * |all[start - 1].text| > room then start
    else FitFrom(all, start - 1, room - 2 * |all[start - 1].text|)
  }

  lemma {:induction false} FitFromIsFitting(all: seq<Prompt>, start: nat, room: nat)
    requires start <= |all|
    ensures Fitting(all[..start], room) == all[FitFrom(all, start, room)..start]
  {
    if start == 0 || 2 * |all[start - 1].text| > room {
      assert all[start..start] == [];
      NothingMoreFits(all[..start], room);
    } else {
      var last := all[start - 1];
      SplitAt(all, start - 1);
      FittingSnoc(all[..start - 1], last, room);
      FitFromIsFitting(all, start - 1, room - 2 * |last.text|);
      SliceSnoc(all, FitFrom(all, start - 1, room - 2 * |last.text|), start - 1);
      assert all[..start] == all[..start - 1] + [last];
    }
  }

  lemma SliceSnoc<T>(s: seq<T>, from: nat, to: nat)
    requires from <= to < |s|
    ensures s[from..to] + [s[to]] == s[from..to + 1]
  {
  }

  /** A last prompt that does not fit leaves nothing. */
  lemma NothingMoreFits(prompts: seq<Prompt>, room: nat)
    requires prompts != [] ==> 2 * |prompts[|prompts| - 1].text| > room
    ensures Fitting(prompts, room) == []
  {
  }
}
