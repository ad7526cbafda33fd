/** The recall index of one session's prompts: budgets, order and a cursor (src/session/info.ts).
  *
  * Flattening a prompt to one line is foreign text handling, so it is a parameter. */
module PromptIndex {
  import opened Collections

  /** A retained prompt; a durable one carries the sequence the host recorded it under. */
  datatype Entry = Entry(seqNo: int, text: string, durable: bool)

  datatype Prompt = Prompt(seqNo: int, text: string)

  datatype Limits = Limits(maxEntries: nat, maxBytes: nat)

  const MaxEntryChars := 128 * 1024
  const MaxInternal := 512

  datatype Index = Index(
    entries: seq<Entry>,
    bytes: int,
    newest: int,
    complete: bool,
    shed: bool,
    position: Option<nat>,
    draft: string,
    internal: seq<string> // texts the client sent itself, oldest first
  )

  const Empty := Index([], 0, -1, false, false, None, "", [])

  function Size(entries: seq<Entry>): nat {
    if entries == [] then 0 else Size(entries[..|entries| - 1]) + 2 * |entries[|entries| - 1].text|
  }

  predicate Within(entries: seq<Entry>, limits: Limits) {
    |entries| <= limits.maxEntries && Size(entries) <= limits.maxBytes
  }

  predicate Retainable(text: string) {
    text != "" && |text| <= MaxEntryChars
  }

  // ---------------------------------------------------------------- operations

  /** How many of the oldest entries a trim drops. */
  function Excess(entries: seq<Entry>, limits: Limits): (n: nat)
    ensures n <= |entries|
  {
    if Within(entries, limits) then 0 else 1 + Excess(entries[1..], limits)
  }

  function Trim(s: Index, limits: Limits): Index {
    var n := Excess(s.entries, limits);
    s.(entries := s.entries[n..], bytes := Size(s.entries[n..]),
       shed := s.shed || n > 0, complete := s.complete && n == 0,
       position := if s.position.Some? then Some(Max(0, s.position.value - n)) else None)
  }

  lemma SizeSnoc(entries: seq<Entry>, e: Entry)
    ensures Size(entries + [e]) == Size(entries) + 2 * |e.text|
  {
    assert (entries + [e])[..|entries|] == entries;
  }

  lemma TrimForgetsBytes(s: Index, bytes: nat, limits: Limits)
    ensures Trim(s.(bytes := bytes), limits) == Trim(s, limits)
  {
  }

  function Append(s: Index, limits: Limits, e: Entry): Index {
    Trim(s.(entries := s.entries + [e]), limits)
  }

  /** The newest entry already has this text. */
  predicate Repeats(s: Index, text: string) {
    s.entries != [] && s.entries[|s.entries| - 1].text == text
  }

  predicate Enters(s: Index, text: string) {
    text !in s.internal && Retainable(text)
  }

  function Push(s: Index, limits: Limits, seqNo: int, text: string): Index {
    if !Enters(s, text) then s
    else if Repeats(s, text) then
      var last := |s.entries| - 1;
      s.(entries := s.entries[last := Entry(seqNo, text, true)])
    else Append(s, limits, Entry(seqNo, text, true))
  }

  function PushAll(s: Index, limits: Limits, flatten: string -> string, prompts: seq<Prompt>): Index {
    if prompts == [] then s
    else
      var last := prompts[|prompts| - 1];
      Push(PushAll(s, limits, flatten, prompts[..|prompts| - 1]), limits, last.seqNo, flatten(last.text))
  }

  function Newest(prompts: seq<Prompt>): int {
    if prompts == [] then -1 else Max(Newest(prompts[..|prompts| - 1]), prompts[|prompts| - 1].seqNo)
  }

  function Fold(s: Index, limits: Limits, flatten: string -> string, prompts: seq<Prompt>, through: int): Index {
    var n := PushAll(s, limits, flatten, prompts);
    n.(newest := Max(Max(s.newest, through), Newest(prompts)))
  }

  function Record(s: Index, limits: Limits, text: string): Index {
    if !Enters(s, text) || Repeats(s, text) then s else Append(s, limits, Entry(s.newest, text, false))
  }

  function OldestDurable(entries: seq<Entry>): Option<int> {
    if entries == [] then None
    else if entries[0].durable then Some(entries[0].seqNo) else OldestDurable(entries[1..])
  }

  /** The older prompts a page adds: not yet reached, once each, and fit for recall. */
  function Older(s: Index, flatten: string -> string, prompts: seq<Prompt>): seq<Entry> {
    if prompts == [] then []
    else
      var front, last := Older(s, flatten, prompts[..|prompts| - 1]), prompts[|prompts| - 1];
      var oldest, text := OldestDurable(s.entries), flatten(last.text);
      if (oldest.Some? && last.seqNo >= oldest.value) || HasSeq(front, last.seqNo) || !Enters(s, text)
      then front else front + [Entry(last.seqNo, text, true)]
  }

  predicate HasSeq(entries: seq<Entry>, seqNo: int) {
    exists i :: 0 <= i < |entries| && entries[i].seqNo == seqNo
  }

  function Prepend(s: Index, flatten: string -> string, prompts: seq<Prompt>): Index {
    var older := Older(s, flatten, prompts);
    if older == [] then s
    else s.(entries := older + s.entries, bytes := s.bytes + Size(older),
            position := if s.position.Some? then Some(s.position.value + |older|) else None)
  }

  function ResetCursor(s: Index): Index {
    s.(position := None, draft := "")
  }

  /** Step towards older or newer input; past the newest entry the draft comes back. */
  function Move(s: Index, older: bool, current: string): (Index, string) {
    if s.entries == [] || (s.position.None? && !older) then (s, current)
    else
      var from := if s.position.Some? then s.position.value else |s.entries|;
      var draft := if s.position.Some? then s.draft else current;
      var to := Max(0, Min(|s.entries|, if older then from - 1 else from + 1));
      if to == |s.entries| then (ResetCursor(s), draft)
      else (s.(position := Some(to), draft := draft), s.entries[to].text)
  }

  function MarkComplete(s: Index): Index {
    if s.shed then s else s.(complete := true)
  }

  function Remove(texts: seq<string>, text: string): seq<string> {
    if texts == [] then []
    else
      var front, last := Remove(texts[..|texts| - 1], text), texts[|texts| - 1];
      if last == text then front else front + [last]
  }

  /** Remember a text the client sent itself, as the most recent one. */
  function Suppress(s: Index, text: string): Index {
    if text == "" then s
    else
      var texts := Remove(s.internal, text) + [text];
      s.(internal := if |texts| > MaxInternal then texts[|texts| - MaxInternal..] else texts)
  }

  // ---------------------------------------------------------------- sizes

  lemma {:induction false} SizeJoin(a: seq<Entry>, b: seq<Entry>)
    ensures Size(a + b) == Size(a) + Size(b)
  {
    if b == [] {
      assert a + b == a;
    } else {
      assert (a + b)[..|a + b| - 1] == a + b[..|b| - 1];
      SizeJoin(a, b[..|b| - 1]);
    }
  }

  lemma SizeDrop(entries: seq<Entry>)
    requires entries != []
    ensures Size(entries) == 2 * |entries[0].text| + Size(entries[1..])
  {
    assert entries == [entries[0]] + entries[1..] && [entries[0]][..0] == [];
    SizeJoin([entries[0]], entries[1..]);
  }

  /** A trim ends within both budgets and drops no more than it must. */
  lemma {:induction false} TrimIsLeast(entries: seq<Entry>, limits: Limits)
    ensures var n := Excess(entries, limits);
            Within(entries[n..], limits) && forall k :: 0 <= k < n ==> !Within(entries[k..], limits)
  {
    assert entries[0..] == entries;
    if !Within(entries, limits) {
      TrimIsLeast(entries[1..], limits);
      var n := Excess(entries, limits);
      assert entries[1..][n - 1..] == entries[n..];
      forall k | 0 <= k < n
        ensures !Within(entries[k..], limits)
      {
        if k > 0 {
          assert entries[1..][k - 1..] == entries[k..];
        }
      }
    }
  }

  // ---------------------------------------------------------------- budgets

  /** The fold appended an entry, rather than skipping or upgrading. */
  predicate Appends(s: Index, limits: Limits, flatten: string -> string, prompts: seq<Prompt>) {
    prompts != []
    && (Appends(s, limits, flatten, prompts[..|prompts| - 1])
        || var before, text := PushAll(s, limits, flatten, prompts[..|prompts| - 1]), flatten(prompts[|prompts| - 1].text);
           Enters(before, text) && !Repeats(before, text))
  }

  lemma SizeOfUpgrade(entries: seq<Entry>, e: Entry)
    requires entries != [] && e.text == entries[|entries| - 1].text
    ensures Size(entries[|entries| - 1 := e]) == Size(entries)
  {
    var n := entries[|entries| - 1 := e];
    assert n[..|entries| - 1] == entries[..|entries| - 1];
  }

  /** After a fold both budgets hold exactly when they held before it or it appended an entry: a fold that only skips or
    * upgrades leaves a prefix that was put in front over budget. */
  lemma {:induction false} FoldBudgets(s: Index, limits: Limits, flatten: string -> string, prompts: seq<Prompt>)
    ensures Within(PushAll(s, limits, flatten, prompts).entries, limits)
            <==> Within(s.entries, limits) || Appends(s, limits, flatten, prompts)
  {
    if prompts != [] {
      var before := PushAll(s, limits, flatten, prompts[..|prompts| - 1]);
      var last := prompts[|prompts| - 1];
      FoldBudgets(s, limits, flatten, prompts[..|prompts| - 1]);
      PushBudgets(before, limits, last.seqNo, flatten(last.text));
    }
  }

  lemma PushBudgets(s: Index, limits: Limits, seqNo: int, text: string)
    ensures Within(Push(s, limits, seqNo, text).entries, limits)
            <==> Within(s.entries, limits) || (Enters(s, text) && !Repeats(s, text))
  {
    if Enters(s, text) && !Repeats(s, text) {
      TrimIsLeast(s.entries + [Entry(seqNo, text, true)], limits);
    } else if Enters(s, text) {
      SizeOfUpgrade(s.entries, Entry(seqNo, text, true));
    }
  }

  lemma RecordBudgets(s: Index, limits: Limits, text: string)
    ensures Within(Record(s, limits, text).entries, limits)
            <==> Within(s.entries, limits) || (Enters(s, text) && !Repeats(s, text))
  {
    TrimIsLeast(s.entries + [Entry(s.newest, text, false)], limits);
  }

  /** Settling always ends within both budgets. */
  lemma SettleBudgets(s: Index, limits: Limits)
    ensures Within(Trim(s, limits).entries, limits)
  {
    TrimIsLeast(s.entries, limits);
  }

  // ---------------------------------------------------------------- the cursor

  function Texts(entries: seq<Entry>): (texts: seq<string>)
    ensures |texts| == |entries| && forall i :: 0 <= i < |entries| ==> texts[i] == entries[i].text
  {
    if entries == [] then [] else Texts(entries[..|entries| - 1]) + [entries[|entries| - 1].text]
  }

  function Moved(position: Option<nat>, added: nat, evicted: nat): Option<nat> {
    if position.None? then None else Some(Max(0, position.value + added - evicted))
  }

  /** The oldest entries left and others may have joined at the end; a parked cursor stays on its own entry, or stands at
    * the oldest one when its own is gone. */
  ghost predicate Evicts(s: Index, n: Index, evicted: nat) {
    && n.position == Moved(s.position, 0, evicted)
    && (evicted <= |s.entries| ==> Texts(s.entries)[evicted..] <= Texts(n.entries))
  }

  lemma TextsDrop(entries: seq<Entry>, n: nat)
    requires n <= |entries|
    ensures Texts(entries[n..]) == Texts(entries)[n..]
  {
  }

  lemma AppendEvicts(s: Index, limits: Limits, e: Entry)
    ensures Evicts(s, Append(s, limits, e), Excess(s.entries + [e], limits))
  {
    var n := Excess(s.entries + [e], limits);
    TextsDrop(s.entries + [e], n);
    assert Texts(s.entries + [e]) == Texts(s.entries) + [e.text];
  }

  lemma PushEvicts(s: Index, limits: Limits, seqNo: int, text: string) returns (evicted: nat)
    ensures Evicts(s, Push(s, limits, seqNo, text), evicted)
  {
    evicted := 0;
    if Enters(s, text) && !Repeats(s, text) {
      AppendEvicts(s, limits, Entry(seqNo, text, true));
      evicted := Excess(s.entries + [Entry(seqNo, text, true)], limits);
    } else if Enters(s, text) {
      assert Texts(Push(s, limits, seqNo, text).entries) == Texts(s.entries);
    }
  }

  lemma EvictsChain(s: Index, m: Index, n: Index, first: nat, second: nat)
    requires Evicts(s, m, first) && Evicts(m, n, second)
    ensures Evicts(s, n, first + second)
  {
    if first + second <= |s.entries| {
      assert Texts(s.entries)[first..][second..] == Texts(s.entries)[first + second..];
      assert Texts(s.entries)[first..][second..] <= Texts(m.entries)[second..];
    }
  }

  /** A fold evicts from the oldest end, and the cursor follows its entry. */
  lemma {:induction false} FoldEvicts(s: Index, limits: Limits, flatten: string -> string, prompts: seq<Prompt>)
    returns (evicted: nat)
    ensures Evicts(s, PushAll(s, limits, flatten, prompts), evicted)
  {
    evicted := 0;
    if prompts != [] {
      var before, last := PushAll(s, limits, flatten, prompts[..|prompts| - 1]), prompts[|prompts| - 1];
      var first := FoldEvicts(s, limits, flatten, prompts[..|prompts| - 1]);
      var second := PushEvicts(before, limits, last.seqNo, flatten(last.text));
      EvictsChain(s, before, PushAll(s, limits, flatten, prompts), first, second);
      evicted := first + second;
    }
  }

  /** Settling evicts exactly the excess. */
  lemma SettleEvicts(s: Index, limits: Limits)
    ensures Evicts(s, Trim(s, limits), Excess(s.entries, limits))
  {
    TextsDrop(s.entries, Excess(s.entries, limits));
  }

  lemma TextsJoin(a: seq<Entry>, b: seq<Entry>)
    ensures Texts(a + b) == Texts(a) + Texts(b)
  {
  }

  /** Prompts put in front move every entry up, and the cursor with its own. */
  lemma PrependMovesUp(s: Index, flatten: string -> string, prompts: seq<Prompt>)
    ensures var n, older := Prepend(s, flatten, prompts), Older(s, flatten, prompts);
            && Texts(n.entries) == Texts(older) + Texts(s.entries) && n.position == Moved(s.position, |older|, 0)
  {
    TextsJoin(Older(s, flatten, prompts), s.entries);
  }

  /** So the entry under an active cursor is the same before and after, unless it was evicted. */
  lemma CursorKeepsItsEntry(s: Index, n: Index, evicted: nat)
    requires Evicts(s, n, evicted) && s.position.Some? && evicted <= s.position.value < |s.entries|
    ensures n.position.Some? && n.position.value < |n.entries|
            && n.entries[n.position.value].text == s.entries[s.position.value].text
  {
    var at := s.position.value - evicted;
    assert Texts(s.entries)[evicted..][at] == Texts(n.entries)[at];
  }

  // ---------------------------------------------------------------- recall

  /** Press the key towards older or newer input a number of times. */
  function MoveMany(s: Index, older: bool, current: string, times: nat): (Index, string) {
    if times == 0 then (s, current)
    else
      var before := MoveMany(s, older, current, times - 1);
      Move(before.0, older, before.1)
  }

  lemma {:induction false} OlderTimes(s: Index, current: string, times: nat)
    requires s.position.None? && s.entries != [] && 0 < times
    ensures var r := MoveMany(s, true, current, times);
            var at := Max(0, |s.entries| - times);
            r == (s.(position := Some(at), draft := current), s.entries[at].text)
  {
    if times > 1 {
      OlderTimes(s, current, times - 1);
    } else {
      assert MoveMany(s, true, current, 0) == (s, current);
    }
  }

  lemma {:induction false} NewerTimes(s: Index, shown: string, times: nat)
    requires s.position.Some? && s.position.value + times < |s.entries| && shown == s.entries[s.position.value].text
    ensures var at := s.position.value + times;
            MoveMany(s, false, shown, times) == (s.(position := Some(at)), s.entries[at].text)
  {
    if times > 0 {
      NewerTimes(s, shown, times - 1);
    }
  }

  /** Recall is a round trip: after any number of steps back, the same steps forward, or as many as there are entries,
    * pass the same inputs and end with the operator's own draft and no cursor. */
  lemma RecallRoundTrip(s: Index, current: string, times: nat)
    requires s.position.None? && s.draft == "" && s.entries != [] && 0 < times
    ensures var back := MoveMany(s, true, current, times);
            MoveMany(back.0, false, back.1, Min(times, |s.entries|)) == (s, current)
  {
    OlderTimes(s, current, times);
    var back := MoveMany(s, true, current, times);
    var steps := Min(times, |s.entries|);
    NewerToDraft(back.0, back.1, steps);
  }

  /** As many steps forward as there are entries from the cursor on give the draft back. */
  lemma NewerToDraft(s: Index, shown: string, times: nat)
    requires 0 < times <= |s.entries| && s.position == Some(|s.entries| - times)
    requires shown == s.entries[|s.entries| - times].text
    ensures MoveMany(s, false, shown, times) == (s.(position := None, draft := ""), s.draft)
  {
    NewerTimes(s, shown, times - 1);
    LastIsDraft(s.(position := Some(|s.entries| - 1)), s.entries[|s.entries| - 1].text);
  }

  /** One step past the newest entry gives the draft back. */
  lemma LastIsDraft(s: Index, shown: string)
    requires s.position == Some(|s.entries| - 1)
    ensures Move(s, false, shown) == (s.(position := None, draft := ""), s.draft)
  {
  }

  // ---------------------------------------------------------------- order, and whole runs

  predicate Ascending(entries: seq<Entry>, below: int) {
    && (forall i, j :: 0 <= i < j < |entries| && entries[i].durable && entries[j].durable ==> entries[i].seqNo < entries[j].seqNo)
    && (forall i :: 0 <= i < |entries| && entries[i].durable ==> entries[i].seqNo <= below)
  }

  datatype Event =
    | Folds(prompts: seq<Prompt>, through: int)
    | Records(text: string)
    | Prepends(prompts: seq<Prompt>)
    | Moves(older: bool, current: string)
    | Leaves
    | Settles
    | Suppresses(text: string)
    | Completes
    | Resets

  function Step(s: Index, limits: Limits, flatten: string -> string, e: Event): Index {
    match e
    case Folds(prompts, through) => Fold(s, limits, flatten, prompts, through)
    case Records(text) => Record(s, limits, flatten(text))
    case Prepends(prompts) => Prepend(s, flatten, prompts)
    case Moves(older, current) => Move(s, older, current).0
    case Leaves => ResetCursor(s)
    case Settles => Trim(s, limits)
    case Suppresses(text) => Suppress(s, flatten(text))
    case Completes => MarkComplete(s)
    case Resets => Empty.(internal := s.internal)
  }

  function Run(limits: Limits, flatten: string -> string, events: seq<Event>): Index {
    if events == [] then Empty
    else Step(Run(limits, flatten, events[..|events| - 1]), limits, flatten, events[|events| - 1])
  }

  predicate PromptsAscend(prompts: seq<Prompt>) {
    forall i, j :: 0 <= i < j < |prompts| ==> prompts[i].seqNo < prompts[j].seqNo
  }

  /** A fold brings newer prompts in order; a page brings prompts in order that are not newer than what was folded. */
  predicate InOrder(s: Index, e: Event) {
    && (e.Folds? ==> PromptsAscend(e.prompts) && forall i :: 0 <= i < |e.prompts| ==> s.newest < e.prompts[i].seqNo)
    && (e.Prepends? ==> PromptsAscend(e.prompts) && forall i :: 0 <= i < |e.prompts| ==> e.prompts[i].seqNo <= s.newest)
  }

  /** The byte account is exact, the cursor is inside, an index that shed a prefix does not claim to be complete, and the
    * durable prompts ascend. */
  predicate Inv(s: Index) {
    && s.bytes == Size(s.entries)
    && (s.position.Some? ==> s.position.value <= |s.entries|)
    && !(s.shed && s.complete)
    && |s.internal| <= MaxInternal
    && Ascending(s.entries, s.newest)
  }

  lemma AscendingDrop(entries: seq<Entry>, below: int, n: nat)
    requires Ascending(entries, below) && n <= |entries|
    ensures Ascending(entries[n..], below)
  {
  }

  lemma AppendKeepsOrder(s: Index, limits: Limits, e: Entry, below: int)
    requires Ascending(s.entries, below) && (e.durable ==> below < e.seqNo)
    ensures Ascending(Append(s, limits, e).entries, if e.durable then e.seqNo else below)
  {
    var grown := s.entries + [e];
    AscendingDrop(grown, if e.durable then e.seqNo else below, Excess(grown, limits));
  }

  lemma PushKeepsOrder(s: Index, limits: Limits, seqNo: int, text: string, below: int)
    requires Ascending(s.entries, below) && below < seqNo
    ensures Ascending(Push(s, limits, seqNo, text).entries, seqNo)
  {
    if Enters(s, text) && !Repeats(s, text) {
      AppendKeepsOrder(s, limits, Entry(seqNo, text, true), below);
    }
  }

  lemma NewestIsLast(prompts: seq<Prompt>)
    requires PromptsAscend(prompts) && prompts != [] && prompts[|prompts| - 1].seqNo >= -1
    ensures Newest(prompts) == prompts[|prompts| - 1].seqNo
  {
    if |prompts| > 1 {
      NewestAtMost(prompts[..|prompts| - 1], prompts[|prompts| - 1].seqNo);
    }
  }

  lemma {:induction false} NewestAtMost(prompts: seq<Prompt>, bound: int)
    requires bound >= -1 && forall i :: 0 <= i < |prompts| ==> prompts[i].seqNo <= bound
    ensures Newest(prompts) <= bound
  {
    if prompts != [] {
      NewestAtMost(prompts[..|prompts| - 1], bound);
    }
  }

  /** Folding prompts in order keeps the durable ones ascending. */
  lemma {:induction false} PushAllKeepsOrder(s: Index, limits: Limits, flatten: string -> string, prompts: seq<Prompt>)
    requires Ascending(s.entries, s.newest) && PromptsAscend(prompts)
    requires forall i :: 0 <= i < |prompts| ==> s.newest < prompts[i].seqNo
    ensures Ascending(PushAll(s, limits, flatten, prompts).entries,
                      if prompts == [] then s.newest else prompts[|prompts| - 1].seqNo)
  {
    if prompts != [] {
      var front, last := prompts[..|prompts| - 1], prompts[|prompts| - 1];
      PushAllKeepsOrder(s, limits, flatten, front);
      PushKeepsOrder(PushAll(s, limits, flatten, front), limits, last.seqNo, flatten(last.text),
                     if front == [] then s.newest else front[|front| - 1].seqNo);
    }
  }

  lemma PushKeepsBytes(s: Index, limits: Limits, seqNo: int, text: string)
    requires s.bytes == Size(s.entries)
    ensures var n := Push(s, limits, seqNo, text); n.bytes == Size(n.entries)
  {
    if Enters(s, text) && Repeats(s, text) {
      SizeOfUpgrade(s.entries, Entry(seqNo, text, true));
    }
  }

  predicate PositionOk(s: Index) {
    s.position.Some? ==> s.position.value <= |s.entries|
  }

  lemma PushKeepsRest(s: Index, limits: Limits, seqNo: int, text: string)
    requires PositionOk(s) && !(s.shed && s.complete)
    ensures var n := Push(s, limits, seqNo, text);
            PositionOk(n) && !(n.shed && n.complete) && n.internal == s.internal && n.newest == s.newest
  {
  }

  lemma {:induction false} PushAllKeepsRest(s: Index, limits: Limits, flatten: string -> string, prompts: seq<Prompt>)
    requires s.bytes == Size(s.entries) && PositionOk(s) && !(s.shed && s.complete)
    ensures var n := PushAll(s, limits, flatten, prompts);
            && n.bytes == Size(n.entries) && PositionOk(n) && !(n.shed && n.complete)
            && n.internal == s.internal && n.newest == s.newest
  {
    if prompts != [] {
      var before, last := PushAll(s, limits, flatten, prompts[..|prompts| - 1]), prompts[|prompts| - 1];
      PushAllKeepsRest(s, limits, flatten, prompts[..|prompts| - 1]);
      PushKeepsBytes(before, limits, last.seqNo, flatten(last.text));
      PushKeepsRest(before, limits, last.seqNo, flatten(last.text));
    }
  }

  lemma AscendingRaise(entries: seq<Entry>, low: int, high: int)
    requires Ascending(entries, low) && low <= high
    ensures Ascending(entries, high)
  {
  }

  lemma FoldKeepsInv(s: Index, limits: Limits, flatten: string -> string, prompts: seq<Prompt>, through: int)
    requires Inv(s) && InOrder(s, Folds(prompts, through)) && s.newest >= -1
    ensures Inv(Fold(s, limits, flatten, prompts, through))
  {
    PushAllKeepsRest(s, limits, flatten, prompts);
    PushAllKeepsOrder(s, limits, flatten, prompts);
    var n := Fold(s, limits, flatten, prompts, through);
    if prompts != [] {
      NewestIsLast(prompts);
      AscendingRaise(n.entries, prompts[|prompts| - 1].seqNo, n.newest);
    } else {
      AscendingRaise(n.entries, s.newest, n.newest);
    }
  }

  lemma {:induction false} OldestDurableMeans(entries: seq<Entry>)
    ensures var oldest := OldestDurable(entries);
            && (oldest.None? ==> forall i :: 0 <= i < |entries| ==> !entries[i].durable)
            && (oldest.Some? ==> exists i :: 0 <= i < |entries| && entries[i].durable && entries[i].seqNo == oldest.value
                                            && forall j :: 0 <= j < i ==> !entries[j].durable)
  {
    if entries != [] && !entries[0].durable {
      OldestDurableMeans(entries[1..]);
      var oldest := OldestDurable(entries[1..]);
      if oldest.Some? {
        var i :| 0 <= i < |entries[1..]| && entries[1..][i].durable && entries[1..][i].seqNo == oldest.value
                 && forall j :: 0 <= j < i ==> !entries[1..][j].durable;
        assert entries[i + 1] == entries[1..][i];
        forall j | 0 <= j < i + 1
          ensures !entries[j].durable
        {
          if j > 0 {
            assert entries[j] == entries[1..][j - 1];
          }
        }
      } else {
        forall i | 0 <= i < |entries|
          ensures !entries[i].durable
        {
          if i > 0 {
            assert entries[i] == entries[1..][i - 1];
          }
        }
      }
    }
  }

  predicate AllBelow(older: seq<Entry>, bound: int) {
    forall i :: 0 <= i < |older| ==> older[i].durable && older[i].seqNo < bound
  }

  /** The prompts a page adds ascend, below everything durable that is retained. */
  lemma {:induction false} OlderAscends(s: Index, flatten: string -> string, prompts: seq<Prompt>, bound: int)
    requires PromptsAscend(prompts) && forall i :: 0 <= i < |prompts| ==> prompts[i].seqNo < bound
    ensures var older := Older(s, flatten, prompts);
            && AllBelow(older, bound)
            && (OldestDurable(s.entries).Some? ==> AllBelow(older, OldestDurable(s.entries).value))
            && forall i, j :: 0 <= i < j < |older| ==> older[i].seqNo < older[j].seqNo
  {
    if prompts != [] {
      OlderAscends(s, flatten, prompts[..|prompts| - 1], prompts[|prompts| - 1].seqNo);
    }
  }

  lemma PrependKeepsInv(s: Index, flatten: string -> string, prompts: seq<Prompt>)
    requires Inv(s) && InOrder(s, Prepends(prompts))
    ensures Inv(Prepend(s, flatten, prompts))
  {
    var older, n := Older(s, flatten, prompts), Prepend(s, flatten, prompts);
    OlderAscends(s, flatten, prompts, s.newest + 1);
    OldestDurableMeans(s.entries);
    SizeJoin(older, s.entries);
    JoinAscends(older, s.entries, s.newest);
  }

  lemma JoinAscends(older: seq<Entry>, entries: seq<Entry>, below: int)
    requires Ascending(entries, below) && AllBelow(older, below + 1)
    requires OldestDurable(entries).Some? ==> AllBelow(older, OldestDurable(entries).value)
    requires forall i, j :: 0 <= i < j < |older| ==> older[i].seqNo < older[j].seqNo
    ensures Ascending(older + entries, below)
  {
    var all := older + entries;
    OldestDurableMeans(entries);
    forall i, j | 0 <= i < j < |all| && all[i].durable && all[j].durable
      ensures all[i].seqNo < all[j].seqNo
    {
      if i < |older| <= j {
        var first :| 0 <= first < |entries| && entries[first].durable && entries[first].seqNo == OldestDurable(entries).value
                     && forall k :: 0 <= k < first ==> !entries[k].durable;
        assert first <= j - |older|;
      }
    }
  }

  lemma {:induction false} RemoveShrinks(texts: seq<string>, text: string)
    ensures |Remove(texts, text)| <= |texts|
  {
    if texts != [] {
      RemoveShrinks(texts[..|texts| - 1], text);
    }
  }

  lemma OthersKeepInv(s: Index, limits: Limits, flatten: string -> string, e: Event)
    requires Inv(s) && !e.Folds? && !e.Prepends?
    ensures Inv(Step(s, limits, flatten, e))
  {
    match e
    case Records(text) =>
      AppendKeepsOrder(s, limits, Entry(s.newest, flatten(text), false), s.newest);
    case Settles => AscendingDrop(s.entries, s.newest, Excess(s.entries, limits));
    case Suppresses(text) => RemoveShrinks(s.internal, flatten(text));
    case _ =>
  }

  /** The watermark never goes back, except when the index is reset. */
  lemma StepRaisesWatermark(s: Index, limits: Limits, flatten: string -> string, e: Event)
    ensures !e.Resets? ==> s.newest <= Step(s, limits, flatten, e).newest
    ensures e.Resets? ==> Step(s, limits, flatten, e).newest == -1
  {
    if e.Folds? {
      PushAllKeepsNewest(s, limits, flatten, e.prompts);
    }
  }

  lemma {:induction false} PushAllKeepsNewest(s: Index, limits: Limits, flatten: string -> string, prompts: seq<Prompt>)
    ensures PushAll(s, limits, flatten, prompts).newest == s.newest
  {
    if prompts != [] {
      PushAllKeepsNewest(s, limits, flatten, prompts[..|prompts| - 1]);
    }
  }

  /** Every step of a run came in order. */
  ghost predicate RunsInOrder(limits: Limits, flatten: string -> string, events: seq<Event>) {
    forall i :: 0 <= i < |events| ==> InOrder(Run(limits, flatten, events[..i]), events[i])
  }

  /** After any such run the bytes are exact, the cursor is inside and the durable prompts strictly ascend. */
  lemma {:induction false} EveryRunKeepsInv(limits: Limits, flatten: string -> string, events: seq<Event>)
    requires RunsInOrder(limits, flatten, events)
    ensures Inv(Run(limits, flatten, events)) && Run(limits, flatten, events).newest >= -1
  {
    if events != [] {
      var front, last := events[..|events| - 1], events[|events| - 1];
      assert forall i :: 0 <= i < |front| ==> front[..i] == events[..i];
      EveryRunKeepsInv(limits, flatten, front);
      var s := Run(limits, flatten, front);
      StepRaisesWatermark(s, limits, flatten, last);
      assert InOrder(Run(limits, flatten, events[..|front|]), last);
      if last.Folds? {
        FoldKeepsInv(s, limits, flatten, last.prompts, last.through);
      } else if last.Prepends? {
        PrependKeepsInv(s, flatten, last.prompts);
      } else {
        OthersKeepInv(s, limits, flatten, last);
      }
    }
  }

  // ---------------------------------------------------------------- the index object

  class PromptIndex {
    const limits: Limits
    const flatten: string -> string
    var entries: seq<Entry>
    var bytes: int
    var newestSeq: int
    var complete: bool
    var shed: bool
    var position: Option<nat>
    var draft: string
    var internal: seq<string>

    constructor (limits: Limits, flatten: string -> string)
      ensures State() == Empty && this.limits == limits && this.flatten == flatten
    {
      this.limits, this.flatten := limits, flatten;
      entries, bytes, newestSeq, complete, shed, position, draft, internal := [], 0, -1, false, false, None, "", [];
    }

    ghost function State(): Index
      reads this
    {
      Index(entries, bytes, newestSeq, complete, shed, position, draft, internal)
    }

    /** Take the oldest entries off until both budgets hold. */
    method DropOldest() returns (removed: nat)
      requires bytes == Size(entries)
      modifies this`entries, this`bytes
      ensures removed == Excess(old(entries), limits) && entries == old(entries)[removed..] && bytes == Size(entries)
    {
      removed := 0;
      assert entries[0..] == entries;
      while |entries| > limits.maxEntries || bytes > limits.maxBytes
        invariant bytes == Size(entries) && removed <= |old(entries)| && entries == old(entries)[removed..]
        invariant removed + Excess(entries, limits) == Excess(old(entries), limits)
        decreases |entries|
      {
        SizeDrop(entries);
        bytes := bytes - 2 * |entries[0].text|;
        entries := entries[1..];
        removed := removed + 1;
      }
    }

    method TrimToBudgets()
      requires bytes == Size(entries)
      modifies this
      ensures State() == Trim(old(State()), limits)
    {
      var removed := DropOldest();
      if removed > 0 {
        shed, complete := true, false;
      }
      if position.Some? {
        position := Some(Max(0, position.value - removed));
      }
    }

    method AppendEntry(e: Entry)
      requires bytes == Size(entries)
      modifies this
      ensures State() == Append(old(State()), limits, e)
    {
      SizeSnoc(entries, e);
      TrimForgetsBytes(State().(entries := entries + [e]), Size(entries + [e]), limits);
      entries := entries + [e];
      bytes := bytes + 2 * |e.text|;
      assert State() == old(State()).(entries := old(entries) + [e], bytes := Size(old(entries) + [e]));
      TrimToBudgets();
    }

    method PushPrompt(seqNo: int, text: string)
      requires bytes == Size(entries)
      modifies this
      ensures State() == Push(old(State()), limits, seqNo, text)
    {
      if text in internal || !Retainable(text) {
        return;
      }
      if entries != [] && entries[|entries| - 1].text == text {
        entries := entries[|entries| - 1 := Entry(seqNo, text, true)];
        return;
      }
      AppendEntry(Entry(seqNo, text, true));
    }

    method FoldScan(prompts: seq<Prompt>, through: int)
      requires bytes == Size(entries)
      modifies this
      ensures State() == Fold(old(State()), limits, flatten, prompts, through)
    {
      for i := 0 to |prompts|
        invariant State() == PushAll(old(State()), limits, flatten, prompts[..i]) && bytes == Size(entries)
      {
        PushKeepsBytes(State(), limits, prompts[i].seqNo, flatten(prompts[i].text));
        assert prompts[..i + 1][..i] == prompts[..i];
        PushPrompt(prompts[i].seqNo, flatten(prompts[i].text));
      }
      assert prompts[..|prompts|] == prompts;
      PushAllKeepsNewest(old(State()), limits, flatten, prompts);
      newestSeq := Max(Max(newestSeq, through), Newest(prompts));
    }

    method RecordCommand(value: string)
      requires bytes == Size(entries)
      modifies this
      ensures State() == Record(old(State()), limits, flatten(value))
    {
      var text := flatten(value);
      if text in internal || !Retainable(text) || (entries != [] && entries[|entries| - 1].text == text) {
        return;
      }
      AppendEntry(Entry(newestSeq, text, false));
    }

    /** The prompts of a page that come before every durable entry, each sequence once. */
    method OlderOf(prompts: seq<Prompt>) returns (older: seq<Entry>)
      ensures older == Older(State(), flatten, prompts)
    {
      var oldest := OldestDurable(entries);
      var seen: set<int> := {};
      older := [];
      for i := 0 to |prompts|
        invariant older == Older(State(), flatten, prompts[..i])
        invariant forall n :: n in seen <==> HasSeq(older, n)
      {
        assert prompts[..i + 1][..i] == prompts[..i];
        var seqNo, text := prompts[i].seqNo, flatten(prompts[i].text);
        if !(oldest.Some? && seqNo >= oldest.value) && seqNo !in seen && text !in internal && Retainable(text) {
          HasSeqSnoc(older, Entry(seqNo, text, true));
          seen := seen + {seqNo};
          older := older + [Entry(seqNo, text, true)];
        }
      }
      assert prompts[..|prompts|] == prompts;
    }

    method PrependPage(prompts: seq<Prompt>) returns (added: nat)
      modifies this
      ensures State() == Prepend(old(State()), flatten, prompts) && added == |Older(old(State()), flatten, prompts)|
    {
      var older := OlderOf(prompts);
      added := |older|;
      if older == [] {
        return;
      }
      entries := older + entries;
      bytes := bytes + Size(older);
      if position.Some? {
        position := Some(position.value + |older|);
      }
    }

    method Recall(older: bool, current: string) returns (shown: string)
      requires position.Some? ==> position.value <= |entries|
      modifies this
      ensures (State(), shown) == Move(old(State()), older, current)
    {
      if entries == [] {
        return current;
      }
      if position.None? {
        if !older {
          return current;
        }
        position, draft := Some(|entries|), current;
      }
      position := Some(Max(0, Min(|entries|, if older then position.value - 1 else position.value + 1)));
      if position.value == |entries| {
        shown := draft;
        position, draft := None, "";
        return;
      }
      return entries[position.value].text;
    }

    method SuppressText(value: string)
      modifies this
      ensures State() == Suppress(old(State()), flatten(value))
    {
      var text := flatten(value);
      if text == "" {
        return;
      }
      internal := Remove(internal, text) + [text];
      ghost var texts := internal;
      while |internal| > MaxInternal
        invariant State() == old(State()).(internal := internal)
        invariant |internal| <= |texts| && internal == texts[|texts| - |internal|..]
        invariant |texts| > MaxInternal ==> |internal| >= MaxInternal
        invariant |texts| <= MaxInternal ==> internal == texts
        decreases |internal|
      {
        internal := internal[1..];
      }
    }
  }

  lemma HasSeqSnoc(entries: seq<Entry>, e: Entry)
    ensures forall n :: HasSeq(entries + [e], n) <==> HasSeq(entries, n) || n == e.seqNo
  {
    var all := entries + [e];
    forall n
      ensures HasSeq(all, n) <==> HasSeq(entries, n) || n == e.seqNo
    {
      if HasSeq(entries, n) {
        var i :| 0 <= i < |entries| && entries[i].seqNo == n;
        assert all[i].seqNo == n;
      }
      assert all[|entries|] == e;
    }
  }
}
