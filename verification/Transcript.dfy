/** The record store of one conversation (src/session/transcript.ts): what is stored, its byte account, its key cache,
  * the live tail, and the trim. */
module Transcript {
  import opened Collections
  import opened KeyOrder
  import opened LegacyFold
  import opened TrimHistory

  /** Without the legacy stream every undisplayed record is deleted at once. */
  function Displayed(events: map<nat, Event>): map<nat, Event> {
    map k | k in events && Displays(events[k]) :: events[k]
  }

  ghost function AddTo(legacy: bool, s: Stream, records: seq<Record>): Stream {
    if legacy then AddBatch(s, records)
    else
      var t := TakeAll(s, records);
      Stream(Displayed(t.events), t.dirty, s.folded, s.live)
  }

  function Undisplayed(events: map<nat, Event>): set<nat> {
    set k | k in events && !Displays(events[k])
  }

  /** The newest and the oldest sequence ever added. */
  function Through(before: int, records: seq<Record>): int {
    if records == [] then before else Max(Through(before, records[..|records| - 1]), records[|records| - 1].key)
  }

  function Oldest(before: Option<nat>, records: seq<Record>): Option<nat> {
    if records == [] then before
    else
      var front, last := Oldest(before, records[..|records| - 1]), records[|records| - 1].key;
      if front.Some? && front.value <= last then front else Some(last)
  }

  /** The newest is the greatest of the sequences added and the one before. */
  lemma {:induction false} ThroughIsGreatest(before: int, records: seq<Record>)
    ensures var n := Through(before, records);
            before <= n && (forall r :: r in records ==> r.key <= n) && (n == before || n in Keys(records))
  {
    if records != [] {
      var front, last := records[..|records| - 1], records[|records| - 1];
      ThroughIsGreatest(before, front);
      assert records == front + [last];
      KeysSnoc(front, last);
    }
  }

  /** The oldest is the least of them. */
  lemma {:induction false} OldestIsLeast(before: Option<nat>, records: seq<Record>)
    ensures var n := Oldest(before, records);
            && (n.None? <==> before.None? && records == []) && (n.Some? ==> n == before || n.value in Keys(records))
            && (before.Some? ==> n.value <= before.value) && forall r :: r in records ==> n.value <= r.key
  {
    if records != [] {
      var front, last := records[..|records| - 1], records[|records| - 1];
      OldestIsLeast(before, front);
      assert records == front + [last];
      KeysSnoc(front, last);
    }
  }

  /** Without a legacy stream a batch leaves exactly the messages and tool results, and the tail alone. */
  lemma PlainBatchKeepsMessages(s: Stream, records: seq<Record>, k: nat)
    ensures var t, n := TakeAll(s, records), AddTo(false, s, records);
            && (k in n.events <==> k in t.events
                                   && (t.events[k].UserMessage? || t.events[k].AssistantMessage? || t.events[k].ToolResult?))
            && (k in n.events ==> n.events[k] == t.events[k]) && n.live == s.live && n.folded == s.folded
    ensures AddTo(true, s, records) == AddBatch(s, records)
  {
  }

  /** Reasoning blocks among some indexes that a delta elsewhere closes. */
  function Closing(blocks: map<int, Block>, index: int, among: set<int>): set<int> {
    set i | i in among && i in blocks && blocks[i].kind == "reasoning" && i != index
  }

  lemma ClosingStep(blocks: map<int, Block>, index: int, todo: set<int>, i: int)
    requires i in todo && todo <= blocks.Keys
    ensures Closing(blocks, index, blocks.Keys - (todo - {i}))
            == Closing(blocks, index, blocks.Keys - todo)
               + if blocks[i].kind == "reasoning" && i != index then {i} else {}
  {
  }

  lemma ClosingAll(live: Live, c: LegacyFold.Chunk)
    requires c.TextDelta? || c.ToolDelta?
    ensures live.closed + Closing(live.blocks, c.index, live.blocks.Keys - {}) == ClosedBy(live, c)
  {
  }

  class Transcript {
    const sizeOf: Event -> nat
    var events: map<nat, Event>
    var sizes: map<nat, nat>
    var storedBytes: int
    var transientSeqs: set<nat>
    var keysDirty: bool
    var sortedSeqs: seq<nat>
    var legacyStream: bool
    var legacyDirty: bool
    var legacySeq: int
    var blocks: map<int, Block>
    var closedBlocks: set<int>
    var legacyPosition: Option<(int, int)>
    var throughSeq: int
    var oldestSeq: Option<nat>
    var cursor: int
    var hasMore: bool

    constructor (sizeOf: Event -> nat)
      ensures Valid() && State() == Opening && this.sizeOf == sizeOf
    {
      this.sizeOf := sizeOf;
      events, sizes, storedBytes, transientSeqs := map[], map[], 0, {};
      keysDirty, sortedSeqs := true, [];
      legacyStream, legacyDirty, legacySeq := false, true, -1;
      blocks, closedBlocks, legacyPosition := map[], {}, None;
      throughSeq, oldestSeq, cursor, hasMore := -1, None, -1, false;
    }

    ghost function Tail(): Live
      reads this
    {
      Live(blocks, closedBlocks, legacyPosition)
    }

    ghost function State(): Stream
      reads this
    {
      Stream(events, legacyDirty, legacySeq, Tail())
    }

    /** The fold position is a sequence or -1. */
    ghost predicate PositionOk()
      reads this
    {
      legacySeq >= -1
    }

    /** The byte account covers exactly the retained keys and adds up. */
    ghost predicate BytesOk()
      reads this
    {
      && sizes.Keys == events.Keys && storedBytes == Total(sizes)
      && forall k :: k in events ==> sizes[k] == sizeOf(events[k])
    }

    /** A clean key cache is the ascending key list. */
    ghost predicate KeysOk()
      reads this
    {
      !keysDirty ==> sortedSeqs == Ascending(events.Keys)
    }

    ghost predicate Valid()
      reads this
    {
      BytesOk() && KeysOk() && PositionOk() && transientSeqs == Undisplayed(events)
    }

    method StoreEvent(key: nat, event: Event)
      requires BytesOk()
      modifies this`events, this`sizes, this`storedBytes
      ensures BytesOk() && events == old(events)[key := event]
    {
      var bytes := sizeOf(event);
      TotalStored(sizes, key, bytes);
      storedBytes := storedBytes + bytes - BytesOf(sizes, key);
      sizes := sizes[key := bytes];
      events := events[key := event];
    }

    method DeleteEvent(key: nat)
      requires BytesOk()
      modifies this`events, this`sizes, this`storedBytes
      ensures BytesOk() && events == old(events) - {key}
    {
      TotalDeleted(sizes, key);
      storedBytes := storedBytes - BytesOf(sizes, key);
      sizes := sizes - {key};
      events := events - {key};
    }

    method SortedKeys() returns (keys: seq<nat>)
      requires KeysOk()
      modifies this`keysDirty, this`sortedSeqs
      ensures KeysOk() && !keysDirty && keys == Ascending(events.Keys)
    {
      if keysDirty {
        sortedSeqs := SortKeys(events.Keys);
        keysDirty := false;
      }
      keys := sortedSeqs;
    }

    // -------------------------------------------------------------- the live tail

    method Chunk(c: LegacyFold.Chunk)
      modifies this`blocks, this`closedBlocks
      ensures Tail() == AddChunk(old(Tail()), c)
    {
      if c.TextDelta? || c.ToolDelta? {
        CloseReasoning(c);
      }
      if c.TextDelta? || c.ReasoningDelta? {
        var before := if c.index in blocks then blocks[c.index].text else "";
        blocks := blocks[c.index := Block(if c.TextDelta? then "text" else "reasoning", before + c.text, "", "")];
      } else if c.ToolDelta? {
        var known := c.index in blocks;
        var name := if c.name.Some? then c.name.value else if known then blocks[c.index].name else "";
        var id := if c.id.Some? then c.id.value else if known then blocks[c.index].id else "";
        blocks := blocks[c.index := Block("tool-call", "", id, name)];
      } else if c.BlockEnd? {
        blocks := blocks[c.index := c.block];
        closedBlocks := closedBlocks + {c.index};
      }
    }

    method CloseReasoning(c: LegacyFold.Chunk)
      requires c.TextDelta? || c.ToolDelta?
      modifies this`closedBlocks
      ensures closedBlocks == ClosedBy(old(Tail()), c)
    {
      var todo: set<int> := blocks.Keys;
      while todo != {}
        invariant todo <= blocks.Keys
        invariant closedBlocks == old(closedBlocks) + Closing(blocks, c.index, blocks.Keys - todo)
        decreases |todo|
      {
        var i := AnyOf(todo);
        ClosingStep(blocks, c.index, todo, i);
        todo := todo - {i};
        if blocks[i].kind == "reasoning" && i != c.index {
          closedBlocks := closedBlocks + {i};
        }
      }
      ClosingAll(Live(blocks, old(closedBlocks), legacyPosition), c);
    }

    method FoldOne(key: nat, e: Event)
      modifies this`blocks, this`closedBlocks, this`legacyPosition, this`legacySeq
      ensures Tail() == FoldEvent(old(Tail()), e) && legacySeq == Max(old(legacySeq), key)
    {
      legacySeq := Max(legacySeq, key);
      if Ends(e) {
        blocks, closedBlocks := map[], {};
        legacyPosition := None;
      } else if e.Piece? {
        var next := Some((e.turn, e.step));
        if legacyPosition != next {
          blocks, closedBlocks := map[], {};
        }
        legacyPosition := next;
        Chunk(e.chunk);
      }
    }

    /** Start over: fold everything retained. */
    method Refold()
      requires KeysOk()
      modifies this`blocks, this`closedBlocks, this`legacyPosition, this`legacySeq, this`keysDirty, this`sortedSeqs
      ensures KeysOk() && legacySeq == Newest(events.Keys)
      ensures Tail() == Fold(Held(events), NothingLive, Ascending(events.Keys))
    {
      blocks, closedBlocks := map[], {};
      legacyPosition := None;
      legacySeq := -1;
      var keys := SortedKeys();
      AscendingLists(events.Keys);
      NewestOfAscending(events.Keys);
      FoldKeys(keys);
    }

    method FoldKeys(keys: seq<nat>)
      requires IsAscending(keys) && (forall k :: k in keys ==> k in events) && Tail() == NothingLive && legacySeq == -1
      modifies this`blocks, this`closedBlocks, this`legacyPosition, this`legacySeq
      ensures Tail() == Fold(Held(events), NothingLive, keys)
      ensures legacySeq == if keys == [] then -1 else keys[|keys| - 1]
    {
      for i := 0 to |keys|
        invariant Tail() == Fold(Held(events), NothingLive, keys[..i])
        invariant legacySeq == if i == 0 then -1 else keys[i - 1]
      {
        FoldSnoc(Held(events), NothingLive, keys[..i], keys[i]);
        assert keys[i] in keys && keys[..i + 1] == keys[..i] + [keys[i]];
        FoldOne(keys[i], events[keys[i]]);
      }
      assert keys[..|keys|] == keys;
    }

    /** Continue: fold what is newer than everything folded. */
    method Continue(rs: seq<Record>)
      modifies this`blocks, this`closedBlocks, this`legacyPosition, this`legacySeq
      ensures Tail() == FoldRecords(old(Tail()), rs) && legacySeq == NewestOf(old(legacySeq), rs)
    {
      for i := 0 to |rs|
        invariant Tail() == FoldRecords(old(Tail()), rs[..i]) && legacySeq == NewestOf(old(legacySeq), rs[..i])
      {
        assert rs[..i + 1][..i] == rs[..i];
        FoldOne(rs[i].key, rs[i].event);
      }
      assert rs[..|rs|] == rs;
    }

    /** Fold the added records on top of the live tail, or everything retained when something older came. */
    method FoldLegacy(added: seq<Record>)
      requires KeysOk()
      modifies this`blocks, this`closedBlocks, this`legacyPosition, this`legacySeq, this`legacyDirty, this`keysDirty, this`sortedSeqs
      ensures KeysOk() && !legacyDirty
      ensures old(legacyDirty) ==>
                Tail() == Fold(Held(events), NothingLive, Ascending(events.Keys)) && legacySeq == Newest(events.Keys)
      ensures !old(legacyDirty) ==>
                && Tail() == FoldRecords(old(Tail()), Sorted(Past(added, old(legacySeq))))
                && legacySeq == NewestOf(old(legacySeq), Sorted(Past(added, old(legacySeq))))
    {
      if legacyDirty {
        legacyDirty := false;
        Refold();
      } else {
        Continue(Sorted(Past(added, legacySeq)));
      }
    }

    /** Store a batch, fold it, and delete what the live tail no longer needs. */
    method AddRecords(records: seq<Record>)
      requires Valid()
      modifies this
      ensures Valid() && State() == AddTo(legacyStream, old(State()), records)
      ensures legacyStream == old(legacyStream) && cursor == old(cursor) && hasMore == old(hasMore)
      ensures throughSeq == Through(old(throughSeq), records) && oldestSeq == Oldest(old(oldestSeq), records)
    {
      ghost var before := State();
      var added := TakeRecords(records);
      if legacyStream {
        AddLegacy(before, records, added);
      } else {
        AddPlain(before, records, added);
      }
    }

    method AddPlain(ghost before: Stream, ghost records: seq<Record>, ghost added: seq<Record>)
      requires Valid() && Taking(events, added, legacyDirty) == TakeAll(before, records)
      requires before.folded == legacySeq && before.live == Tail()
      modifies this`events, this`sizes, this`storedBytes, this`transientSeqs, this`keysDirty
      ensures Valid() && State() == AddTo(false, before, records)
    {
      DeleteBefore(-1, true);
    }

    method AddLegacy(ghost before: Stream, ghost records: seq<Record>, added: seq<Record>)
      requires Valid() && Taking(events, added, legacyDirty) == TakeAll(before, records)
      requires before.folded == legacySeq && before.live == Tail()
      modifies this`events, this`sizes, this`storedBytes, this`transientSeqs, this`keysDirty, this`sortedSeqs,
               this`blocks, this`closedBlocks, this`legacyPosition, this`legacySeq, this`legacyDirty
      ensures Valid() && State() == AddBatch(before, records)
    {
      FoldedKeys(before, records);
      FoldLegacy(added);
      ghost var live, folded := Tail(), legacySeq;
      DeleteBefore(LastEnd(added), false);
    }

    /** Store every record and note which are new to the fold. */
    method TakeRecords(records: seq<Record>) returns (added: seq<Record>)
      requires Valid()
      modifies this`events, this`sizes, this`storedBytes, this`transientSeqs, this`keysDirty, this`sortedSeqs,
               this`legacyDirty, this`throughSeq, this`oldestSeq
      ensures Valid() && Taking(events, added, legacyDirty) == TakeAll(old(State()), records)
      ensures throughSeq == Through(old(throughSeq), records) && oldestSeq == Oldest(old(oldestSeq), records)
    {
      added := [];
      for i := 0 to |records|
        invariant Valid() && Taking(events, added, legacyDirty) == TakeAll(old(State()), records[..i])
        invariant throughSeq == Through(old(throughSeq), records[..i]) && oldestSeq == Oldest(old(oldestSeq), records[..i])
      {
        assert records[..i + 1][..i] == records[..i];
        var r := records[i];
        throughSeq := Max(throughSeq, r.key);
        oldestSeq := if oldestSeq.Some? && oldestSeq.value <= r.key then oldestSeq else Some(r.key);
        var skip := TakeRecord(r);
        if !skip {
          added := added + [r];
        }
      }
      assert records[..|records|] == records;
    }

    method TakeRecord(r: Record) returns (skip: bool)
      requires Valid()
      modifies this`events, this`sizes, this`storedBytes, this`transientSeqs, this`keysDirty, this`sortedSeqs, this`legacyDirty
      ensures Valid() && skip == Skipped(old(events), r)
      ensures events == old(events)[r.key := r.event] && legacyDirty == (old(legacyDirty) || (!skip && r.key <= legacySeq))
    {
      skip := r.same && r.key in events && events[r.key] == r.event && !Displays(r.event);
      ghost var known := events;
      StoreEvent(r.key, r.event);
      transientSeqs := if Displays(r.event) then transientSeqs - {r.key} else transientSeqs + {r.key};
      UndisplayedStored(known, r.key, r.event);
      if skip {
        assert events.Keys == known.Keys;
      } else {
        AddKey(r.key, known.Keys);
        if r.key <= legacySeq {
          legacyDirty := true;
        }
      }
    }

    /** Extend the clean key cache at its end, or give it up. */
    method AddKey(key: nat, ghost known: set<nat>)
      requires (!keysDirty ==> sortedSeqs == Ascending(known)) && events.Keys == known + {key}
      modifies this`keysDirty, this`sortedSeqs
      ensures KeysOk()
    {
      if keysDirty || (sortedSeqs != [] && key <= sortedSeqs[|sortedSeqs| - 1]) {
        keysDirty := true;
      } else {
        AppendedKey(known, key);
        sortedSeqs := sortedSeqs + [key];
      }
    }

    /** Delete the undisplayed records before a key, or all of them. */
    method DeleteBefore(through: int, all: bool)
      requires Valid()
      modifies this`events, this`sizes, this`storedBytes, this`transientSeqs, this`keysDirty
      ensures Valid() && events == if all then Displayed(old(events)) else Kept(old(events), through)
    {
      var todo := transientSeqs;
      ghost var before := events;
      while todo != {}
        invariant Valid() && todo <= transientSeqs
        invariant events == Left(before, through, all, todo)
        decreases |todo|
      {
        var k := AnyOf(todo);
        LeftStep(before, through, all, todo, k);
        todo := todo - {k};
        if all || k < through {
          DeleteTransient(k);
        }
      }
    }

    method DeleteTransient(key: nat)
      requires Valid()
      modifies this`events, this`sizes, this`storedBytes, this`transientSeqs, this`keysDirty
      ensures Valid() && events == old(events) - {key} && transientSeqs == old(transientSeqs) - {key}
    {
      UndisplayedStored(events, key, Note);
      DeleteEvent(key);
      transientSeqs := transientSeqs - {key};
      keysDirty := true;
    }

    // -------------------------------------------------------------- the trim

    /** Release a prefix of the records when a budget is exceeded. */
    method Trim(limits: Limits) returns (count: nat)
      requires Valid()
      modifies this`events, this`sizes, this`storedBytes, this`oldestSeq, this`cursor, this`hasMore, this`keysDirty, this`sortedSeqs
      ensures Valid() && count == ReleasedOf(old(events), sizeOf, limits)
      ensures events == Trimmed(old(events), count)
      ensures if count == 0 then storedBytes == old(storedBytes)
              else count < |Ascending(old(events).Keys)|
                   && storedBytes == Scanned(old(events), sizeOf, count) + Added(old(events), sizeOf, count)
      ensures if count == 0 then oldestSeq == old(oldestSeq) && cursor == old(cursor) && hasMore == old(hasMore)
              else count < |Ascending(old(events).Keys)| && oldestSeq == Some(Ascending(old(events).Keys)[count])
                   && cursor == Max(old(cursor), throughSeq) && hasMore
    {
      var keys;
      ghost var before := events;
      SizesAreKnown(events, sizes, sizeOf);
      keys, count := Decide(limits);
      if count > 0 {
        Release(keys, count, limits);
        SizesAreKnown(events, sizes, sizeOf);
        BytesAfterTrim(before, sizeOf, count);
      }
    }

    /** How much to release: nothing while both budgets hold. */
    method Decide(limits: Limits) returns (keys: seq<nat>, count: nat)
      requires BytesOk() && KeysOk() && transientSeqs == Undisplayed(events)
      modifies this`keysDirty, this`sortedSeqs
      ensures KeysOk() && count == Released(events, sizes, limits)
      ensures count > 0 ==> keys == Ascending(events.Keys)
    {
      if |events| <= limits.maxRecords && storedBytes <= limits.maxBytes {
        return [], 0;
      }
      keys := SortedKeys();
      count := Scan(keys, limits);
    }

    method Release(keys: seq<nat>, count: nat, ghost limits: Limits)
      requires Valid() && keys == Ascending(events.Keys) && Releasing(events, sizes, limits, count)
      modifies this`events, this`sizes, this`storedBytes, this`oldestSeq, this`cursor, this`hasMore, this`keysDirty, this`sortedSeqs
      ensures Valid() && events == Trimmed(old(events), count)
      ensures count < |keys| && oldestSeq == Some(keys[count]) && cursor == Max(old(cursor), throughSeq) && hasMore
    {
      ReleasingKeeps(events, sizes, limits, count);
      Cut(keys, count);
      oldestSeq := Some(keys[count]);
      cursor := Max(cursor, throughSeq);
      hasMore := true;
      keysDirty, sortedSeqs := true, [];
    }

    method Scan(keys: seq<nat>, limits: Limits) returns (count: nat)
      requires transientSeqs == Undisplayed(events) && storedBytes == SumKeys(sizes, keys)
      ensures count == ScanFrom(events, sizes, keys, limits, 0)
    {
      var bytes := storedBytes;
      count := 0;
      assert keys[0..] == keys;
      while count < |keys| - Keep(limits) && Over(|keys| - count, bytes, limits)
        invariant count <= |keys| && bytes == SumKeys(sizes, keys[count..])
        invariant ScanFrom(events, sizes, keys, limits, 0) == ScanFrom(events, sizes, keys, limits, count)
        decreases |keys| - count
      {
        if keys[count] in transientSeqs {
          break;
        }
        SumDrop(sizes, keys, count);
        bytes := bytes - BytesOf(sizes, keys[count]);
        count := count + 1;
      }
    }

    /** Annotate what is kept, then delete the prefix. */
    method Cut(keys: seq<nat>, count: nat)
      requires BytesOk() && keys == Ascending(events.Keys) && 0 < count < |keys|
      modifies this`events, this`sizes, this`storedBytes
      ensures BytesOk() && events == Trimmed(old(events), count)
    {
      ghost var before := events;
      Annotate(keys, count);
      DeleteAll(keys[..count]);
      assert keys[..count][0..count] == keys[..count];
      CutIsTrimmed(before, count);
    }

    method DeleteAll(keys: seq<nat>)
      requires BytesOk()
      modifies this`events, this`sizes, this`storedBytes
      ensures BytesOk() && events == old(events) - Slice(keys, 0, |keys|)
    {
      for i := 0 to |keys|
        invariant BytesOk() && events == old(events) - Slice(keys, 0, i)
      {
        SliceStep(keys, 0, i);
        DeleteEvent(keys[i]);
      }
    }

    /** Learn one kept record's calls, then annotate its results. */
    method AnnotateOne(ghost before: map<nat, Event>, ghost done: set<nat>, key: nat, known: map<string, Summary>)
      returns (tools: map<string, Summary>)
      requires BytesOk() && key in before && key !in done && events == AnnotatedAt(before, done)
      requires AddCalls(known, Calls(before[key])) == ToolsBy(before, key)
      modifies this`events, this`sizes, this`storedBytes
      ensures BytesOk() && events == AnnotatedAt(before, done + {key}) && tools == ToolsBy(before, key)
    {
      AnnotatedOneMore(before, done, key);
      var event := events[key];
      tools := AddCalls(known, Calls(event));
      if event.ToolResult? && event.shown {
        StoreEvent(key, AnnotateEvent(event, tools));
      }
    }

    method Annotate(keys: seq<nat>, count: nat)
      requires BytesOk() && keys == Ascending(events.Keys) && count < |keys|
      modifies this`events, this`sizes, this`storedBytes
      ensures BytesOk() && events == AnnotatedAt(old(events), Slice(keys, count, |keys|))
    {
      var tools := Learn(keys, count);
      ghost var before := events;
      NoneAnnotated(before, keys, count);
      for i := count to |keys|
        invariant BytesOk() && tools == Tools(before, keys[..i])
        invariant events == AnnotatedAt(before, Slice(keys, count, i))
      {
        AnnotatedStep(before, count, i);
        ToolsStep(before, i);
        tools := AnnotateOne(before, Slice(keys, count, i), keys[i], tools);
      }
    }

    /** The calls the released prefix announces. */
    method Learn(keys: seq<nat>, count: nat) returns (tools: map<string, Summary>)
      requires keys == Ascending(events.Keys) && count < |keys|
      ensures tools == Tools(events, keys[..count])
    {
      tools := map[];
      for i := 0 to count
        invariant tools == Tools(events, keys[..i])
      {
        ToolsStep(events, i);
        tools := AddCalls(tools, Calls(events[keys[i]]));
      }
    }
  }

  lemma SizesAreKnown(events: map<nat, Event>, sizes: map<nat, nat>, sizeOf: Event -> nat)
    requires sizes.Keys == events.Keys && forall k :: k in events ==> sizes[k] == sizeOf(events[k])
    ensures sizes == SizesOf(events, sizeOf)
  {
  }

  /** These records annotated with the calls before them. */
  ghost function AnnotatedAt(before: map<nat, Event>, done: set<nat>): map<nat, Event> {
    map k | k in before :: if k in done then AnnotateEvent(before[k], ToolsBy(before, k)) else before[k]
  }

  lemma ToolsStep(before: map<nat, Event>, i: nat)
    requires i < |Ascending(before.Keys)|
    ensures var keys := Ascending(before.Keys);
            && keys[i] in before && Tools(before, keys[..i + 1]) == ToolsBy(before, keys[i])
            && Tools(before, keys[..i + 1]) == AddCalls(Tools(before, keys[..i]), Calls(before[keys[i]]))
  {
    var keys := Ascending(before.Keys);
    HeadOfAscending(before.Keys, i);
    KeyIsHeld(before.Keys, i);
    assert keys[..i + 1][..i] == keys[..i];
  }

  lemma NoneAnnotated(before: map<nat, Event>, keys: seq<nat>, count: nat)
    requires count <= |keys|
    ensures AnnotatedAt(before, Slice(keys, count, count)) == before
  {
  }

  lemma AnnotatedOneMore(before: map<nat, Event>, done: set<nat>, k: nat)
    requires k in before && k !in done
    ensures AnnotatedAt(before, done)[k] == before[k]
    ensures AnnotatedAt(before, done + {k}) == AnnotatedAt(before, done)[k := AnnotateEvent(before[k], ToolsBy(before, k))]
    ensures !(before[k].ToolResult? && before[k].shown) ==> AnnotatedAt(before, done + {k}) == AnnotatedAt(before, done)
  {
  }

  lemma AnnotatedStep(before: map<nat, Event>, count: nat, i: nat)
    requires count <= i < |Ascending(before.Keys)|
    ensures var keys := Ascending(before.Keys);
            && keys[i] in before && keys[i] !in Slice(keys, count, i)
            && Slice(keys, count, i + 1) == Slice(keys, count, i) + {keys[i]}
  {
    KeyIsHeld(before.Keys, i);
    NextIsNotInSlice(before.Keys, count, i);
    SliceStep(Ascending(before.Keys), count, i);
  }

  lemma CutIsTrimmed(before: map<nat, Event>, count: nat)
    requires 0 < count < |Ascending(before.Keys)|
    ensures var keys := Ascending(before.Keys);
            AnnotatedAt(before, Slice(keys, count, |keys|)) - Slice(keys[..count], 0, count) == Trimmed(before, count)
  {
    SlicesPartition(before.Keys, count);
  }

  /** What is left while undisplayed records wait to be looked at. */
  function Left(events: map<nat, Event>, through: int, all: bool, todo: set<nat>): map<nat, Event> {
    map k | k in events && (k in todo || Displays(events[k]) || !(all || k < through)) :: events[k]
  }

  lemma LeftStep(events: map<nat, Event>, through: int, all: bool, todo: set<nat>, k: nat)
    requires k in todo
    ensures Left(events, through, all, todo - {k})
            == if (all || k < through) && !(k in events && Displays(events[k])) then Left(events, through, all, todo) - {k}
               else Left(events, through, all, todo)
  {
  }

  /** The newest key of a list, starting from another. */
  function NewestOf(before: int, rs: seq<Record>): int {
    if rs == [] then before else Max(NewestOf(before, rs[..|rs| - 1]), rs[|rs| - 1].key)
  }

  lemma {:induction false} NewestOfIs(before: int, rs: seq<Record>)
    requires before >= -1
    ensures NewestOf(before, rs) == Max(before, Newest(Keys(rs)))
  {
    if rs != [] {
      var front, last := rs[..|rs| - 1], rs[|rs| - 1];
      NewestOfIs(before, front);
      assert rs == front + [last];
      KeysSnoc(front, last);
      NewestJoin(Keys(front), {last.key});
    }
  }

  lemma {:induction false} SortedHolds(rs: seq<Record>)
    ensures forall x :: x in Sorted(rs) <==> x in rs
  {
    if rs != [] {
      assert rs == rs[..|rs| - 1] + [rs[|rs| - 1]];
      SortedHolds(rs[..|rs| - 1]);
      InsertHolds(Sorted(rs[..|rs| - 1]), rs[|rs| - 1]);
    }
  }

  /** A fold that continues ends at the newest added key. */
  lemma FoldedKeys(s: Stream, records: seq<Record>)
    requires s.folded >= -1
    ensures var t := TakeAll(s, records);
            !t.dirty ==> NewestOf(s.folded, Sorted(Past(t.added, s.folded))) == Max(s.folded, Newest(Keys(t.added)))
  {
    var t := TakeAll(s, records);
    if !t.dirty {
      DirtyMeans(s, records);
      PastAll(t.added, s.folded);
      SortedHolds(t.added);
      NewestOfIs(s.folded, Sorted(t.added));
      assert Keys(Sorted(t.added)) == Keys(t.added);
    }
  }

  lemma NewestOfAscending(s: set<nat>)
    ensures Newest(s) == if s == {} then -1 else Ascending(s)[|Ascending(s)| - 1]
  {
  }

  lemma UndisplayedStored(events: map<nat, Event>, key: nat, event: Event)
    ensures Undisplayed(events[key := event])
            == if Displays(event) then Undisplayed(events) - {key} else Undisplayed(events) + {key}
    ensures Undisplayed(events - {key}) == Undisplayed(events) - {key}
  {
  }

  /** A trim touches no undisplayed record. */
  lemma TrimKeepsUndisplayed(events: map<nat, Event>, sizes: map<nat, nat>, limits: Limits)
    ensures Undisplayed(Trimmed(events, Released(events, sizes, limits))) == Undisplayed(events)
  {
    var n := Released(events, sizes, limits);
    if 0 < n < |Ascending(events.Keys)| {
      forall k | k in Undisplayed(events)
        ensures Ascending(events.Keys)[n] <= k
      {
        UndisplayedIsKept(events, sizes, limits, k);
      }
      TrimmedUndisplayed(events, n);
    }
  }

  ghost predicate Releasing(events: map<nat, Event>, sizes: map<nat, nat>, limits: Limits, count: nat) {
    0 < count == Released(events, sizes, limits)
  }

  lemma ReleasingKeeps(events: map<nat, Event>, sizes: map<nat, nat>, limits: Limits, count: nat)
    requires Releasing(events, sizes, limits, count)
    ensures count < |Ascending(events.Keys)| && Undisplayed(Trimmed(events, count)) == Undisplayed(events)
  {
    TrimKeepsUndisplayed(events, sizes, limits);
    TrimReleasesDisplayed(events, sizes, limits, 0);
  }

  lemma UndisplayedIsKept(events: map<nat, Event>, sizes: map<nat, nat>, limits: Limits, k: nat)
    requires k in Undisplayed(events) && Released(events, sizes, limits) < |Ascending(events.Keys)|
    ensures Ascending(events.Keys)[Released(events, sizes, limits)] <= k
  {
    var n := Released(events, sizes, limits);
    var i := IndexOf(events.Keys, k);
    if i < n {
      TrimReleasesDisplayed(events, sizes, limits, i);
    } else {
      SliceIsBeyond(events.Keys, n, i);
    }
  }

  lemma TrimmedUndisplayed(events: map<nat, Event>, n: nat)
    requires 0 < n < |Ascending(events.Keys)|
    requires forall k :: k in Undisplayed(events) ==> Ascending(events.Keys)[n] <= k
    ensures Undisplayed(Trimmed(events, n)) == Undisplayed(events)
  {
  }

  lemma SumDrop(sizes: map<nat, nat>, keys: seq<nat>, i: nat)
    requires i < |keys|
    ensures SumKeys(sizes, keys[i..]) == BytesOf(sizes, keys[i]) + SumKeys(sizes, keys[i + 1..])
  {
    assert keys[i..] == [keys[i]] + keys[i + 1..];
    SumJoin(sizes, [keys[i]], keys[i + 1..]);
  }

  lemma AppendedKey(s: set<nat>, k: nat)
    requires Ascending(s) != [] ==> Ascending(s)[|Ascending(s)| - 1] < k
    ensures Ascending(s + {k}) == Ascending(s) + [k]
  {
    NewestOfAscending(s);
    NewestIsBound(s);
    assert k !in s && s + {k} - {k} == s;
    AscendingStep(s + {k}, k);
  }
}
