/** The live tail of a host that logs assistant chunks directly (src/session/transcript.ts).
  *
  * Records arrive in batches, in any order and possibly again; chunks before a boundary are deleted. What the client
  * shows must still be the fold, in sequence order, of everything ever delivered. */
module LegacyFold {
  import opened Collections
  import opened KeyOrder

  /** A tool call's short description; a command is only given beside an operation. */
  datatype Summary = Summary(name: string, operation: Option<string>, command: Option<string>)

  /** A tool result, with whatever description it carries itself. */
  datatype Outcome = Outcome(call: string, name: Option<string>, operation: Option<string>, command: Option<string>)

  datatype Block = Block(kind: string, text: string, id: string, name: string)

  datatype Chunk =
    | TextDelta(index: int, text: string)
    | ReasoningDelta(index: int, text: string)
    | ToolDelta(index: int, id: Option<string>, name: Option<string>)
    | BlockEnd(index: int, block: Block)
    | OtherChunk

  /** A decoded record, as it is retained. */
  datatype Event =
    | UserMessage(shown: bool)
    | AssistantMessage(shown: bool, calls: seq<(string, Summary)>)
    | ToolResult(shown: bool, outcomes: seq<Outcome>)
    | Edge // a step or turn boundary, or the end of an attempt
    | Piece(turn: int, step: int, chunk: Chunk)
    | Note // anything else, a chunk without data included

  /** Records that contribute a displayed message; the others only matter to the live tail. */
  predicate Displays(e: Event) {
    e.UserMessage? || e.AssistantMessage? || e.ToolResult?
  }

  /** Records that end the live attempt. */
  predicate Ends(e: Event) {
    e.Edge? || e.AssistantMessage?
  }

  /** The live tail: blocks by index, the closed ones, and the turn and step they belong to. */
  datatype Live = Live(blocks: map<int, Block>, closed: set<int>, position: Option<(int, int)>)

  const NothingLive := Live(map[], {}, None)

  /** Reasoning closes as soon as text or a tool call starts elsewhere. */
  function ClosedBy(live: Live, c: Chunk): set<int> {
    if c.TextDelta? || c.ToolDelta?
    then live.closed + set i | i in live.blocks && live.blocks[i].kind == "reasoning" && i != c.index
    else live.closed
  }

  function AddChunk(live: Live, c: Chunk): Live {
    var closed := ClosedBy(live, c);
    match c
    case TextDelta(i, text) =>
      var before := if i in live.blocks then live.blocks[i].text else "";
      live.(blocks := live.blocks[i := Block("text", before + text, "", "")], closed := closed)
    case ReasoningDelta(i, text) =>
      var before := if i in live.blocks then live.blocks[i].text else "";
      live.(blocks := live.blocks[i := Block("reasoning", before + text, "", "")], closed := closed)
    case ToolDelta(i, id, name) =>
      var known := i in live.blocks;
      var theId := if id.Some? then id.value else if known then live.blocks[i].id else "";
      var theName := if name.Some? then name.value else if known then live.blocks[i].name else "";
      live.(blocks := live.blocks[i := Block("tool-call", "", theId, theName)], closed := closed)
    case BlockEnd(i, block) => live.(blocks := live.blocks[i := block], closed := closed + {i})
    case OtherChunk => live
  }

  function FoldEvent(live: Live, e: Event): Live {
    if Ends(e) then NothingLive
    else if e.Piece? then
      var here := if live.position == Some((e.turn, e.step)) then live else NothingLive;
      AddChunk(here.(position := Some((e.turn, e.step))), e.chunk)
    else live
  }

  /** One content per sequence number. */
  type Content = nat -> Event

  function Fold(content: Content, live: Live, keys: seq<nat>): Live {
    if keys == [] then live else FoldEvent(Fold(content, live, keys[..|keys| - 1]), content(keys[|keys| - 1]))
  }

  /** The left fold, in sequence order, of every record of a set. */
  ghost function FoldSet(content: Content, s: set<nat>): Live {
    Fold(content, NothingLive, Ascending(s))
  }

  lemma FoldSnoc(content: Content, live: Live, keys: seq<nat>, last: nat)
    ensures Fold(content, live, keys + [last]) == FoldEvent(Fold(content, live, keys), content(last))
  {
    assert (keys + [last])[..|keys|] == keys;
  }

  lemma {:induction false} FoldJoin(content: Content, live: Live, a: seq<nat>, b: seq<nat>)
    ensures Fold(content, live, a + b) == Fold(content, Fold(content, live, a), b)
  {
    if b == [] {
      assert a + b == a;
    } else {
      var front := b[..|b| - 1];
      assert a + b == a + front + [b[|b| - 1]];
      FoldJoin(content, live, a, front);
      FoldSnoc(content, live, a + front, b[|b| - 1]);
    }
  }

  /** The fold only looks at the content of the keys it visits. */
  lemma {:induction false} FoldAgrees(content: Content, other: Content, live: Live, keys: seq<nat>)
    requires forall k :: k in keys ==> content(k) == other(k)
    ensures Fold(content, live, keys) == Fold(other, live, keys)
  {
    if keys != [] {
      assert keys[|keys| - 1] in keys && forall k :: k in keys[..|keys| - 1] ==> k in keys;
      FoldAgrees(content, other, live, keys[..|keys| - 1]);
    }
  }

  function From(s: set<nat>, b: nat): set<nat> {
    set k | k in s && b <= k
  }

  /** A boundary makes everything before it irrelevant. */
  lemma BoundaryDecides(content: Content, s: set<nat>, b: nat)
    requires b in s && Ends(content(b))
    ensures FoldSet(content, s) == Fold(content, NothingLive, Ascending(From(s, b + 1)))
  {
    var low, high := s - From(s, b + 1), From(s, b + 1);
    assert low + high == s;
    AscendingJoin(low, high);
    FoldJoin(content, NothingLive, Ascending(low), Ascending(high));
    AscendingStep(low, b);
    FoldSnoc(content, NothingLive, Ascending(low - {b}), b);
  }

  /** Records past everything delivered extend the fold. */
  lemma LaterExtends(content: Content, s: set<nat>, later: set<nat>)
    requires forall a, b :: a in s && b in later ==> a < b
    ensures FoldSet(content, s + later) == Fold(content, FoldSet(content, s), Ascending(later))
  {
    AscendingJoin(s, later);
    FoldJoin(content, NothingLive, Ascending(s), Ascending(later));
  }

  // ---------------------------------------------------------------- one batch of records

  /** A delivered record; it is the same object as the retained one only when nothing was decoded again. */
  datatype Record = Record(key: nat, event: Event, same: bool)

  /** What is retained, whether the next fold must start over, the newest key folded, and the live tail. */
  datatype Stream = Stream(events: map<nat, Event>, dirty: bool, folded: int, live: Live)

  const Opening := Stream(map[], true, -1, NothingLive)

  /** The records a batch leaves to be folded. */
  datatype Taking = Taking(events: map<nat, Event>, added: seq<Record>, dirty: bool)

  /** A retained record met again as the same object; displayed records are retained as copies, so they never are. */
  predicate Skipped(events: map<nat, Event>, r: Record) {
    r.same && r.key in events && events[r.key] == r.event && !Displays(r.event)
  }

  function Take(t: Taking, folded: int, r: Record): Taking {
    if Skipped(t.events, r) then t
    else Taking(t.events[r.key := r.event], t.added + [r], t.dirty || r.key <= folded)
  }

  function TakeAll(s: Stream, records: seq<Record>): Taking {
    if records == [] then Taking(s.events, [], s.dirty)
    else Take(TakeAll(s, records[..|records| - 1]), s.folded, records[|records| - 1])
  }

  /** Stable insertion by key. */
  function Insert(rs: seq<Record>, r: Record): seq<Record> {
    if rs == [] || rs[|rs| - 1].key <= r.key then rs + [r] else Insert(rs[..|rs| - 1], r) + [rs[|rs| - 1]]
  }

  function Sorted(rs: seq<Record>): seq<Record> {
    if rs == [] then [] else Insert(Sorted(rs[..|rs| - 1]), rs[|rs| - 1])
  }

  function FoldRecords(live: Live, rs: seq<Record>): Live {
    if rs == [] then live else FoldEvent(FoldRecords(live, rs[..|rs| - 1]), rs[|rs| - 1].event)
  }

  /** The records past a key, in batch order. */
  function Past(rs: seq<Record>, folded: int): seq<Record> {
    if rs == [] then []
    else
      var front, last := Past(rs[..|rs| - 1], folded), rs[|rs| - 1];
      if last.key > folded then front + [last] else front
  }

  function Held(events: map<nat, Event>): Content {
    k => if k in events then events[k] else Note
  }

  ghost function Newest(keys: set<nat>): int {
    if keys == {} then -1 else MaxOf(keys)
  }

  /** The newest boundary among the records of a batch. */
  function LastEnd(rs: seq<Record>): int {
    if rs == [] then -1
    else
      var front, last := LastEnd(rs[..|rs| - 1]), rs[|rs| - 1];
      if Ends(last.event) then Max(front, last.key) else front
  }

  /** Chunks and other undisplayed records before the batch's newest boundary are deleted. */
  function Kept(events: map<nat, Event>, through: int): map<nat, Event> {
    map k | k in events && !(k < through && !Displays(events[k])) :: events[k]
  }

  ghost function AddBatch(s: Stream, records: seq<Record>): Stream {
    var t := TakeAll(s, records);
    var live := if t.dirty then Fold(Held(t.events), NothingLive, Ascending(t.events.Keys))
                else FoldRecords(s.live, Sorted(Past(t.added, s.folded)));
    var folded := if t.dirty then Newest(t.events.Keys) else Max(s.folded, Newest(Keys(t.added)));
    Stream(Kept(t.events, LastEnd(t.added)), false, folded, live)
  }

  function Keys(rs: seq<Record>): set<nat> {
    set r | r in rs :: r.key
  }

  ghost function Run(batches: seq<seq<Record>>): Stream {
    if batches == [] then Opening else AddBatch(Run(batches[..|batches| - 1]), batches[|batches| - 1])
  }

  function Delivered(batches: seq<seq<Record>>): set<nat> {
    if batches == [] then {} else Delivered(batches[..|batches| - 1]) + Keys(batches[|batches| - 1])
  }

  // ---------------------------------------------------------------- what a batch leaves

  ghost predicate Faithful(content: Content, rs: seq<Record>) {
    forall r :: r in rs ==> r.event == content(r.key)
  }

  ghost predicate HoldsContent(content: Content, events: map<nat, Event>) {
    forall k :: k in events ==> events[k] == content(k)
  }

  /** The batch's keys are retained with their content, and all that were not already there are to be folded. */
  ghost predicate Takes(content: Content, s: Stream, records: seq<Record>, t: Taking) {
    && HoldsContent(content, t.events) && t.events.Keys == s.events.Keys + Keys(records)
    && Faithful(content, t.added) && Keys(records) <= s.events.Keys + Keys(t.added)
    && Keys(t.added) <= Keys(records)
  }

  lemma {:induction false} TakeAllTakes(content: Content, s: Stream, records: seq<Record>)
    requires Faithful(content, records) && HoldsContent(content, s.events)
    ensures Takes(content, s, records, TakeAll(s, records))
  {
    if records != [] {
      var front, last := records[..|records| - 1], records[|records| - 1];
      assert records == front + [last] && forall r :: r in front ==> r in records;
      TakeAllTakes(content, s, front);
      assert last in records;
      TakeTakes(content, s, front, TakeAll(s, front), last);
    }
  }

  lemma TakeTakes(content: Content, s: Stream, front: seq<Record>, t: Taking, r: Record)
    requires Takes(content, s, front, t) && r.event == content(r.key)
    ensures Takes(content, s, front + [r], Take(t, s.folded, r))
  {
    KeysSnoc(front, r);
    KeysSnoc(t.added, r);
  }

  /** The next fold starts over when it had to already, or when something older than the fold was added. */
  lemma {:induction false} DirtyMeans(s: Stream, records: seq<Record>)
    ensures var t := TakeAll(s, records); t.dirty <==> s.dirty || exists r :: r in t.added && r.key <= s.folded
  {
    if records != [] {
      DirtyMeans(s, records[..|records| - 1]);
      var t, n := TakeAll(s, records[..|records| - 1]), TakeAll(s, records);
      assert forall r :: r in n.added <==> r in t.added || (n != t && r == records[|records| - 1]);
    }
  }

  lemma KeysSnoc(rs: seq<Record>, r: Record)
    ensures Keys(rs + [r]) == Keys(rs) + {r.key}
  {
    assert forall x :: x in rs + [r] <==> x in rs || x == r;
  }

  lemma {:induction false} InsertHolds(rs: seq<Record>, r: Record)
    ensures forall x :: x in Insert(rs, r) <==> x in rs || x == r
  {
    if rs != [] && rs[|rs| - 1].key > r.key {
      assert rs == rs[..|rs| - 1] + [rs[|rs| - 1]];
      InsertHolds(rs[..|rs| - 1], r);
    }
  }

  lemma {:induction false} PastAll(rs: seq<Record>, folded: int)
    requires forall r :: r in rs ==> r.key > folded
    ensures Past(rs, folded) == rs
  {
    if rs != [] {
      assert rs[|rs| - 1] in rs && forall r :: r in rs[..|rs| - 1] ==> r in rs;
      PastAll(rs[..|rs| - 1], folded);
    }
  }

  lemma {:induction false} LastEndEnds(rs: seq<Record>)
    ensures LastEnd(rs) == -1 || exists r :: r in rs && Ends(r.event) && r.key == LastEnd(rs)
  {
    if rs != [] {
      LastEndEnds(rs[..|rs| - 1]);
      assert rs[|rs| - 1] in rs && forall r :: r in rs[..|rs| - 1] ==> r in rs;
    }
  }

  lemma NewestIsBound(keys: set<nat>)
    ensures forall k :: k in keys ==> k <= Newest(keys)
    ensures Newest(keys) == -1 || Newest(keys) in keys
  {
  }

  lemma NewestJoin(low: set<nat>, high: set<nat>)
    ensures Newest(low + high) == Max(Newest(low), Newest(high))
  {
    NewestIsBound(low);
    NewestIsBound(high);
    if low + high != {} {
      MaxIs(low + high, Max(Newest(low), Newest(high)));
    }
  }
}
