/** What the live tail of src/session/transcript.ts shows, said of the chunks themselves: which pieces are live, what each
  * block says, and which blocks are closed. */
module LegacyTail {
  import opened Collections
  import opened KeyOrder
  import opened LegacyFold

  /** Boundaries and assistant messages clear the tail, chunks change it, and nothing else touches it. */
  lemma OnlyEndsAndPiecesMatter(live: Live, e: Event)
    ensures e.Edge? || e.AssistantMessage? ==> FoldEvent(live, e) == Live(map[], {}, None)
    ensures e.UserMessage? || e.ToolResult? || e.Note? ==> FoldEvent(live, e) == live
    ensures e.Piece? ==> FoldEvent(live, e).position == Some((e.turn, e.step))
  {
  }

  // ---------------------------------------------------------------- which pieces are live

  function Place(e: Event): Option<(int, int)> {
    if e.Piece? then Some((e.turn, e.step)) else None
  }

  /** Nothing after this piece ends its attempt or belongs to another turn or step. */
  predicate Stays(content: Content, e: Event, later: seq<nat>) {
    forall j :: 0 <= j < |later| ==>
      !Ends(content(later[j])) && (content(later[j]).Piece? ==> Place(content(later[j])) == Place(e))
  }

  /** The chunks of the live pieces, in their order. */
  function Pieces(content: Content, keys: seq<nat>): seq<Chunk> {
    if keys == [] then []
    else
      var e := content(keys[0]);
      (if e.Piece? && Stays(content, e, keys[1..]) then [e.chunk] else []) + Pieces(content, keys[1..])
  }

  /** The turn and step they all belong to. */
  function PlaceOf(content: Content, keys: seq<nat>): Option<(int, int)> {
    if keys == [] then None
    else
      var e := content(keys[0]);
      if e.Piece? && Stays(content, e, keys[1..]) then Place(e) else PlaceOf(content, keys[1..])
  }

  lemma StaysSnoc(content: Content, e: Event, later: seq<nat>, k: nat)
    ensures Stays(content, e, later + [k])
            <==> Stays(content, e, later) && !Ends(content(k)) && (content(k).Piece? ==> Place(content(k)) == Place(e))
  {
    var all := later + [k];
    assert all[|later|] == k && forall j :: 0 <= j < |later| ==> all[j] == later[j];
    if Stays(content, e, all) {
      forall j | 0 <= j < |later|
        ensures !Ends(content(later[j])) && (content(later[j]).Piece? ==> Place(content(later[j])) == Place(e))
      {
        assert !Ends(content(all[j]));
      }
      assert !Ends(content(all[|later|]));
    }
  }

  /** One more record: an end clears the pieces, a piece elsewhere starts over, any other record leaves them alone. */
  lemma {:induction false} PiecesSnoc(content: Content, keys: seq<nat>, k: nat)
    ensures var all, e := keys + [k], content(k);
            if Ends(e) then Pieces(content, all) == [] && PlaceOf(content, all) == None
            else if e.Piece? then
              && Pieces(content, all) == (if PlaceOf(content, keys) == Place(e) then Pieces(content, keys) else []) + [e.chunk]
              && PlaceOf(content, all) == Place(e)
            else Pieces(content, all) == Pieces(content, keys) && PlaceOf(content, all) == PlaceOf(content, keys)
    ensures Pieces(content, keys) == [] <==> PlaceOf(content, keys).None?
  {
    var all := keys + [k];
    if keys == [] {
      assert all[1..] == [];
    } else {
      assert all[1..] == keys[1..] + [k];
      PiecesSnoc(content, keys[1..], k);
      StaysSnoc(content, content(keys[0]), keys[1..], k);
      if content(keys[0]).Piece? && Stays(content, content(keys[0]), keys[1..]) {
        SamePlace(content, content(keys[0]), keys[1..]);
      }
    }
  }

  lemma {:induction false} SamePlace(content: Content, e: Event, later: seq<nat>)
    requires e.Piece? && Stays(content, e, later)
    ensures PlaceOf(content, later).None? || PlaceOf(content, later) == Place(e)
  {
    if later != [] {
      assert Stays(content, e, later[1..]) by {
        forall j | 0 <= j < |later[1..]|
          ensures !Ends(content(later[1..][j])) && (content(later[1..][j]).Piece? ==> Place(content(later[1..][j])) == Place(e))
        {
          assert later[1..][j] == later[j + 1] && !Ends(content(later[j + 1]));
        }
      }
      SamePlace(content, e, later[1..]);
      assert !Ends(content(later[0])) && (content(later[0]).Piece? ==> Place(content(later[0])) == Place(e));
    }
  }

  // ---------------------------------------------------------------- what a block says

  predicate Touches(c: Chunk, index: int) {
    !c.OtherChunk? && c.index == index
  }

  predicate IsDelta(c: Chunk) {
    c.TextDelta? || c.ReasoningDelta?
  }

  /** The chunks of one block. */
  function Of(cs: seq<Chunk>, index: int): (r: seq<Chunk>)
    ensures forall i :: 0 <= i < |r| ==> Touches(r[i], index)
  {
    if cs == [] then []
    else
      var front, last := Of(cs[..|cs| - 1], index), cs[|cs| - 1];
      if Touches(last, index) then front + [last] else front
  }

  /** Where the deltas at the end of a list begin. */
  function Since(cs: seq<Chunk>): (k: nat)
    ensures k <= |cs| && forall i :: k <= i < |cs| ==> IsDelta(cs[i])
    ensures k > 0 ==> !IsDelta(cs[k - 1])
  {
    if cs == [] || !IsDelta(cs[|cs| - 1]) then |cs| else Since(cs[..|cs| - 1])
  }

  function TextOf(c: Chunk): string {
    if IsDelta(c) then c.text else ""
  }

  function Texts(cs: seq<Chunk>): (r: seq<string>)
    ensures |r| == |cs| && forall i :: 0 <= i < |cs| ==> r[i] == TextOf(cs[i])
  {
    if cs == [] then [] else Texts(cs[..|cs| - 1]) + [TextOf(cs[|cs| - 1])]
  }

  lemma ConcatSnoc(parts: seq<string>, last: string)
    ensures Concat(parts + [last]) == Concat(parts) + last
  {
    assert (parts + [last])[..|parts|] == parts;
  }

  /** What the deltas since the last chunk that replaced the block say, behind the text of a block that was ended. */
  function Said(cs: seq<Chunk>): string {
    var k := Since(cs);
    (if k > 0 && cs[k - 1].BlockEnd? then cs[k - 1].block.text else "") + Concat(Texts(cs[k..]))
  }

  /** The last identity given since the block last said something. */
  function GivenId(cs: seq<Chunk>): string {
    if cs == [] then ""
    else
      var last := cs[|cs| - 1];
      match last
      case ToolDelta(_, id, _) => if id.Some? then id.value else GivenId(cs[..|cs| - 1])
      case BlockEnd(_, block) => block.id
      case _ => ""
  }

  function GivenName(cs: seq<Chunk>): string {
    if cs == [] then ""
    else
      var last := cs[|cs| - 1];
      match last
      case ToolDelta(_, _, name) => if name.Some? then name.value else GivenName(cs[..|cs| - 1])
      case BlockEnd(_, block) => block.name
      case _ => ""
  }

  /** The block after some chunks of its own: its last chunk says of which kind it is. */
  predicate Shows(block: Block, cs: seq<Chunk>)
    requires cs != []
  {
    match cs[|cs| - 1]
    case TextDelta(_, _) => block == Block("text", Said(cs), "", "")
    case ReasoningDelta(_, _) => block == Block("reasoning", Said(cs), "", "")
    case ToolDelta(_, _, _) => block == Block("tool-call", "", GivenId(cs), GivenName(cs))
    case BlockEnd(_, ended) => block == ended
    case OtherChunk => true
  }

  // ---------------------------------------------------------------- which blocks are closed

  predicate Speaks(c: Chunk) {
    c.TextDelta? || c.ToolDelta?
  }

  /** The block was ended, or its reasoning was followed by text or a tool call of another block. */
  ghost predicate IsClosed(cs: seq<Chunk>, index: int) {
    || (exists i :: 0 <= i < |cs| && cs[i].BlockEnd? && cs[i].index == index)
    || (exists j :: LeftThinking(cs, index, j))
  }

  /** Here another block speaks while the last thing this one did was to reason. */
  predicate LeftThinking(cs: seq<Chunk>, index: int, j: int) {
    && 0 <= j < |cs| && Speaks(cs[j]) && cs[j].index != index
    && var own := Of(cs[..j], index); own != [] && own[|own| - 1].ReasoningDelta?
  }

  /** A tail shows some live chunks. */
  ghost predicate Tells(live: Live, cs: seq<Chunk>) {
    && (forall i :: TellsAt(live, cs, i))
    && (forall i :: i in live.closed <==> IsClosed(cs, i))
  }

  // ---------------------------------------------------------------- one more chunk

  lemma OfSnoc(cs: seq<Chunk>, c: Chunk, index: int)
    ensures Of(cs + [c], index) == Of(cs, index) + if Touches(c, index) then [c] else []
  {
    assert (cs + [c])[..|cs|] == cs;
  }

  lemma SaidDelta(cs: seq<Chunk>, c: Chunk)
    requires IsDelta(c)
    ensures Said(cs + [c]) == Said(cs) + c.text
  {
    SinceDelta(cs, c);
    var k := Since(cs);
    TextsSnoc(cs[k..], c);
    ConcatSnoc(Texts(cs[k..]), c.text);
    assert k > 0 ==> (cs + [c])[k - 1] == cs[k - 1];
  }

  lemma SinceDelta(cs: seq<Chunk>, c: Chunk)
    requires IsDelta(c)
    ensures Since(cs + [c]) == Since(cs) && (cs + [c])[Since(cs)..] == cs[Since(cs)..] + [c]
  {
    assert (cs + [c])[..|cs|] == cs;
  }

  lemma TextsSnoc(cs: seq<Chunk>, c: Chunk)
    ensures Texts(cs + [c]) == Texts(cs) + [TextOf(c)]
  {
    assert (cs + [c])[..|cs|] == cs;
  }

  /** What a block says is kept in its text, whatever kind it is of. */
  lemma ShownIsSaid(block: Block, cs: seq<Chunk>)
    requires cs != [] && Shows(block, cs) && !cs[|cs| - 1].OtherChunk?
    ensures block.text == Said(cs)
    ensures block.id == GivenId(cs) && block.name == GivenName(cs)
  {
    if !IsDelta(cs[|cs| - 1]) {
      assert Since(cs) == |cs| && cs[|cs|..] == [];
    }
  }

  lemma NothingSaid()
    ensures Said([]) == "" && GivenId([]) == "" && GivenName([]) == ""
  {
  }

  /** What a chunk finds in its block: what the block's chunks said so far. */
  lemma FoundIsSaid(live: Live, cs: seq<Chunk>, index: int)
    requires TellsAt(live, cs, index)
    ensures var own := Of(cs, index);
            && (if index in live.blocks then live.blocks[index].text else "") == Said(own)
            && (if index in live.blocks then live.blocks[index].id else "") == GivenId(own)
            && (if index in live.blocks then live.blocks[index].name else "") == GivenName(own)
  {
    NothingSaid();
    if index in live.blocks {
      ShownIsSaid(live.blocks[index], Of(cs, index));
    }
  }

  lemma DeltaShows(live: Live, cs: seq<Chunk>, c: Chunk)
    requires IsDelta(c) && TellsAt(live, cs, c.index)
    ensures c.index in AddChunk(live, c).blocks && Shows(AddChunk(live, c).blocks[c.index], Of(cs, c.index) + [c])
  {
    FoundIsSaid(live, cs, c.index);
    ShowsSaid(Of(cs, c.index), c);
    DeltaBlock(live, c);
  }

  function KindOf(c: Chunk): string
    requires IsDelta(c)
  {
    if c.TextDelta? then "text" else "reasoning"
  }

  lemma ShowsSaid(own: seq<Chunk>, c: Chunk)
    requires IsDelta(c)
    ensures Shows(Block(KindOf(c), Said(own) + c.text, "", ""), own + [c])
  {
    SaidDelta(own, c);
    assert (own + [c])[|own + [c]| - 1] == c;
  }

  lemma DeltaBlock(live: Live, c: Chunk)
    requires IsDelta(c)
    ensures var before := if c.index in live.blocks then live.blocks[c.index].text else "";
            c.index in AddChunk(live, c).blocks && AddChunk(live, c).blocks[c.index] == Block(KindOf(c), before + c.text, "", "")
  {
  }

  lemma ToolShows(live: Live, cs: seq<Chunk>, c: Chunk)
    requires c.ToolDelta? && TellsAt(live, cs, c.index)
    ensures c.index in AddChunk(live, c).blocks && Shows(AddChunk(live, c).blocks[c.index], Of(cs, c.index) + [c])
  {
    var own := Of(cs, c.index);
    FoundIsSaid(live, cs, c.index);
    assert (own + [c])[..|own|] == own;
  }

  lemma OwnBlock(live: Live, cs: seq<Chunk>, c: Chunk)
    requires !c.OtherChunk? && TellsAt(live, cs, c.index)
    ensures c.index in AddChunk(live, c).blocks && Shows(AddChunk(live, c).blocks[c.index], Of(cs, c.index) + [c])
  {
    if IsDelta(c) {
      DeltaShows(live, cs, c);
    } else if c.ToolDelta? {
      ToolShows(live, cs, c);
    }
  }

  predicate TellsAt(live: Live, cs: seq<Chunk>, index: int) {
    && (index in live.blocks <==> Of(cs, index) != [])
    && (index in live.blocks && Of(cs, index) != [] ==> Shows(live.blocks[index], Of(cs, index)))
  }

  lemma BlockTells(live: Live, cs: seq<Chunk>, c: Chunk, index: int)
    requires Tells(live, cs)
    ensures TellsAt(AddChunk(live, c), cs + [c], index)
  {
    OfSnoc(cs, c, index);
    assert TellsAt(live, cs, index);
    if Touches(c, index) {
      OwnBlock(live, cs, c);
    } else {
      OtherBlock(live, c, index);
      assert Of(cs, index) + [] == Of(cs, index);
    }
  }

  lemma OtherBlock(live: Live, c: Chunk, index: int)
    requires !Touches(c, index)
    ensures index in AddChunk(live, c).blocks <==> index in live.blocks
    ensures index in live.blocks ==> AddChunk(live, c).blocks[index] == live.blocks[index]
  {
  }

  lemma LeftThinkingSnoc(cs: seq<Chunk>, c: Chunk, index: int, j: int)
    ensures LeftThinking(cs + [c], index, j)
            <==> LeftThinking(cs, index, j)
                 || (j == |cs| && Speaks(c) && c.index != index
                     && Of(cs, index) != [] && Of(cs, index)[|Of(cs, index)| - 1].ReasoningDelta?)
  {
    var all := cs + [c];
    if 0 <= j <= |cs| {
      assert all[..j] == cs[..j];
    }
    assert cs[..|cs|] == cs;
  }

  /** The block's kind is reasoning only when its last chunk reasoned, or ended it. */
  lemma KindIsLast(live: Live, cs: seq<Chunk>, index: int)
    requires TellsAt(live, cs, index) && index in live.blocks
    ensures Of(cs, index) != []
    ensures live.blocks[index].kind == "reasoning" ==>
              Of(cs, index)[|Of(cs, index)| - 1].ReasoningDelta? || Of(cs, index)[|Of(cs, index)| - 1].BlockEnd?
    ensures Of(cs, index)[|Of(cs, index)| - 1].ReasoningDelta? ==> live.blocks[index].kind == "reasoning"
  {
  }

  lemma {:induction false} EndIsAmong(cs: seq<Chunk>, index: int, k: nat)
    requires k < |Of(cs, index)| && Of(cs, index)[k].BlockEnd?
    ensures exists i :: 0 <= i < |cs| && cs[i].BlockEnd? && cs[i].index == index
  {
    var front, last := cs[..|cs| - 1], cs[|cs| - 1];
    if k < |Of(front, index)| {
      EndIsAmong(front, index, k);
      var i :| 0 <= i < |front| && front[i].BlockEnd? && front[i].index == index;
      assert cs[i] == front[i];
    } else {
      assert cs[|cs| - 1] == last && last.BlockEnd?;
    }
  }

  /** The last thing the block did was to reason. */
  predicate Thinks(cs: seq<Chunk>, index: int) {
    var own := Of(cs, index);
    own != [] && own[|own| - 1].ReasoningDelta?
  }

  lemma IsClosedSnoc(cs: seq<Chunk>, c: Chunk, index: int)
    ensures IsClosed(cs + [c], index)
            <==> || IsClosed(cs, index) || (c.BlockEnd? && c.index == index)
                 || (Speaks(c) && c.index != index && Thinks(cs, index))
  {
    EndsSnoc(cs, c, index);
    LeftThinkingSnoc(cs, c, index, |cs|);
    if j :| LeftThinking(cs, index, j) {
      LeftThinkingSnoc(cs, c, index, j);
    }
    if j :| LeftThinking(cs + [c], index, j) {
      LeftThinkingSnoc(cs, c, index, j);
    }
  }

  lemma CloseOf(live: Live, c: Chunk, index: int)
    ensures index in AddChunk(live, c).closed
            <==> || index in live.closed || (c.BlockEnd? && c.index == index)
                 || (Speaks(c) && c.index != index && index in live.blocks && live.blocks[index].kind == "reasoning")
  {
  }

  lemma ClosedTells(live: Live, cs: seq<Chunk>, c: Chunk, index: int)
    requires Tells(live, cs)
    ensures index in AddChunk(live, c).closed <==> IsClosed(cs + [c], index)
  {
    IsClosedSnoc(cs, c, index);
    CloseOf(live, c, index);
    ReasoningIsLast(live, cs, index);
  }

  /** A reasoning block that no longer reasons was ended. */
  lemma ReasoningIsLast(live: Live, cs: seq<Chunk>, index: int)
    requires Tells(live, cs)
    ensures index in live.closed <==> IsClosed(cs, index)
    ensures Thinks(cs, index) ==> index in live.blocks && live.blocks[index].kind == "reasoning"
    ensures index in live.blocks && live.blocks[index].kind == "reasoning" ==> Thinks(cs, index) || index in live.closed
  {
    assert TellsAt(live, cs, index);
    if index in live.blocks {
      KindIsLast(live, cs, index);
      var own := Of(cs, index);
      if own[|own| - 1].BlockEnd? {
        EndIsAmong(cs, index, |own| - 1);
      }
    }
  }

  lemma EndsSnoc(cs: seq<Chunk>, c: Chunk, index: int)
    ensures (exists i :: 0 <= i < |cs + [c]| && (cs + [c])[i].BlockEnd? && (cs + [c])[i].index == index)
            <==> (exists i :: 0 <= i < |cs| && cs[i].BlockEnd? && cs[i].index == index) || (c.BlockEnd? && c.index == index)
  {
    var all := cs + [c];
    assert all[|cs|] == c;
    if i :| 0 <= i < |cs| && cs[i].BlockEnd? && cs[i].index == index {
      assert all[i] == cs[i];
    }
  }

  lemma ChunkTells(live: Live, cs: seq<Chunk>, c: Chunk)
    requires Tells(live, cs)
    ensures Tells(AddChunk(live, c), cs + [c])
  {
    forall i
      ensures TellsAt(AddChunk(live, c), cs + [c], i)
      ensures i in AddChunk(live, c).closed <==> IsClosed(cs + [c], i)
    {
      BlockTells(live, cs, c, i);
      ClosedTells(live, cs, c, i);
    }
  }

  lemma NothingTells(position: Option<(int, int)>)
    ensures Tells(NothingLive.(position := position), [])
  {
  }

  // ---------------------------------------------------------------- main result

  /** After any records the live tail shows exactly its live pieces: each block says what the deltas of its index said, one
    * behind the other, since it was last cleared or replaced, and is of the kind of its last chunk; a tool call has the last
    * identity and name given; and closed are the ended blocks and the reasoning that text or a tool call elsewhere
    * followed. */
  lemma {:induction false} TailShowsItsPieces(content: Content, keys: seq<nat>)
    ensures var live := Fold(content, NothingLive, keys);
            Tells(live, Pieces(content, keys)) && live.position == PlaceOf(content, keys)
  {
    if keys == [] {
      NothingTells(None);
    } else {
      var front, k := keys[..|keys| - 1], keys[|keys| - 1];
      assert keys == front + [k];
      TailShowsItsPieces(content, front);
      PiecesSnoc(content, front, k);
      var before, e := Fold(content, NothingLive, front), content(k);
      if !Ends(e) && e.Piece? {
        PieceTells(before, Pieces(content, front), e, PlaceOf(content, front));
      } else {
        NothingTells(None);
      }
    }
  }

  lemma PieceTells(live: Live, cs: seq<Chunk>, e: Event, place: Option<(int, int)>)
    requires Tells(live, cs) && live.position == place && e.Piece?
    ensures Tells(FoldEvent(live, e), (if place == Place(e) then cs else []) + [e.chunk])
    ensures FoldEvent(live, e).position == Place(e)
  {
    var here := if place == Place(e) then live else NothingLive;
    var kept := if place == Place(e) then cs else [];
    NothingTells(Place(e));
    PositionTells(here, kept, Place(e));
    ChunkTells(here.(position := Place(e)), kept, e.chunk);
    assert FoldEvent(live, e) == AddChunk(here.(position := Place(e)), e.chunk);
  }

  lemma PositionTells(live: Live, cs: seq<Chunk>, position: Option<(int, int)>)
    requires Tells(live, cs) || (live == NothingLive && cs == [])
    ensures Tells(live.(position := position), cs)
  {
    if live == NothingLive && cs == [] {
      NothingTells(position);
    } else {
      forall i
        ensures TellsAt(live.(position := position), cs, i)
      {
        assert TellsAt(live, cs, i);
      }
    }
  }
}
