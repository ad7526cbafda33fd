/** What the live tail of src/session/transcript.ts shows when one batch brings a record twice.
  *
  * Two decoded copies of one record are two objects, so both are folded: next to each other, because the fold sorts them.
  * That shows only where text is appended, and only until something later replaces it. */
module LegacyRepeats {
  import opened Collections
  import opened KeyOrder
  import opened LegacyFold

  /** The keys of some records, in their order. */
  function KeySeq(rs: seq<Record>): (ks: seq<nat>)
    ensures |ks| == |rs| && forall i :: 0 <= i < |rs| ==> ks[i] == rs[i].key
  {
    if rs == [] then [] else KeySeq(rs[..|rs| - 1]) + [rs[|rs| - 1].key]
  }

  predicate AtMost(ks: seq<nat>, bound: nat) {
    forall k :: k in ks ==> k <= bound
  }

  ghost predicate Climbs(ks: seq<nat>) {
    forall i, j :: 0 <= i < j < |ks| ==> ks[i] <= ks[j]
  }

  /** How often a key occurs. */
  function Times(ks: seq<nat>, k: nat): nat {
    multiset(ks)[k]
  }

  function Elems(ks: seq<nat>): set<nat> {
    set k | k in ks
  }

  // ---------------------------------------------------------------- sorting

  lemma KeySeqSnoc(rs: seq<Record>, r: Record)
    ensures KeySeq(rs + [r]) == KeySeq(rs) + [r.key]
  {
    assert (rs + [r])[..|rs|] == rs;
  }

  lemma ClimbsSnoc(ks: seq<nat>, last: nat)
    ensures Climbs(ks + [last]) <==> Climbs(ks) && AtMost(ks, last)
  {
    var all := ks + [last];
    if Climbs(all) {
      forall i, j | 0 <= i < j < |ks|
        ensures ks[i] <= ks[j]
      {
        assert all[i] <= all[j];
      }
      forall k | k in ks
        ensures k <= last
      {
        var i :| 0 <= i < |ks| && ks[i] == k;
        assert all[i] <= all[|ks|];
      }
    }
    if Climbs(ks) && AtMost(ks, last) {
      forall i, j | 0 <= i < j < |all|
        ensures all[i] <= all[j]
      {
        assert ks[i] in ks;
      }
    }
  }

  lemma {:induction false} InsertCounts(rs: seq<Record>, r: Record)
    ensures multiset(KeySeq(Insert(rs, r))) == multiset(KeySeq(rs)) + multiset{r.key}
  {
    if rs == [] || rs[|rs| - 1].key <= r.key {
      KeySeqSnoc(rs, r);
    } else {
      var front, last := rs[..|rs| - 1], rs[|rs| - 1];
      assert rs == front + [last];
      KeySeqSnoc(front, last);
      InsertCounts(front, r);
      KeySeqSnoc(Insert(front, r), last);
    }
  }

  lemma CountsBound(ks: seq<nat>, other: seq<nat>, k: nat, bound: nat)
    requires multiset(other) == multiset(ks) + multiset{k} && AtMost(ks, bound) && k <= bound
    ensures AtMost(other, bound)
  {
    forall j | j in other
      ensures j <= bound
    {
      assert j in multiset(other) && multiset(other)[j] == (multiset(ks) + multiset{k})[j];
      assert j in ks || j == k;
    }
  }

  lemma {:induction false} InsertClimbs(rs: seq<Record>, r: Record)
    requires Climbs(KeySeq(rs))
    ensures Climbs(KeySeq(Insert(rs, r)))
  {
    if rs == [] {
      KeySeqSnoc(rs, r);
    } else {
      var front, last := rs[..|rs| - 1], rs[|rs| - 1];
      assert rs == front + [last];
      KeySeqSnoc(front, last);
      ClimbsSnoc(KeySeq(front), last.key);
      if last.key <= r.key {
        KeySeqSnoc(rs, r);
        ClimbsSnoc(KeySeq(rs), r.key);
      } else {
        InsertClimbs(front, r);
        InsertCounts(front, r);
        CountsBound(KeySeq(front), KeySeq(Insert(front, r)), r.key, last.key);
        KeySeqSnoc(Insert(front, r), last);
        ClimbsSnoc(KeySeq(Insert(front, r)), last.key);
      }
    }
  }

  lemma {:induction false} SortedClimbs(rs: seq<Record>)
    ensures Climbs(KeySeq(Sorted(rs))) && multiset(KeySeq(Sorted(rs))) == multiset(KeySeq(rs))
    ensures forall x :: x in Sorted(rs) <==> x in rs
  {
    if rs != [] {
      var front, last := rs[..|rs| - 1], rs[|rs| - 1];
      assert rs == front + [last];
      SortedClimbs(front);
      InsertClimbs(Sorted(front), last);
      InsertCounts(Sorted(front), last);
      InsertHolds(Sorted(front), last);
      KeySeqSnoc(front, last);
    }
  }

  /** Folding ascending records is folding their keys. */
  lemma {:induction false} FoldRecordsIsFold(content: Content, live: Live, rs: seq<Record>, keys: seq<nat>)
    requires Faithful(content, rs) && |keys| == |rs| && forall i :: 0 <= i < |rs| ==> keys[i] == rs[i].key
    ensures FoldRecords(live, rs) == Fold(content, live, keys)
  {
    if rs != [] {
      assert rs[|rs| - 1] in rs && forall r :: r in rs[..|rs| - 1] ==> r in rs;
      FoldRecordsIsFold(content, live, rs[..|rs| - 1], keys[..|keys| - 1]);
    }
  }

  // ---------------------------------------------------------------- which repeats show

  /** Folding this event adds text to what the block already shows. */
  predicate Appends(e: Event, index: int) {
    e.Piece? && (e.chunk.TextDelta? || e.chunk.ReasoningDelta?) && e.chunk.index == index && e.chunk.text != ""
  }

  /** The block this event adds text to, if any. */
  ghost function Appended(e: Event): iset<int> {
    iset index | Appends(e, index)
  }

  /** A later event replaces what an appended piece showed: it ends the attempt, belongs to another turn or step, or
    * replaces the block. */
  predicate Wipes(e: Event, index: int, later: Event)
    requires e.Piece?
  {
    || Ends(later)
    || (later.Piece? && ((later.turn, later.step) != (e.turn, e.step)
                         || ((later.chunk.BlockEnd? || later.chunk.ToolDelta?) && later.chunk.index == index)))
  }

  /** This key occurs twice, it appends text to the block, and no later key replaces that. */
  ghost predicate Lingers(content: Content, ks: seq<nat>, index: int, k: nat) {
    && Times(ks, k) >= 2 && Appends(content(k), index)
    && forall j :: j in ks && k < j ==> !Wipes(content(k), index, content(j))
  }

  /** The blocks that show some text twice. */
  ghost function Doubled(content: Content, ks: seq<nat>): iset<int> {
    iset index | DoubledAt(content, ks, index)
  }

  ghost predicate DoubledAt(content: Content, ks: seq<nat>, index: int) {
    exists k :: Lingers(content, ks, index, k)
  }

  /** The same tail but for longer texts in these blocks. */
  ghost predicate Beside(a: Live, b: Live, longer: iset<int>) {
    && a.closed == b.closed && a.position == b.position
    && forall i :: BesideAt(a, b, longer, i)
  }

  ghost predicate BesideAt(a: Live, b: Live, longer: iset<int>, i: int) {
    && (i in a.blocks <==> i in b.blocks) && (i in longer ==> i in a.blocks)
    && (i in a.blocks ==>
          && a.blocks[i].(text := "") == b.blocks[i].(text := "")
          && if i in longer then |a.blocks[i].text| > |b.blocks[i].text| else a.blocks[i] == b.blocks[i])
  }

  lemma BesideMeans(a: Live, b: Live, longer: iset<int>)
    requires Beside(a, b, longer)
    ensures a == b <==> longer == iset{}
  {
    if exists i :: i in longer {
      var i :| i in longer;
      assert BesideAt(a, b, longer, i);
    } else {
      forall i
        ensures (i in a.blocks <==> i in b.blocks) && (i in a.blocks ==> a.blocks[i] == b.blocks[i])
      {
        assert BesideAt(a, b, longer, i);
      }
      assert a.blocks == b.blocks;
      assert longer == iset{};
    }
  }

  function Place(e: Event): Option<(int, int)> {
    if e.Piece? then Some((e.turn, e.step)) else None
  }

  /** The blocks that still show a text twice after one more event. */
  ghost function After(longer: iset<int>, position: Option<(int, int)>, e: Event): iset<int> {
    if Ends(e) then iset{}
    else if !e.Piece? then longer
    else if position != Place(e) then iset{}
    else if e.chunk.BlockEnd? || e.chunk.ToolDelta? then longer - iset{e.chunk.index}
    else longer
  }

  lemma ChunkKeepsBeside(a: Live, b: Live, longer: iset<int>, c: Chunk)
    requires Beside(a, b, longer)
    ensures Beside(AddChunk(a, c), AddChunk(b, c),
                   if c.BlockEnd? || c.ToolDelta? then longer - iset{c.index} else longer)
  {
    forall i
      ensures (i in a.blocks <==> i in b.blocks) && (i in a.blocks ==> a.blocks[i].kind == b.blocks[i].kind)
    {
      assert BesideAt(a, b, longer, i);
    }
    assert ClosedBy(a, c) == ClosedBy(b, c);
    var less := if c.BlockEnd? || c.ToolDelta? then longer - iset{c.index} else longer;
    forall i
      ensures BesideAt(AddChunk(a, c), AddChunk(b, c), less, i)
    {
      assert BesideAt(a, b, longer, i);
    }
  }

  lemma BothFold(a: Live, b: Live, longer: iset<int>, e: Event)
    requires Beside(a, b, longer)
    ensures Beside(FoldEvent(a, e), FoldEvent(b, e), After(longer, a.position, e))
  {
    if !Ends(e) && e.Piece? {
      if a.position == Place(e) {
        ChunkKeepsBeside(a, b, longer, e.chunk);
      } else {
        var cleared := NothingLive.(position := Place(e));
        ChunkKeepsBeside(cleared, cleared, iset{}, e.chunk);
      }
    }
  }

  /** Folding an event a second time only adds the text it appends. */
  lemma FoldTwice(live: Live, e: Event)
    ensures var once := FoldEvent(live, e);
            Beside(FoldEvent(once, e), once, Appended(e))
  {
    if !Ends(e) && e.Piece? {
      var here := if live.position == Place(e) then live else NothingLive;
      PieceTwice(live, e, here.(position := Place(e)));
      ChunkTwice(here.(position := Place(e)), e.chunk);
      assert Appended(e) == iset index | ChunkAppends(e.chunk, index);
    }
  }

  lemma PieceTwice(live: Live, e: Event, here: Live)
    requires e.Piece? && here == (if live.position == Place(e) then live else NothingLive).(position := Place(e))
    ensures FoldEvent(live, e) == AddChunk(here, e.chunk)
    ensures FoldEvent(FoldEvent(live, e), e) == AddChunk(AddChunk(here, e.chunk), e.chunk)
  {
    var once := AddChunk(here, e.chunk);
    assert once.position == Place(e) && once.(position := Place(e)) == once;
  }

  predicate ChunkAppends(c: Chunk, index: int) {
    (c.TextDelta? || c.ReasoningDelta?) && c.index == index && c.text != ""
  }

  lemma ChunkTwice(live: Live, c: Chunk)
    ensures var once := AddChunk(live, c);
            Beside(AddChunk(once, c), once, iset index | ChunkAppends(c, index))
  {
    var once := AddChunk(live, c);
    assert ClosedBy(once, c) == once.closed;
  }

  lemma BesideJoins(a: Live, b: Live, c: Live, first: iset<int>, second: iset<int>)
    requires Beside(a, b, first) && Beside(b, c, second)
    ensures Beside(a, c, first + second)
  {
    forall i
      ensures BesideAt(a, c, first + second, i)
    {
      assert BesideAt(a, b, first, i) && BesideAt(b, c, second, i);
    }
  }

  lemma LingersNew(content: Content, front: seq<nat>, b: nat, index: int, k: nat)
    requires Climbs(front + [b]) && b !in front
    ensures Lingers(content, front + [b], index, k)
            <==> Lingers(content, front, index, k) && !Wipes(content(k), index, content(b))
  {
    LastIsGreatest(front, b);
    var ks := front + [b];
    assert Times(front, b) == 0 && Times(ks, k) == Times(front, k) + if k == b then 1 else 0;
    assert forall j :: j in ks <==> j in front || j == b;
    assert Times(front, k) >= 2 ==> k in front && k < b;
  }

  lemma LingersAgain(content: Content, front: seq<nat>, b: nat, index: int, k: nat)
    requires Climbs(front + [b]) && b in front
    ensures Lingers(content, front + [b], index, k)
            <==> Lingers(content, front, index, k) || (k == b && Appends(content(b), index))
  {
    LastIsGreatest(front, b);
    var ks := front + [b];
    assert Times(front, b) >= 1 && Times(ks, k) == Times(front, k) + if k == b then 1 else 0;
    assert forall j :: j in ks <==> j in front;
  }

  lemma LastIsGreatest(front: seq<nat>, b: nat)
    requires Climbs(front + [b])
    ensures Climbs(front) && forall k :: k in front ==> k <= b
    ensures b in front ==> front[|front| - 1] == b
    ensures multiset(front + [b]) == multiset(front) + multiset{b}
  {
    var ks := front + [b];
    forall i, j | 0 <= i < j < |front|
      ensures front[i] <= front[j]
    {
      assert ks[i] <= ks[j];
    }
    forall k | k in front
      ensures k <= b && k <= front[|front| - 1] <= b
    {
      var i :| 0 <= i < |front| && front[i] == k;
      assert ks[i] <= ks[|front|] && ks[|front| - 1] <= ks[|front|];
      assert i < |front| - 1 ==> ks[i] <= ks[|front| - 1];
    }
  }

  /** Whatever lingers belongs to the turn and step the tail is at. */
  ghost predicate Placed(content: Content, ks: seq<nat>, live: Live) {
    forall index, k :: Lingers(content, ks, index, k) ==> live.position == Place(content(k))
  }

  lemma DoubledNew(content: Content, front: seq<nat>, b: nat, live: Live)
    requires Climbs(front + [b]) && b !in front && Placed(content, front, live)
    ensures Doubled(content, front + [b]) == After(Doubled(content, front), live.position, content(b))
    ensures Placed(content, front + [b], FoldEvent(live, content(b)))
  {
    forall index, k
      ensures Lingers(content, front + [b], index, k)
              <==> Lingers(content, front, index, k) && !Wipes(content(k), index, content(b))
    {
      LingersNew(content, front, b, index, k);
    }
  }

  lemma DoubledAgain(content: Content, front: seq<nat>, b: nat, live: Live)
    requires Climbs(front + [b]) && b in front && Placed(content, front, live)
    requires content(b).Piece? ==> live.position == Place(content(b))
    ensures Doubled(content, front + [b]) == Appended(content(b)) + Doubled(content, front)
    ensures live.position == FoldEvent(live, content(b)).position ==> Placed(content, front + [b], FoldEvent(live, content(b)))
  {
    forall index, k
      ensures Lingers(content, front + [b], index, k)
              <==> Lingers(content, front, index, k) || (k == b && Appends(content(b), index))
    {
      LingersAgain(content, front, b, index, k);
    }
    forall index
      ensures DoubledAt(content, front + [b], index) <==> Appends(content(b), index) || DoubledAt(content, front, index)
    {
      if Appends(content(b), index) {
        assert Lingers(content, front + [b], index, b);
      }
      if DoubledAt(content, front, index) {
        var k :| Lingers(content, front, index, k);
        assert Lingers(content, front + [b], index, k);
      }
    }
  }

  /** The fold of a list with repeats, beside the fold of its keys. */
  lemma {:induction false} RepeatsFold(content: Content, live: Live, ks: seq<nat>)
    requires Climbs(ks)
    ensures Beside(Fold(content, live, ks), Fold(content, live, Ascending(Elems(ks))), Doubled(content, ks))
    ensures Placed(content, ks, Fold(content, live, ks))
  {
    if ks != [] {
      var front, b := ks[..|ks| - 1], ks[|ks| - 1];
      assert ks == front + [b];
      LastIsGreatest(front, b);
      RepeatsFold(content, live, front);
      if b in front {
        AgainFold(content, live, front, b);
      } else {
        NewFold(content, live, front, b);
      }
    }
  }

  lemma NewFold(content: Content, live: Live, front: seq<nat>, b: nat)
    requires Climbs(front + [b]) && b !in front
    requires Beside(Fold(content, live, front), Fold(content, live, Ascending(Elems(front))), Doubled(content, front))
    requires Placed(content, front, Fold(content, live, front))
    ensures Beside(Fold(content, live, front + [b]), Fold(content, live, Ascending(Elems(front + [b]))),
                   Doubled(content, front + [b]))
    ensures Placed(content, front + [b], Fold(content, live, front + [b]))
  {
    LastIsGreatest(front, b);
    assert Elems(front + [b]) - {b} == Elems(front);
    AscendingStep(Elems(front + [b]), b);
    FoldSnoc(content, live, front, b);
    FoldSnoc(content, live, Ascending(Elems(front)), b);
    BothFold(Fold(content, live, front), Fold(content, live, Ascending(Elems(front))), Doubled(content, front), content(b));
    DoubledNew(content, front, b, Fold(content, live, front));
  }

  lemma AgainFold(content: Content, live: Live, front: seq<nat>, b: nat)
    requires Climbs(front + [b]) && b in front
    requires Beside(Fold(content, live, front), Fold(content, live, Ascending(Elems(front))), Doubled(content, front))
    requires Placed(content, front, Fold(content, live, front))
    ensures Beside(Fold(content, live, front + [b]), Fold(content, live, Ascending(Elems(front + [b]))),
                   Doubled(content, front + [b]))
    ensures Placed(content, front + [b], Fold(content, live, front + [b]))
  {
    LastIsGreatest(front, b);
    assert Elems(front + [b]) == Elems(front);
    var before := Fold(content, live, front[..|front| - 1]);
    var once := Fold(content, live, front);
    FoldSnoc(content, live, front, b);
    assert once == FoldEvent(before, content(b));
    FoldTwice(before, content(b));
    PlaceOfFold(before, content(b));
    DoubledAgain(content, front, b, once);
    BesideJoins(FoldEvent(once, content(b)), once, Fold(content, live, Ascending(Elems(front))),
                Appended(content(b)), Doubled(content, front));
  }

  lemma PlaceOfFold(live: Live, e: Event)
    ensures e.Piece? ==> FoldEvent(live, e).position == Place(e)
  {
  }

  // ---------------------------------------------------------------- one batch

  lemma LingersByCount(content: Content, a: seq<nat>, b: seq<nat>)
    requires multiset(a) == multiset(b)
    ensures Doubled(content, a) == Doubled(content, b) && Elems(a) == Elems(b)
  {
    assert forall k :: k in a <==> k in multiset(a);
    assert forall k :: k in b <==> k in multiset(b);
    assert forall index, k :: Lingers(content, a, index, k) <==> Lingers(content, b, index, k);
  }

  lemma DoubledMeans(content: Content, ks: seq<nat>)
    ensures Doubled(content, ks) == iset{} <==> !exists index, k :: Lingers(content, ks, index, k)
  {
    if index, k :| Lingers(content, ks, index, k) {
      assert DoubledAt(content, ks, index) && index in Doubled(content, ks);
    }
  }

  /** The records of a batch folded as they come show the fold of their keys, but for the doubled texts. */
  lemma SortedFoldIsBeside(content: Content, live: Live, rs: seq<Record>)
    requires Faithful(content, rs)
    ensures Beside(FoldRecords(live, Sorted(rs)), Fold(content, live, Ascending(Keys(rs))), Doubled(content, KeySeq(rs)))
  {
    var sorted := Sorted(rs);
    SortedClimbs(rs);
    FoldRecordsIsFold(content, live, sorted, KeySeq(sorted));
    RepeatsFold(content, live, KeySeq(sorted));
    LingersByCount(content, KeySeq(sorted), KeySeq(rs));
    KeysAreElems(rs);
  }

  lemma KeysAreElems(rs: seq<Record>)
    ensures Elems(KeySeq(rs)) == Keys(rs)
  {
    forall k
      ensures k in KeySeq(rs) <==> k in Keys(rs)
    {
      if k in Keys(rs) {
        var r :| r in rs && r.key == k;
        var i :| 0 <= i < |rs| && rs[i] == r;
        assert KeySeq(rs)[i] == k;
      }
      if k in KeySeq(rs) {
        var i :| 0 <= i < |rs| && KeySeq(rs)[i] == k;
        assert rs[i] in rs;
      }
    }
  }
}
