/** The legacy live tail of src/session/transcript.ts over whole runs of batches: what is kept suffices for the fold of
  * everything delivered, and the tail is that fold exactly while no batch leaves a text doubled. */
module LegacyRuns {
  import opened Collections
  import opened KeyOrder
  import opened LegacyFold
  import opened LegacyRepeats
  import LegacyTail

  // ---------------------------------------------------------------- what is kept

  /** A later boundary was delivered. */
  ghost predicate Superseded(content: Content, delivered: set<nat>, k: nat) {
    exists b :: b in delivered && Ends(content(b)) && k < b
  }

  ghost predicate Retains(content: Content, delivered: set<nat>, kept: set<nat>) {
    kept <= delivered && forall k :: k in delivered && k !in kept ==> Superseded(content, delivered, k)
  }

  /** Nothing the fold still needs was deleted. */
  lemma RetainedDecides(content: Content, delivered: set<nat>, kept: set<nat>)
    requires Retains(content, delivered, kept)
    ensures FoldSet(content, delivered) == FoldSet(content, kept)
  {
    var ends := set b | b in delivered && Ends(content(b));
    if ends == {} {
      assert kept == delivered by {
        assert forall k :: k in delivered && k !in kept ==> Superseded(content, delivered, k);
        assert forall b :: b in delivered ==> b !in ends;
      }
    } else {
      var b := MaxOf(ends);
      forall k | k in delivered && b <= k
        ensures k in kept
      {
        assert forall c :: c in delivered && Ends(content(c)) ==> c in ends;
      }
      assert From(delivered, b + 1) == From(kept, b + 1);
      BoundaryDecides(content, delivered, b);
      BoundaryDecides(content, kept, b);
    }
  }

  /** What is kept decides the fold, and a clean stream knows the newest key folded; nothing is said of the tail. */
  ghost predicate Keeps(content: Content, delivered: set<nat>, s: Stream) {
    && HoldsContent(content, s.events) && Retains(content, delivered, s.events.Keys)
    && (!s.dirty ==> s.folded == Newest(delivered))
  }

  /** And the tail of a clean stream is the fold of everything delivered. */
  ghost predicate Inv(content: Content, delivered: set<nat>, s: Stream) {
    Keeps(content, delivered, s) && (!s.dirty ==> s.live == FoldSet(content, delivered))
  }

  lemma DeleteRetains(content: Content, delivered: set<nat>, events: map<nat, Event>, added: seq<Record>)
    requires HoldsContent(content, events) && Retains(content, delivered, events.Keys)
    requires Faithful(content, added) && Keys(added) <= delivered
    ensures HoldsContent(content, Kept(events, LastEnd(added)))
    ensures Retains(content, delivered, Kept(events, LastEnd(added)).Keys)
  {
    var through := LastEnd(added);
    LastEndEnds(added);
    forall k | k in delivered && k !in Kept(events, through)
      ensures Superseded(content, delivered, k)
    {
      if k in events {
        var r :| r in added && Ends(r.event) && r.key == through;
        assert r.key in Keys(added);
      }
    }
  }

  /** A fold that starts over from what is retained. */
  lemma RefoldIsRight(content: Content, delivered: set<nat>, events: map<nat, Event>)
    requires HoldsContent(content, events) && Retains(content, delivered, events.Keys)
    ensures Fold(Held(events), NothingLive, Ascending(events.Keys)) == FoldSet(content, delivered)
    ensures Newest(events.Keys) == Newest(delivered)
  {
    AscendingLists(events.Keys);
    FoldAgrees(Held(events), content, NothingLive, Ascending(events.Keys));
    RetainedDecides(content, delivered, events.Keys);
    NewestIsBound(delivered);
    if delivered != {} {
      var m := MaxOf(delivered);
      assert m in events.Keys by {
        assert m !in events.Keys ==> Superseded(content, delivered, m);
      }
      MaxIs(events.Keys, m);
    }
  }

  lemma AddedIsLater(content: Content, delivered: set<nat>, s: Stream, records: seq<Record>)
    requires Keeps(content, delivered, s) && Faithful(content, records) && !TakeAll(s, records).dirty
    ensures var added := TakeAll(s, records).added;
            && Past(added, s.folded) == added && delivered + Keys(records) == delivered + Keys(added)
            && forall a, b :: a in delivered && b in Keys(added) ==> a < b
  {
    var t := TakeAll(s, records);
    TakeAllTakes(content, s, records);
    DirtyMeans(s, records);
    PastAll(t.added, s.folded);
    NewestIsBound(delivered);
    assert forall b :: b in Keys(t.added) ==> s.folded < b;
  }

  lemma MoreDelivered(content: Content, delivered: set<nat>, kept: set<nat>, more: set<nat>)
    requires Retains(content, delivered, kept)
    ensures Retains(content, delivered + more, kept + more)
  {
    forall k | k in delivered + more && k !in kept + more
      ensures Superseded(content, delivered + more, k)
    {
      assert Superseded(content, delivered, k);
      var b :| b in delivered && Ends(content(b)) && k < b;
      assert b in delivered + more;
    }
  }

  // ---------------------------------------------------------------- one batch

  /** The batch leaves some text doubled: the fold continues, and a repeated record appends text that nothing later in the
    * batch replaces. */
  ghost predicate LeavesDoubled(content: Content, s: Stream, records: seq<Record>) {
    var t := TakeAll(s, records);
    !t.dirty && exists index, k :: Lingers(content, KeySeq(t.added), index, k)
  }

  /** Any batch keeps what later folds need, repeats or not. */
  lemma BatchKeeps(content: Content, delivered: set<nat>, s: Stream, records: seq<Record>)
    requires Keeps(content, delivered, s) && Faithful(content, records)
    ensures Keeps(content, delivered + Keys(records), AddBatch(s, records)) && !AddBatch(s, records).dirty
  {
    var t, all := TakeAll(s, records), delivered + Keys(records);
    TakeAllTakes(content, s, records);
    MoreDelivered(content, delivered, s.events.Keys, Keys(records));
    if t.dirty {
      RefoldIsRight(content, all, t.events);
    } else {
      AddedIsLater(content, delivered, s, records);
      DirtyMeans(s, records);
      NewestJoin(delivered, Keys(t.added));
    }
    DeleteRetains(content, all, t.events, t.added);
  }

  /** A fold that starts over shows the fold of everything delivered, whatever the tail showed before. */
  lemma StartingOverHeals(content: Content, delivered: set<nat>, s: Stream, records: seq<Record>)
    requires Keeps(content, delivered, s) && Faithful(content, records) && TakeAll(s, records).dirty
    ensures AddBatch(s, records).live == FoldSet(content, delivered + Keys(records))
  {
    TakeAllTakes(content, s, records);
    MoreDelivered(content, delivered, s.events.Keys, Keys(records));
    RefoldIsRight(content, delivered + Keys(records), TakeAll(s, records).events);
  }

  /** A fold that continues differs from the fold of everything delivered by longer texts in the doubled blocks alone. */
  lemma ContinuedFoldIsBeside(content: Content, delivered: set<nat>, s: Stream, records: seq<Record>)
    requires Inv(content, delivered, s) && Faithful(content, records) && !TakeAll(s, records).dirty
    ensures Beside(AddBatch(s, records).live, FoldSet(content, delivered + Keys(records)),
                   Doubled(content, KeySeq(TakeAll(s, records).added)))
  {
    var added := TakeAll(s, records).added;
    AddedIsLater(content, delivered, s, records);
    TakeAllTakes(content, s, records);
    DirtyMeans(s, records);
    SortedFoldIsBeside(content, s.live, added);
    LaterExtends(content, delivered, Keys(added));
  }

  /** After one batch the live tail is the fold of everything delivered exactly when the batch leaves no text doubled. */
  lemma BatchIsRightExactlyWhen(content: Content, delivered: set<nat>, s: Stream, records: seq<Record>)
    requires Inv(content, delivered, s) && Faithful(content, records)
    ensures AddBatch(s, records).live == FoldSet(content, delivered + Keys(records))
            <==> !LeavesDoubled(content, s, records)
  {
    var added, all := TakeAll(s, records).added, delivered + Keys(records);
    if TakeAll(s, records).dirty {
      StartingOverHeals(content, delivered, s, records);
    } else {
      ContinuedFoldIsBeside(content, delivered, s, records);
      BesideMeans(AddBatch(s, records).live, FoldSet(content, all), Doubled(content, KeySeq(added)));
      DoubledMeans(content, KeySeq(added));
    }
  }

  /** Harmless repeats: edges, closed blocks, tool calls, empty deltas, and whatever a later record of the batch replaces. */
  lemma HarmlessRepeat(content: Content, ks: seq<nat>, index: int, k: nat)
    requires || !content(k).Piece? || content(k).chunk.BlockEnd? || content(k).chunk.ToolDelta? || content(k).chunk.OtherChunk?
             || content(k).chunk.text == ""
             || (exists j :: j in ks && k < j && Ends(content(j)))
             || (exists j :: j in ks && k < j && content(j).Piece? && content(j).turn != content(k).turn)
    ensures !Lingers(content, ks, index, k)
  {
  }

  // ---------------------------------------------------------------- whole runs

  /** Whatever the batches repeat, what is kept always suffices to fold everything delivered. */
  lemma {:induction false} EveryRunKeeps(content: Content, batches: seq<seq<Record>>)
    requires forall i :: 0 <= i < |batches| ==> Faithful(content, batches[i])
    ensures Keeps(content, Delivered(batches), Run(batches))
  {
    if batches != [] {
      var n := |batches| - 1;
      EveryRunKeeps(content, batches[..n]);
      BatchKeeps(content, Delivered(batches[..n]), Run(batches[..n]), batches[n]);
    }
  }

  ghost predicate EveryBatch(content: Content, batches: seq<seq<Record>>) {
    forall i :: 0 <= i < |batches| ==> Faithful(content, batches[i]) && !LeavesDoubled(content, Run(batches[..i]), batches[i])
  }

  /** The incremental fold refines the batch fold: after any batches of new records, older pages and redeliveries that
    * leave no text doubled, the live tail is the fold in sequence order of every record ever delivered, although most of
    * them were deleted. */
  lemma {:induction false} LiveIsFoldOfAllDelivered(content: Content, batches: seq<seq<Record>>)
    requires EveryBatch(content, batches)
    ensures Inv(content, Delivered(batches), Run(batches))
    ensures batches != [] ==> Run(batches).live == FoldSet(content, Delivered(batches))
  {
    if batches != [] {
      var n := |batches| - 1;
      assert forall i :: 0 <= i < n ==> batches[..n][..i] == batches[..i];
      LiveIsFoldOfAllDelivered(content, batches[..n]);
      BatchKeeps(content, Delivered(batches[..n]), Run(batches[..n]), batches[n]);
      BatchIsRightExactlyWhen(content, Delivered(batches[..n]), Run(batches[..n]), batches[n]);
    }
  }

  /** So the tail shows exactly the live pieces of everything delivered. */
  lemma LiveShowsAllDelivered(content: Content, batches: seq<seq<Record>>)
    requires EveryBatch(content, batches) && batches != []
    ensures var keys := Ascending(Delivered(batches));
            && LegacyTail.Tells(Run(batches).live, LegacyTail.Pieces(content, keys))
            && Run(batches).live.position == LegacyTail.PlaceOf(content, keys)
  {
    LiveIsFoldOfAllDelivered(content, batches);
    LegacyTail.TailShowsItsPieces(content, Ascending(Delivered(batches)));
  }

  // ---------------------------------------------------------------- what is collected

  lemma {:induction false} LastEndIsLast(rs: seq<Record>)
    ensures forall r :: r in rs && Ends(r.event) ==> r.key <= LastEnd(rs)
    ensures (forall r :: r in rs ==> !Ends(r.event)) ==> LastEnd(rs) == -1
  {
    if rs != [] {
      var front, last := rs[..|rs| - 1], rs[|rs| - 1];
      LastEndIsLast(front);
      assert rs == front + [last] && last in rs && forall r :: r in front ==> r in rs;
    }
  }

  /** Some boundary or assistant message of these records comes after this place. */
  ghost predicate EndsLater(rs: seq<Record>, k: nat) {
    exists r :: r in rs && (r.event.Edge? || r.event.AssistantMessage?) && k < r.key
  }

  lemma EndsLaterMeans(rs: seq<Record>, k: nat)
    ensures EndsLater(rs, k) <==> k < LastEnd(rs)
  {
    LastEndIsLast(rs);
    LastEndEnds(rs);
  }

  /** A batch deletes exactly the records it has no message for before the newest boundary it added: messages and tool
    * results always stay. */
  lemma BoundaryCollects(s: Stream, records: seq<Record>, k: nat)
    ensures var t, n := TakeAll(s, records), AddBatch(s, records);
            && (k in n.events ==> k in t.events && n.events[k] == t.events[k])
            && (k in t.events && k !in n.events
                <==> k in t.events && (t.events[k].Edge? || t.events[k].Piece? || t.events[k].Note?) && EndsLater(t.added, k))
  {
    EndsLaterMeans(TakeAll(s, records).added, k);
    KeptMeans(TakeAll(s, records).events, LastEnd(TakeAll(s, records).added), k);
  }

  lemma KeptMeans(events: map<nat, Event>, through: int, k: nat)
    ensures var kept := Kept(events, through);
            && (k in kept ==> k in events && kept[k] == events[k])
            && (k in events && k !in kept <==> k in events && k < through && !Displays(events[k]))
  {
  }

  /** What is retained before collection: every record as it was last added, and the others as they were. */
  lemma {:induction false} LastAddedIsRetained(s: Stream, records: seq<Record>, k: nat)
    ensures var t := TakeAll(s, records);
            && (k in t.events <==> k in s.events || exists r :: r in records && r.key == k)
            && ((forall r :: r in records ==> r.key != k) && k in s.events ==> t.events[k] == s.events[k])
    ensures forall r :: records != [] && r == records[|records| - 1] ==> TakeAll(s, records).events[r.key] == r.event
  {
    if records != [] {
      var front, last := records[..|records| - 1], records[|records| - 1];
      assert records == front + [last] && last in records;
      assert forall r :: r in records <==> r in front || r == last;
      LastAddedIsRetained(s, front, k);
      LastAddedIsRetained(s, front, last.key);
    }
  }

  /** Records met again as the very objects that are retained change nothing in a stream that is up to date. */
  lemma {:induction false} SameObjectsAreSkipped(s: Stream, records: seq<Record>)
    requires forall r :: r in records ==>
               r.same && r.key in s.events && s.events[r.key] == r.event && (r.event.Edge? || r.event.Piece? || r.event.Note?)
    ensures TakeAll(s, records) == Taking(s.events, [], s.dirty)
    ensures !s.dirty && s.folded >= -1 ==> AddBatch(s, records) == s
  {
    if records != [] {
      var front, last := records[..|records| - 1], records[|records| - 1];
      assert records == front + [last] && last in records && forall r :: r in front ==> r in records;
      SameObjectsAreSkipped(s, front);
    }
    assert Keys([]) == {};
    assert Kept(s.events, -1) == s.events;
  }

  /** A whole batch of that kind: text delivered twice, past everything folded, is shown twice. */
  lemma RepeatedTextIsShownTwice(s: Stream, key: nat, turn: int, step: int, index: int, text: string)
    requires !s.dirty && s.folded < key && text != ""
    ensures var r := Record(key, Piece(turn, step, TextDelta(index, text)), false);
            var once, twice := AddBatch(s, [r]).live, AddBatch(s, [r, r]).live;
            && index in once.blocks && index in twice.blocks
            && twice.blocks[index].text == once.blocks[index].text + text
            && twice != once
  {
    var r := Record(key, Piece(turn, step, TextDelta(index, text)), false);
    OneAdded(s, r);
    TwoAdded(s, r);
    var once := FoldEvent(s.live, r.event);
    assert |once.blocks[index].text + text| > |once.blocks[index].text|;
  }

  /** One more record, stage by stage. */
  lemma StagesSnoc(s: Stream, rs: seq<Record>, r: Record)
    ensures TakeAll(s, rs + [r]) == Take(TakeAll(s, rs), s.folded, r)
    ensures r.key > s.folded ==> Past(rs + [r], s.folded) == Past(rs, s.folded) + [r]
    ensures Sorted(rs + [r]) == Insert(Sorted(rs), r)
    ensures FoldRecords(s.live, rs + [r]) == FoldEvent(FoldRecords(s.live, rs), r.event)
  {
    assert (rs + [r])[..|rs|] == rs;
  }

  lemma OneAdded(s: Stream, r: Record)
    requires !s.dirty && s.folded < r.key && !r.same
    ensures TakeAll(s, [r]) == Taking(s.events[r.key := r.event], [r], false)
    ensures Past([r], s.folded) == [r] && Sorted([r]) == [r]
    ensures FoldRecords(s.live, [r]) == FoldEvent(s.live, r.event) == AddBatch(s, [r]).live
  {
    StagesSnoc(s, [], r);
    assert [] + [r] == [r];
  }

  lemma TwoAdded(s: Stream, r: Record)
    requires !s.dirty && s.folded < r.key && !r.same
    ensures AddBatch(s, [r, r]).live == FoldEvent(FoldEvent(s.live, r.event), r.event)
  {
    OneAdded(s, r);
    StagesSnoc(s, [r], r);
    assert [r] + [r] == [r, r];
  }
}
