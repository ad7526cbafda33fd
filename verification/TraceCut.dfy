/** Where a full trace is cut when it is rewritten (src/controller/trace-log.ts).
  *
  * The newest lines are kept, but never a line that closes a span whose opening line was dropped. */
module TraceCut {
  import opened Collections

  /** What reading one trace line gives: nothing, or the string fields a span is recognised by. `ids` are the
    * five identifier fields in priority order, absent where the record has no string there. */
  datatype Line = Unreadable | Record(event: Option<string>, phase: Option<string>, ids: seq<Option<string>>)

  datatype Span = Span(key: string, open: bool)

  const SPAN_EVENTS := {"command", "loop", "generation"}
  const CLOSE_PHASES := {"end", "failed", "cancelled", "ended"}

  function FirstId(ids: seq<Option<string>>): string {
    if ids == [] then "" else if ids[0].Some? then ids[0].value else FirstId(ids[1..])
  }

  function SpanOf(line: Line): Option<Span> {
    match line
    case Record(Some(event), Some(phase), ids) =>
      if event !in SPAN_EVENTS || (phase != "begin" && phase !in CLOSE_PHASES) then None
      else Some(Span(event + ":" + FirstId(ids), phase == "begin"))
    case _ => None
  }

  /** The first identifier present, or none at all. */
  ghost predicate Named(ids: seq<Option<string>>, id: string) {
    || (id == "" && forall m :: 0 <= m < |ids| ==> ids[m] == None)
    || (exists k :: NamedBy(ids, k, id))
  }

  ghost predicate NamedBy(ids: seq<Option<string>>, k: int, id: string) {
    0 <= k < |ids| && ids[k] == Some(id) && forall m :: 0 <= m < k ==> ids[m] == None
  }

  lemma {:induction false} FirstIdNames(ids: seq<Option<string>>, id: string)
    ensures Named(ids, id) <==> FirstId(ids) == id
  {
    if ids != [] && ids[0] == None {
      FirstIdNames(ids[1..], id);
      if Named(ids, id) {
        if k :| NamedBy(ids, k, id) {
          assert NamedBy(ids[1..], k - 1, id);
        }
        assert Named(ids[1..], id);
      } else {
        assert forall k :: NamedBy(ids[1..], k, id) ==> NamedBy(ids, k + 1, id);
      }
    } else if ids != [] {
      assert NamedBy(ids, 0, ids[0].value);
    }
  }

  lemma KindEndsFirst(a: string, b: string, c: string, d: string)
    requires ':' !in b && a + (":" + c) == b + (":" + d)
    ensures |b| <= |a|
  {
    var whole := a + (":" + c);
    assert whole[|a|] == ':';
    assert forall k :: 0 <= k < |b| ==> whole[k] == b[k];
  }

  lemma KeyParts(a: string, b: string, c: string, d: string)
    requires ':' !in a && ':' !in b && a + (":" + c) == b + (":" + d)
    ensures a == b && c == d
  {
    KindEndsFirst(a, b, c, d);
    KindEndsFirst(b, a, d, c);
    var whole := a + (":" + c);
    assert a == whole[..|a|] == b && c == whole[|a| + 1..] == d;
  }

  /** A line opens a span exactly when it is a begin, and closes one exactly when it is one of the four ends, of one of the
    * three kinds of event. */
  lemma SpanExactlyWhen(event: string, phase: string, ids: seq<Option<string>>)
    ensures var span := SpanOf(Record(Some(event), Some(phase), ids));
            && (span.Some? <==> event in ["command", "loop", "generation"]
                                && phase in ["begin", "end", "failed", "cancelled", "ended"])
            && (span.Some? ==> (span.value.open <==> phase == "begin"))
  {
  }

  /** Two spans have one key exactly when they are of one kind of event and name the same identifier, their first one
    * present, or both none. */
  lemma SameSpanExactlyWhen(a: Line, b: Line, id: string)
    requires SpanOf(a).Some? && SpanOf(b).Some? && Named(a.ids, id)
    ensures SpanOf(a).value.key == SpanOf(b).value.key <==> a.event == b.event && Named(b.ids, id)
  {
    FirstIdNames(a.ids, id);
    FirstIdNames(b.ids, id);
    var e, f := a.event.value, b.event.value;
    assert forall event :: event in SPAN_EVENTS ==> ':' !in event;
    assert SpanOf(a).value.key == e + (":" + FirstId(a.ids)) && SpanOf(b).value.key == f + (":" + FirstId(b.ids));
    if SpanOf(a).value.key == SpanOf(b).value.key {
      KeyParts(e, f, FirstId(a.ids), FirstId(b.ids));
    }
  }

  predicate Opens(lines: seq<Line>, i: int, key: string) {
    0 <= i < |lines| && SpanOf(lines[i]) == Some(Span(key, true))
  }

  predicate Closes(lines: seq<Line>, j: int, key: string) {
    0 <= j < |lines| && SpanOf(lines[j]) == Some(Span(key, false))
  }

  /** Line `j` closes the span line `i` opened: nothing closed that key in between. */
  ghost predicate Matches(lines: seq<Line>, key: string, i: int, j: int) {
    i < j && Opens(lines, i, key) && Closes(lines, j, key) && forall m :: i < m < j ==> !Closes(lines, m, key)
  }

  /** No kept close has a matching begin that was dropped. */
  ghost predicate Safe(lines: seq<Line>, cut: int) {
    forall key: string, i: int, j: int :: i < cut <= j ==> !Matches(lines, key, i, j)
  }

  /** Every key closes at most once from a line on. */
  ghost predicate ClosesOnce(lines: seq<Line>, from: int) {
    forall key: string, i: int, j: int :: from <= i < j ==> !(Closes(lines, i, key) && Closes(lines, j, key))
  }

  // ---------------------------------------------------------------- what the two scans compute

  /** Keys opened and not closed by the first `n` lines. */
  function OpenAt(lines: seq<Line>, n: nat): set<string>
    requires n <= |lines|
  {
    if n == 0 then {} else
      match SpanOf(lines[n - 1])
      case None => OpenAt(lines, n - 1)
      case Some(Span(key, open)) => if open then OpenAt(lines, n - 1) + {key} else OpenAt(lines, n - 1) - {key}
  }

  predicate ClosesOneOf(line: Line, keys: set<string>) {
    var span := SpanOf(line);
    span.Some? && !span.value.open && span.value.key in keys
  }

  /** One past the last line in [from, to) that closes one of the keys, or `from` when none does. */
  function PastLastClose(lines: seq<Line>, keys: set<string>, from: nat, to: nat): (past: nat)
    requires from <= to <= |lines|
    ensures from <= past <= to
    ensures past > from ==> ClosesOneOf(lines[past - 1], keys)
    ensures forall m :: past <= m < to ==> !ClosesOneOf(lines[m], keys)
  {
    if from == to then from
    else if ClosesOneOf(lines[to - 1], keys) then to
    else PastLastClose(lines, keys, from, to - 1)
  }

  /** The cut reached from a first cut by moving past every split span. */
  function CutFrom(lines: seq<Line>, cut: nat): (result: nat)
    requires cut <= |lines|
    ensures cut <= result <= |lines|
    decreases |lines| - cut
  {
    var past := PastLastClose(lines, OpenAt(lines, cut), cut, |lines|);
    if past == cut then cut else CutFrom(lines, past)
  }

  /** The first scan: keys opened and not closed before the cut. */
  method OpenBefore(lines: seq<Line>, cut: nat) returns (open: set<string>)
    requires cut <= |lines|
    ensures open == OpenAt(lines, cut)
  {
    open := {};
    for index := 0 to cut
      invariant open == OpenAt(lines, index)
    {
      var span := SpanOf(lines[index]);
      if span.Some? {
        open := if span.value.open then open + {span.value.key} else open - {span.value.key};
      }
    }
  }

  /** The second scan: one past the last close of such a key behind the cut, or -1. */
  method LastCloseOf(lines: seq<Line>, open: set<string>, cut: nat) returns (moved: int)
    requires cut <= |lines|
    ensures moved == -1 || cut < moved <= |lines|
    ensures PastLastClose(lines, open, cut, |lines|) == if moved == -1 then cut else moved
  {
    moved := -1;
    for index := cut to |lines|
      invariant moved == -1 || cut < moved <= index
      invariant PastLastClose(lines, open, cut, index) == if moved == -1 then cut else moved
    {
      var span := SpanOf(lines[index]);
      if span.Some? && !span.value.open && span.value.key in open {
        moved := index + 1;
      }
    }
  }

  method CompactCut(lines: seq<Line>, keep: nat) returns (cut: nat)
    ensures cut == CutFrom(lines, Max(0, |lines| - keep))
    ensures Max(0, |lines| - keep) <= cut <= |lines|
    ensures Safe(lines, cut)
  {
    cut := if |lines| < keep then 0 else |lines| - keep;
    ghost var base := cut;
    while true
      invariant base <= cut <= |lines|
      invariant CutFrom(lines, cut) == CutFrom(lines, base)
      decreases |lines| - cut
    {
      var open := OpenBefore(lines, cut);
      if open == {} {
        SafeWhenNoOpenKeyCloses(lines, cut);
        return;
      }
      var moved := LastCloseOf(lines, open, cut);
      if moved == -1 {
        SafeWhenNoOpenKeyCloses(lines, cut);
        return;
      }
      cut := moved;
    }
  }

  // ---------------------------------------------------------------- open keys and split spans

  /** Line `i` opened the key and no line between it and `n` closed it. */
  ghost predicate OpenSince(lines: seq<Line>, key: string, i: int, n: int) {
    0 <= i < n && Opens(lines, i, key) && forall m :: i < m < n ==> !Closes(lines, m, key)
  }

  /** An open key was opened by some line and not closed since. */
  lemma {:induction false} OpenHasBegin(lines: seq<Line>, n: nat, key: string) returns (i: int)
    requires n <= |lines| && key in OpenAt(lines, n)
    ensures OpenSince(lines, key, i, n)
  {
    if Opens(lines, n - 1, key) {
      i := n - 1;
    } else {
      i := OpenHasBegin(lines, n - 1, key);
      assert !Closes(lines, n - 1, key);
    }
  }

  /** And conversely, such a key is open. */
  lemma {:induction false} BeginStaysOpen(lines: seq<Line>, n: nat, key: string, i: int)
    requires n <= |lines| && OpenSince(lines, key, i, n)
    ensures key in OpenAt(lines, n)
  {
    if i < n - 1 {
      BeginStaysOpen(lines, n - 1, key, i);
      assert !Closes(lines, n - 1, key);
    }
  }

  lemma SafeWhenNoOpenKeyCloses(lines: seq<Line>, cut: nat)
    requires cut <= |lines|
    requires OpenAt(lines, cut) == {} || PastLastClose(lines, OpenAt(lines, cut), cut, |lines|) == cut
    ensures Safe(lines, cut)
    ensures CutFrom(lines, cut) == cut
  {
    forall key, i, j | i < cut <= j && Matches(lines, key, i, j)
      ensures false
    {
      BeginStaysOpen(lines, cut, key, i);
      assert ClosesOneOf(lines[j], OpenAt(lines, cut));
    }
  }

  /** A key open at the cut and closed behind it is a split span: the first such close lost its begin. */
  lemma {:induction false} SplitByOpenKey(lines: seq<Line>, cut: nat, key: string, i: int, j: int) returns (first: int)
    requires OpenSince(lines, key, i, cut) && cut <= j && Closes(lines, j, key)
    ensures cut <= first <= j && Matches(lines, key, i, first)
    decreases j
  {
    if m :| cut <= m < j && Closes(lines, m, key) {
      first := SplitByOpenKey(lines, cut, key, i, m);
    } else {
      first := j;
    }
  }

  // ---------------------------------------------------------------- main results

  /** A cut is left alone exactly when it splits no span. */
  lemma FixedExactlyWhenSafe(lines: seq<Line>, cut: nat)
    requires cut <= |lines|
    ensures CutFrom(lines, cut) == cut <==> Safe(lines, cut)
  {
    var open := OpenAt(lines, cut);
    var past := PastLastClose(lines, open, cut, |lines|);
    if past == cut {
      SafeWhenNoOpenKeyCloses(lines, cut);
    } else {
      var key := SpanOf(lines[past - 1]).value.key;
      var i := OpenHasBegin(lines, cut, key);
      var first := SplitByOpenKey(lines, cut, key, i, past - 1);
      assert !Safe(lines, cut);
    }
  }

  /** The cut chosen from any first cut splits no span. */
  lemma {:induction false} CutFromIsSafe(lines: seq<Line>, cut: nat)
    requires cut <= |lines|
    ensures Safe(lines, CutFrom(lines, cut))
    decreases |lines| - cut
  {
    var past := PastLastClose(lines, OpenAt(lines, cut), cut, |lines|);
    if past == cut {
      FixedExactlyWhenSafe(lines, cut);
    } else {
      CutFromIsSafe(lines, past);
    }
  }

  lemma CloseIsFirst(lines: seq<Line>, from: int, key: string, j: int)
    requires from <= j && ClosesOnce(lines, from) && Closes(lines, j, key)
    ensures forall m :: from <= m < j ==> !Closes(lines, m, key)
  {
  }

  /** One move never jumps over a safe cut when the keys it looks at close only once. */
  lemma MoveStaysBelowSafeCuts(lines: seq<Line>, cut: nat, other: int)
    requires cut <= other && cut <= |lines| && ClosesOnce(lines, cut) && Safe(lines, other)
    ensures PastLastClose(lines, OpenAt(lines, cut), cut, |lines|) <= other
  {
    var past := PastLastClose(lines, OpenAt(lines, cut), cut, |lines|);
    if other < past {
      var j := past - 1;
      var key := SpanOf(lines[j]).value.key;
      var i := OpenHasBegin(lines, cut, key);
      CloseIsFirst(lines, cut, key, j);
      assert Matches(lines, key, i, j);
    }
  }

  /** When no key closes twice behind the first cut, the chosen cut is the least one that splits no span. */
  lemma {:induction false} CutFromIsLeast(lines: seq<Line>, cut: nat, other: int)
    requires cut <= other && cut <= |lines| && ClosesOnce(lines, cut) && Safe(lines, other)
    ensures CutFrom(lines, cut) <= other
    decreases |lines| - cut
  {
    var past := PastLastClose(lines, OpenAt(lines, cut), cut, |lines|);
    MoveStaysBelowSafeCuts(lines, cut, other);
    if past != cut {
      CutFromIsLeast(lines, past, other);
    }
  }

  // ---------------------------------------------------------------- keys that close again

  /** The cuts tried on the way from a first cut. */
  function Tried(lines: seq<Line>, cut: nat): (cuts: seq<nat>)
    requires cut <= |lines|
    ensures forall i :: 0 <= i < |cuts| ==> cut <= cuts[i] <= |lines|
    decreases |lines| - cut
  {
    var past := PastLastClose(lines, OpenAt(lines, cut), cut, |lines|);
    [cut] + if past == cut then [] else Tried(lines, past)
  }

  /** Some key open at this cut closes at or behind the other one. */
  ghost predicate JumpsOver(lines: seq<Line>, cut: nat, other: int)
    requires cut <= |lines|
  {
    cut <= other && exists j, key :: other <= j && Closes(lines, j, key) && key in OpenAt(lines, cut)
  }

  lemma JumpMeans(lines: seq<Line>, cut: nat, other: int)
    requires cut <= |lines| && cut <= other
    ensures JumpsOver(lines, cut, other) <==> other < PastLastClose(lines, OpenAt(lines, cut), cut, |lines|)
  {
    var open := OpenAt(lines, cut);
    var past := PastLastClose(lines, open, cut, |lines|);
    if other < past {
      assert Closes(lines, past - 1, SpanOf(lines[past - 1]).value.key);
    }
    if JumpsOver(lines, cut, other) {
      var j, key :| other <= j && Closes(lines, j, key) && key in open;
      assert ClosesOneOf(lines[j], open);
    }
  }

  /** A cut that would split nothing is missed exactly when some cut tried before it has a key open that closes behind it:
    * never for keys that close once, and always for a span open at the first cut whose key is used again across it. */
  lemma {:induction false} OvershootsExactlyWhen(lines: seq<Line>, cut: nat, other: int)
    requires cut <= other && cut <= |lines| && Safe(lines, other)
    ensures other < CutFrom(lines, cut)
            <==> exists i :: 0 <= i < |Tried(lines, cut)| && JumpsOver(lines, Tried(lines, cut)[i], other)
    decreases |lines| - cut
  {
    var past := PastLastClose(lines, OpenAt(lines, cut), cut, |lines|);
    JumpMeans(lines, cut, other);
    assert Tried(lines, cut)[0] == cut;
    if past == cut {
      assert Tried(lines, cut) == [cut];
    } else if past <= other {
      OvershootsExactlyWhen(lines, past, other);
      var rest := Tried(lines, past);
      assert Tried(lines, cut) == [cut] + rest;
      if i :| 0 <= i < |rest| && JumpsOver(lines, rest[i], other) {
        assert Tried(lines, cut)[i + 1] == rest[i];
      }
    }
  }

  /** A key open at the first cut, closed before a cut that splits nothing and closed again behind it, is enough. */
  lemma ReusedKeyOvershoots(lines: seq<Line>, cut: nat, key: string, i: int, first: int, other: int, second: int)
    requires cut <= |lines| && OpenSince(lines, key, i, cut) && cut <= first < other <= second
    requires Closes(lines, first, key) && Closes(lines, second, key) && Safe(lines, other)
    ensures other <= second < CutFrom(lines, cut) && !ClosesOnce(lines, cut)
  {
    BeginStaysOpen(lines, cut, key, i);
    assert JumpsOver(lines, cut, second);
    JumpMeans(lines, cut, second);
  }

  /** The result is at least length - keep, never at most: it is more exactly when a span is split there, and then behind
    * the close of every split span. */
  lemma CutExceedsTheBaseExactlyWhen(lines: seq<Line>, cut: nat)
    requires cut <= |lines|
    ensures CutFrom(lines, cut) > cut <==> exists key, i, j :: i < cut <= j && Matches(lines, key, i, j)
    ensures forall key, i, j :: i < cut <= j && Matches(lines, key, i, j) ==> CutFrom(lines, cut) > j
  {
    FixedExactlyWhenSafe(lines, cut);
    forall key, i, j | i < cut <= j && Matches(lines, key, i, j)
      ensures CutFrom(lines, cut) > j
    {
      BeginStaysOpen(lines, cut, key, i);
      assert JumpsOver(lines, cut, j);
      JumpMeans(lines, cut, j);
    }
  }

  const Begun := Record(Some("generation"), Some("begin"), [])
  const Ended := Record(Some("generation"), Some("ended"), [])

  lemma GenerationSpans()
    ensures SpanOf(Begun) == Some(Span("generation:", true)) && SpanOf(Ended) == Some(Span("generation:", false))
  {
    assert "generation" + ":" + "" == "generation:";
  }

  /** Such a trace: cutting [begin, ended, begin, ended] after its first line drops everything, although keeping the second
    * generation would split nothing. */
  lemma ReusedGenerationIsDropped()
    ensures var lines := [Begun, Ended, Begun, Ended]; CutFrom(lines, 1) == 4 && Safe(lines, 2)
  {
    var lines, key := [Begun, Ended, Begun, Ended], "generation:";
    GenerationSpans();
    assert OpenAt(lines, 0) == {} && OpenAt(lines, 1) == {key};
    assert OpenAt(lines, 2) == {};
    FixedExactlyWhenSafe(lines, 2);
    assert Opens(lines, 0, key) && Closes(lines, 1, key) && Closes(lines, 3, key);
    ReusedKeyOvershoots(lines, 1, key, 0, 1, 2, 3);
  }
}
