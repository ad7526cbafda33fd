/** The chunk-to-line splitter one child process pipe is read through (src/shell/runner.ts).
  *
  * A pipe delivers text cut anywhere; the reader must see the same lines however it was cut. */
module LineSplitter {
  import opened Collections

  const MAX_LINE_CHARS: nat := 8 * 1024
  const ELLIPSIS: char := '\U{2026}'

  // ---------------------------------------------------------------- what a whole text means

  /** The line without the one carriage return that may precede its newline. */
  function StripCr(line: string): string {
    if line != [] && line[|line| - 1] == '\r' then line[..|line| - 1] else line
  }

  function Head(line: string): string
    requires |line| > MAX_LINE_CHARS
  {
    line[..MAX_LINE_CHARS] + [ELLIPSIS]
  }

  /** How a newline-terminated line is shown: one CR stripped, then truncated to the budget. */
  function Shown(line: string): string {
    var clean := StripCr(line);
    if |clean| > MAX_LINE_CHARS then Head(clean) else clean
  }

  /** A line is shown without the one carriage return at its end, and its first 8192 characters with an ellipsis behind
    * them when there are more. */
  lemma ShownMeans(line: string)
    ensures var n := if line != [] && line[|line| - 1] == '\r' then |line| - 1 else |line|;
            if n <= 8192 then Shown(line) == line[..n]
            else |Shown(line)| == 8193 && Shown(line)[..8192] == line[..8192] && Shown(line)[8192] == '\U{2026}'
    ensures |line| > 8192 ==> |Head(line)| == 8193 && Head(line)[..8192] == line[..8192] && Head(line)[8192] == '\U{2026}'
  {
    var clean := StripCr(line);
    if |clean| > 8192 {
      assert clean[..8192] == line[..8192];
    }
  }

  /** What follows the last newline. */
  function Rest(text: string): string {
    if text == [] then []
    else
      var c := text[|text| - 1];
      if c == '\n' then [] else Rest(text[..|text| - 1]) + [c]
  }

  /** The shown form of every newline-terminated line of a text. */
  function Terminated(text: string): seq<string> {
    if text == [] then []
    else
      var front := text[..|text| - 1];
      if text[|text| - 1] == '\n' then Terminated(front) + [Shown(Rest(front))] else Terminated(front)
  }

  /** The lines a reader should see for a whole text. The text behind the last newline is a line too, when
    * there is any; it is truncated before its CR is looked at, because nothing says it is complete. */
  function Reference(text: string): seq<string> {
    var rest := Rest(text);
    Terminated(text)
    + if rest == [] then [] else if |rest| > MAX_LINE_CHARS then [Head(rest)] else [StripCr(rest)]
  }

  /** A line one character over the budget whose last character is the stripped CR. */
  predicate Offends(line: string) {
    |line| == MAX_LINE_CHARS + 1 && line[MAX_LINE_CHARS] == '\r'
  }

  /** Some terminated line is such a line. */
  predicate CrAtBudget(text: string) {
    text != []
    && var front := text[..|text| - 1];
       CrAtBudget(front) || (text[|text| - 1] == '\n' && Offends(Rest(front)))
  }

  // ---------------------------------------------------------------- the splitter's state

  /** One stream's carry, whether the rest of its line is being dropped, and the lines handed out. */
  datatype Splitter = Splitter(carry: string, discarding: bool, lines: seq<string>)

  const Fresh := Splitter([], false, [])

  /** Index of the first newline at or after `from`, or the length when there is none. */
  function NextNewline(text: string, from: nat): (i: nat)
    requires from <= |text|
    ensures from <= i <= |text|
    ensures forall k :: from <= k < i ==> text[k] != '\n'
    ensures i < |text| ==> text[i] == '\n'
    decreases |text| - from
  {
    if from == |text| || text[from] == '\n' then from else NextNewline(text, from + 1)
  }

  function Emit(s: Splitter, line: string): Splitter {
    if s.discarding then s.(discarding := false) else s.(lines := s.lines + [Shown(line)])
  }

  /** Hand out every complete line of the carry. */
  function Drain(s: Splitter): Splitter
    decreases |s.carry|
  {
    var i := NextNewline(s.carry, 0);
    if i == |s.carry| then s else Drain(Emit(s, s.carry[..i]).(carry := s.carry[i + 1..]))
  }

  /** A carry over the budget is shown once, truncated, and the rest of its line dropped. */
  function Overflow(s: Splitter): Splitter {
    if |s.carry| <= MAX_LINE_CHARS then s
    else if s.discarding then s.(carry := [])
    else Splitter([], true, s.lines + [Head(s.carry)])
  }

  function Feed(s: Splitter, chunk: string): Splitter {
    Overflow(Drain(s.(carry := s.carry + chunk)))
  }

  function Flush(s: Splitter): Splitter {
    if s.carry == [] then s else Emit(s, s.carry).(carry := [])
  }

  /** Finishing again emits nothing more. */
  lemma FinishedOnce(s: Splitter)
    ensures Flush(Flush(s)) == Flush(s) && Flush(s).carry == []
  {
  }

  function FeedAll(chunks: seq<string>): Splitter {
    if chunks == [] then Fresh else Feed(FeedAll(chunks[..|chunks| - 1]), chunks[|chunks| - 1])
  }

  /** The lines a finished stream handed out. */
  function Run(chunks: seq<string>): seq<string> {
    Flush(FeedAll(chunks)).lines
  }

  // ---------------------------------------------------------------- the imperative splitter

  class Stream {
    var carry: string
    var discarding: bool
    var lines: seq<string>

    constructor ()
      ensures State() == Fresh
    {
      carry, discarding, lines := [], false, [];
    }

    ghost function State(): Splitter
      reads this
    {
      Splitter(carry, discarding, lines)
    }

    method EmitLine(line: string)
      modifies this
      ensures State() == Emit(old(State()), line)
    {
      if discarding {
        discarding := false;
        return;
      }
      var clean := if line != [] && line[|line| - 1] == '\r' then line[..|line| - 1] else line;
      lines := lines + [if |clean| > MAX_LINE_CHARS then clean[..MAX_LINE_CHARS] + [ELLIPSIS] else clean];
    }

    method FeedChunk(chunk: string)
      modifies this
      ensures State() == Feed(old(State()), chunk)
      ensures |carry| <= MAX_LINE_CHARS
    {
      carry := carry + chunk;
      ghost var joined := State();
      while true
        invariant Drain(State()) == Drain(joined)
        decreases |carry|
      {
        var newline := NextNewline(carry, 0);
        if newline == |carry| {
          break;
        }
        var line := carry[..newline];
        carry := carry[newline + 1..];
        EmitLine(line);
      }
      if |carry| > MAX_LINE_CHARS {
        if !discarding {
          lines := lines + [carry[..MAX_LINE_CHARS] + [ELLIPSIS]];
          discarding := true;
        }
        carry := [];
      }
    }

    method Finish()
      modifies this
      ensures State() == Flush(old(State()))
    {
      if carry != [] {
        EmitLine(carry);
      }
      carry := [];
    }
  }

  /** Read a whole stream delivered in the given chunks. */
  method ReadAll(chunks: seq<string>) returns (lines: seq<string>)
    ensures lines == Run(chunks)
    ensures !CrAtBudget(Concat(chunks)) ==> lines == Reference(Concat(chunks))
  {
    var stream := new Stream();
    for k := 0 to |chunks|
      invariant stream.State() == FeedAll(chunks[..k])
    {
      stream.FeedChunk(chunks[k]);
      assert chunks[..k + 1][..k] == chunks[..k];
    }
    assert chunks[..|chunks|] == chunks;
    stream.Finish();
    lines := stream.lines;
    if !CrAtBudget(Concat(chunks)) {
      RunIsReference(chunks);
    }
  }

  // ---------------------------------------------------------------- how terminated lines compose

  predicate OneLine(text: string) {
    '\n' !in text
  }

  lemma {:induction false} RestIsOneLine(text: string)
    ensures OneLine(Rest(text))
  {
    if text != [] {
      RestIsOneLine(text[..|text| - 1]);
    }
  }

  lemma {:induction false} OneLineIsRest(text: string)
    requires OneLine(text)
    ensures Rest(text) == text && Terminated(text) == [] && !CrAtBudget(text)
  {
    if text != [] {
      OneLineIsRest(text[..|text| - 1]);
    }
  }

  lemma Snoc(text: string, c: char)
    ensures Rest(text + [c]) == if c == '\n' then [] else Rest(text) + [c]
    ensures Terminated(text + [c]) == if c == '\n' then Terminated(text) + [Shown(Rest(text))] else Terminated(text)
    ensures CrAtBudget(text + [c]) == (CrAtBudget(text) || (c == '\n' && Offends(Rest(text))))
  {
    assert (text + [c])[..|text|] == text;
  }

  /** What cutting at the end of `a` gives survives one more character on both sides of the equation. */
  lemma SnocBoth(whole: string, a: string, left: string, c: char)
    requires Terminated(whole) == Terminated(a) + Terminated(left)
    requires Rest(whole) == Rest(left)
    requires CrAtBudget(whole) == (CrAtBudget(a) || CrAtBudget(left))
    ensures Terminated(whole + [c]) == Terminated(a) + Terminated(left + [c])
    ensures Rest(whole + [c]) == Rest(left + [c])
    ensures CrAtBudget(whole + [c]) == (CrAtBudget(a) || CrAtBudget(left + [c]))
  {
    Snoc(whole, c);
    Snoc(left, c);
  }

  lemma NothingAdded(a: string)
    ensures Terminated(a) == Terminated(a) + Terminated(Rest(a)) && Rest(a) == Rest(Rest(a)) && !CrAtBudget(Rest(a))
  {
    RestIsOneLine(a);
    OneLineIsRest(Rest(a));
  }

  /** Cutting a text anywhere: the lines of the front, then the lines of what was left over plus the back. */
  lemma {:induction false} TerminatedOfConcat(a: string, b: string)
    ensures Terminated(a + b) == Terminated(a) + Terminated(Rest(a) + b)
    ensures Rest(a + b) == Rest(Rest(a) + b)
    ensures CrAtBudget(a + b) == (CrAtBudget(a) || CrAtBudget(Rest(a) + b))
  {
    if b == [] {
      assert a + b == a && Rest(a) + b == Rest(a);
      NothingAdded(a);
    } else {
      var front, c := b[..|b| - 1], b[|b| - 1];
      TerminatedOfConcat(a, front);
      Regroup(a, front, [c], b);
      Regroup(Rest(a), front, [c], b);
      SnocBoth(a + front, a, Rest(a) + front, c);
    }
  }

  /** The same with a line and its newline in front. */
  lemma FirstLine(line: string, back: string)
    requires OneLine(line)
    ensures Terminated((line + ['\n']) + back) == [Shown(line)] + Terminated(back)
    ensures Rest((line + ['\n']) + back) == Rest(back)
    ensures CrAtBudget((line + ['\n']) + back) == (Offends(line) || CrAtBudget(back))
  {
    var ended := line + ['\n'];
    assert Terminated(ended) == [Shown(line)] && Rest(ended) == [] && CrAtBudget(ended) == Offends(line) by {
      OneLineIsRest(line);
      Snoc(line, '\n');
    }
    TerminatedOfConcat(ended, back);
    assert [] + back == back;
  }

  lemma SplitAtNewline(text: string, i: nat)
    requires i < |text| && OneLine(text[..i]) && text[i] == '\n'
    ensures Terminated(text) == [Shown(text[..i])] + Terminated(text[i + 1..])
    ensures Rest(text) == Rest(text[i + 1..])
    ensures CrAtBudget(text) == (Offends(text[..i]) || CrAtBudget(text[i + 1..]))
  {
    var line, back := text[..i], text[i + 1..];
    assert text == (line + ['\n']) + back;
    FirstLine(line, back);
  }

  /** While nothing is being dropped, draining hands out exactly the terminated lines. */
  lemma {:induction false} DrainKeeping(s: Splitter)
    requires !s.discarding
    ensures Drain(s) == Splitter(Rest(s.carry), false, s.lines + Terminated(s.carry))
    decreases |s.carry|
  {
    var i := NextNewline(s.carry, 0);
    if i == |s.carry| {
      OneLineIsRest(s.carry);
    } else {
      var next := Emit(s, s.carry[..i]).(carry := s.carry[i + 1..]);
      DrainKeeping(next);
      SplitAtNewline(s.carry, i);
      var shown := [Shown(s.carry[..i])];
      Regroup(s.lines, shown, Terminated(next.carry), shown + Terminated(next.carry));
    }
  }

  lemma NewlineIs(text: string, i: nat)
    requires i < |text| && OneLine(text[..i]) && text[i] == '\n'
    ensures NextNewline(text, 0) == i
  {
    assert forall k :: 0 <= k < i ==> text[k] == text[..i][k];
  }

  /** Draining across the end of a dropped line swallows that line only. */
  lemma DrainDiscarding(s: Splitter, i: nat)
    requires s.discarding && i < |s.carry| && OneLine(s.carry[..i]) && s.carry[i] == '\n'
    ensures Drain(s) == Splitter(Rest(s.carry[i + 1..]), false, s.lines + Terminated(s.carry[i + 1..]))
  {
    NewlineIs(s.carry, i);
    DrainKeeping(Splitter(s.carry[i + 1..], false, s.lines));
  }

  lemma DrainOneLine(s: Splitter)
    requires OneLine(s.carry)
    ensures Drain(s) == s
  {
  }

  /** The state after some chunks describes the text they make, whatever the cuts were. */
  ghost predicate Tracks(s: Splitter, text: string) {
    && |s.carry| <= MAX_LINE_CHARS
    && OneLine(s.carry)
    && if s.discarding
       then |Rest(text)| > MAX_LINE_CHARS && s.lines == Terminated(text) + [Head(Rest(text))]
       else s.carry == Rest(text) && s.lines == Terminated(text)
  }

  lemma OverflowTracks(s: Splitter, text: string)
    requires s == Splitter(Rest(text), false, Terminated(text))
    ensures Tracks(Overflow(s), text)
  {
    RestIsOneLine(text);
  }

  /** A line longer than the budget is shown by its head, unless the strip brings it back to the budget. */
  lemma LongLineShown(head: string, line: string)
    requires |head| > MAX_LINE_CHARS && head <= line && !Offends(line)
    ensures Shown(line) == Head(head)
  {
    assert line[..MAX_LINE_CHARS] == head[..MAX_LINE_CHARS];
    assert StripCr(line)[..MAX_LINE_CHARS] == line[..MAX_LINE_CHARS];
  }

  /** One more chunk, while the rest of an over-long line is being dropped and the chunk does not end it. */
  lemma FeedWithinDropped(s: Splitter, text: string, chunk: string)
    requires Tracks(s, text) && s.discarding && OneLine(chunk)
    ensures Tracks(Feed(s, chunk), text + chunk)
  {
    TerminatedOfConcat(text, chunk);
    RestIsOneLine(text);
    OneLineIsRest(Rest(text) + chunk);
    DrainOneLine(s.(carry := s.carry + chunk));
    assert Terminated(text) + [] == Terminated(text);
    assert Head(Rest(text) + chunk) == Head(Rest(text));
  }

  lemma SplitLine(chunk: string, i: nat)
    requires i < |chunk| && chunk[i] == '\n'
    ensures chunk == (chunk[..i] + ['\n']) + chunk[i + 1..]
  {
  }

  /** One more chunk, which ends the line being dropped with `tail` and goes on with `back`. */
  lemma FeedEndsDropped(s: Splitter, text: string, chunk: string, tail: string, back: string)
    requires chunk == (tail + ['\n']) + back
    requires Tracks(s, text) && s.discarding && OneLine(tail) && !CrAtBudget(text + chunk)
    ensures Tracks(Feed(s, chunk), text + chunk)
  {
    var rest := Rest(text);
    RestIsOneLine(text);
    TerminatedOfConcat(text, chunk);
    Regroup(rest, tail + ['\n'], back, chunk);
    Regroup(rest, tail, ['\n'], tail + ['\n']);
    FirstLine(rest + tail, back);
    LongLineShown(rest, rest + tail);
    Regroup(Terminated(text), [Head(rest)], Terminated(back), [Head(rest)] + Terminated(back));
    DrainEndsDropped(s, tail, back);
    OverflowTracks(Drain(s.(carry := s.carry + chunk)), text + chunk);
  }

  lemma DrainEndsDropped(s: Splitter, tail: string, back: string)
    requires s.discarding && OneLine(s.carry) && OneLine(tail)
    ensures Drain(s.(carry := s.carry + ((tail + ['\n']) + back))) == Splitter(Rest(back), false, s.lines + Terminated(back))
  {
    var joined := s.carry + ((tail + ['\n']) + back);
    var i := |s.carry| + |tail|;
    assert joined == ((s.carry + tail) + ['\n']) + back;
    assert joined[..i] == s.carry + tail && joined[i + 1..] == back;
    DrainDiscarding(s.(carry := joined), i);
  }

  /** One more chunk, in the state that still holds its whole line. */
  lemma FeedKeeping(s: Splitter, text: string, chunk: string)
    requires Tracks(s, text) && !s.discarding
    ensures Tracks(Feed(s, chunk), text + chunk)
  {
    TerminatedOfConcat(text, chunk);
    DrainKeeping(s.(carry := s.carry + chunk));
    OverflowTracks(Drain(s.(carry := s.carry + chunk)), text + chunk);
  }

  /** One more chunk, in the state that drops the rest of its line. */
  lemma FeedDropped(s: Splitter, text: string, chunk: string)
    requires Tracks(s, text) && s.discarding && !CrAtBudget(text + chunk)
    ensures Tracks(Feed(s, chunk), text + chunk)
  {
    var i := NextNewline(chunk, 0);
    if i == |chunk| {
      FeedWithinDropped(s, text, chunk);
    } else {
      SplitLine(chunk, i);
      FeedEndsDropped(s, text, chunk, chunk[..i], chunk[i + 1..]);
    }
  }

  lemma FeedTracks(s: Splitter, text: string, chunk: string)
    requires Tracks(s, text) && !CrAtBudget(text + chunk)
    ensures Tracks(Feed(s, chunk), text + chunk)
  {
    if s.discarding {
      FeedDropped(s, text, chunk);
    } else {
      FeedKeeping(s, text, chunk);
    }
  }

  lemma {:induction false} FeedAllTracks(chunks: seq<string>)
    requires !CrAtBudget(Concat(chunks))
    ensures Tracks(FeedAll(chunks), Concat(chunks))
  {
    if chunks != [] {
      var front, chunk := chunks[..|chunks| - 1], chunks[|chunks| - 1];
      TerminatedOfConcat(Concat(front), chunk);
      FeedAllTracks(front);
      FeedTracks(FeedAll(front), Concat(front), chunk);
    }
  }

  // ---------------------------------------------------------------- main results

  /** Chunking independence: however the text was cut, the reader sees the reference lines. */
  lemma RunIsReference(chunks: seq<string>)
    requires !CrAtBudget(Concat(chunks))
    ensures Run(chunks) == Reference(Concat(chunks))
  {
    FeedAllTracks(chunks);
    var s := FeedAll(chunks);
    if !s.discarding && s.carry != [] {
      assert Shown(s.carry) == StripCr(s.carry);
    }
  }

  /** After any feed the carry is within the budget, whatever was fed. */
  lemma {:induction false} CarryWithinBudget(chunks: seq<string>)
    ensures |FeedAll(chunks).carry| <= MAX_LINE_CHARS
  {
    if chunks != [] {
      CarryWithinBudget(chunks[..|chunks| - 1]);
    }
  }

  /** Lines handed out are never taken back. */
  lemma {:induction false} DrainExtends(s: Splitter)
    ensures s.lines <= Drain(s).lines
    decreases |s.carry|
  {
    var i := NextNewline(s.carry, 0);
    if i < |s.carry| {
      var next := Emit(s, s.carry[..i]).(carry := s.carry[i + 1..]);
      DrainExtends(next);
      assert Drain(s) == Drain(next);
    }
  }

  /** The position of the newline that ends the first offending line. */
  lemma {:induction false} FirstOffender(text: string) returns (p: nat)
    requires CrAtBudget(text)
    ensures p < |text| && text[p] == '\n' && !CrAtBudget(text[..p]) && Offends(Rest(text[..p]))
  {
    var front := text[..|text| - 1];
    if CrAtBudget(front) {
      p := FirstOffender(front);
      assert front[..p] == text[..p];
    } else {
      p := |front|;
    }
  }

  /** The reference shows an offending line whole, not truncated. */
  lemma ReferenceShowsOffender(a: string, b: string)
    requires Offends(Rest(a)) && b != [] && b[0] == '\n'
    ensures |Terminated(a)| < |Reference(a + b)|
    ensures |Reference(a + b)[|Terminated(a)|]| == MAX_LINE_CHARS
  {
    var whole := Rest(a) + b;
    TerminatedOfConcat(a, b);
    RestIsOneLine(a);
    assert whole[..|Rest(a)|] == Rest(a);
    SplitAtNewline(whole, |Rest(a)|);
    assert Reference(a + b)[|Terminated(a)|] == Shown(Rest(a));
  }

  /** A splitter that meets the same line with nothing behind it shows its truncated head. */
  lemma RunShowsHead(a: string, b: string)
    requires !CrAtBudget(a) && Offends(Rest(a))
    ensures |Terminated(a)| < |Run([a, b])|
    ensures |Run([a, b])[|Terminated(a)|]| == MAX_LINE_CHARS + 1
  {
    assert [a, b][..1] == [a] && [a][..0] == [];
    assert Concat([a]) == a;
    FeedAllTracks([a]);
    var s := FeedAll([a]);
    DrainExtends(s.(carry := s.carry + b));
    assert FeedAll([a, b]) == Feed(s, b);
    assert s.lines <= Run([a, b]);
    assert s.lines[|Terminated(a)|] == Head(Rest(a));
  }

  /** A text with such a line has a cut that changes what the reader sees: right before its newline. */
  lemma CutBeforeNewlineDiffers(text: string) returns (p: nat)
    requires CrAtBudget(text)
    ensures p < |text|
    ensures Concat([text[..p], text[p..]]) == text
    ensures Run([text[..p], text[p..]]) != Reference(text)
  {
    p := FirstOffender(text);
    var a, b := text[..p], text[p..];
    assert [a, b][..1] == [a] && [a][..0] == [];
    assert Concat([a]) == a;
    assert a + b == text;
    ReferenceShowsOffender(a, b);
    RunShowsHead(a, b);
  }

  /** Exactly when every way of cutting a text gives the reference lines. */
  lemma ChunkingIndependence(text: string)
    ensures (forall chunks: seq<string> :: Concat(chunks) == text ==> Run(chunks) == Reference(text)) <==> !CrAtBudget(text)
  {
    if CrAtBudget(text) {
      var p := CutBeforeNewlineDiffers(text);
      var chunks := [text[..p], text[p..]];
      assert Concat(chunks) == text && Run(chunks) != Reference(text);
    } else {
      forall chunks: seq<string> | Concat(chunks) == text
        ensures Run(chunks) == Reference(text)
      {
        RunIsReference(chunks);
      }
    }
  }
}
