/** Reading a verdict out of a reply: the escape repair and the string-aware brace scanner
  * (src/controller/loop-contract.ts). JSON itself is a parameter: `parse` gives the object a text denotes. */
module JsonEscapes {
  import opened Collections

  // ---------------------------------------------------------------- escapes, section 7 of RFC 8259

  const BACKSLASH: char := '\\'

  predicate IsHex(c: char) {
    '0' <= c <= '9' || 'a' <= c <= 'f' || 'A' <= c <= 'F'
  }

  /** The digits of section 7 of RFC 8259, in either case. */
  lemma HexDigits(c: char)
    ensures IsHex(c) <==> c in "0123456789abcdefABCDEF"
  {
    var digits := "0123456789abcdefABCDEF";
    if IsHex(c) {
      var k := if c <= '9' then c as int - '0' as int else if c <= 'F' then 16 + (c as int - 'A' as int)
               else 10 + (c as int - 'a' as int);
      assert digits[k] == c;
    }
  }

  predicate FourHex(text: string) {
    |text| >= 4 && IsHex(text[0]) && IsHex(text[1]) && IsHex(text[2]) && IsHex(text[3])
  }

  predicate SimpleEscape(c: char) {
    c == '"' || c == BACKSLASH || c == '/' || c == 'b' || c == 'f' || c == 'n' || c == 'r' || c == 't'
  }

  /** What follows a backslash starts with the rest of an escape JSON defines. */
  predicate EscapeTail(tail: string) {
    tail != [] && (SimpleEscape(tail[0]) || (tail[0] == 'u' && FourHex(tail[1..])))
  }

  /** Every backslash starts an escape that JSON defines. */
  predicate WellEscaped(text: string)
    decreases |text|
  {
    if text == [] then true
    else if text[0] != BACKSLASH then WellEscaped(text[1..])
    else EscapeTail(text[1..]) && WellEscaped(text[2..])
  }

  function Repair(text: string): string
    decreases |text|
  {
    if text == [] then []
    else if text[0] != BACKSLASH then [text[0]] + Repair(text[1..])
    else if |text| == 1 then [BACKSLASH, BACKSLASH]
    else if EscapeTail(text[1..]) then [BACKSLASH, text[1]] + Repair(text[2..])
    else [BACKSLASH, BACKSLASH, text[1]] + Repair(text[2..])
  }

  method RepairJsonEscapes(text: string) returns (out: string)
    ensures out == Repair(text)
    ensures WellEscaped(out)
  {
    out := [];
    var index := 0;
    while index < |text|
      invariant index <= |text|
      invariant out + Repair(text[index..]) == Repair(text)
    {
      var c := text[index];
      ghost var before, left := out, text[index..];
      if c != BACKSLASH {
        out := out + [c];
        Regroup(before, [c], Repair(left[1..]), Repair(left));
        index := index + 1;
      } else if index + 1 == |text| {
        out := out + [BACKSLASH, BACKSLASH];
        index := index + 1;
        assert text[index..] == [];
      } else {
        var next := text[index + 1];
        var valid := EscapeTail(text[index + 1..]);
        assert left[1..] == text[index + 1..] && left[2..] == text[index + 2..];
        var piece := if valid then [c, next] else [BACKSLASH, BACKSLASH, next];
        out := out + piece;
        Regroup(before, piece, Repair(left[2..]), Repair(left));
        index := index + 2;
      }
      assert left[1..] == text[|text| - |left| + 1..];
    }
    assert text[index..] == [];
    RepairedIsWellEscaped(text);
  }

  lemma {:induction false} RepairKeepsHex(text: string)
    requires FourHex(text)
    ensures FourHex(Repair(text))
  {
    var a, b, c, d := text[1..], text[2..], text[3..], text[4..];
    assert a[1..] == b && b[1..] == c && c[1..] == d;
    assert Repair(text) == [text[0]] + Repair(a);
    assert Repair(a) == [text[1]] + Repair(b);
    assert Repair(b) == [text[2]] + Repair(c);
    assert Repair(c) == [text[3]] + Repair(d);
  }

  lemma PieceWellEscaped(a: char, b: char, rest: string)
    requires EscapeTail([b] + rest) && a == BACKSLASH && WellEscaped(rest)
    ensures WellEscaped([a, b] + rest)
  {
    var whole := [a, b] + rest;
    assert whole[1..] == [b] + rest && whole[2..] == rest;
  }

  /** Repairing always gives a text whose every backslash starts a defined escape. */
  lemma {:induction false} RepairedIsWellEscaped(text: string)
    ensures WellEscaped(Repair(text))
    decreases |text|
  {
    if text == [] {
    } else if text[0] != BACKSLASH {
      RepairedIsWellEscaped(text[1..]);
      assert Repair(text)[1..] == Repair(text[1..]);
    } else if |text| == 1 {
      PieceWellEscaped(BACKSLASH, BACKSLASH, []);
      assert [BACKSLASH, BACKSLASH] + [] == Repair(text);
    } else {
      var rest := Repair(text[2..]);
      RepairedIsWellEscaped(text[2..]);
      if EscapeTail(text[1..]) {
        assert text[1..][1..] == text[2..];
        if !SimpleEscape(text[1]) {
          RepairKeepsHex(text[2..]);
        }
        assert ([text[1]] + rest)[1..] == rest;
        PieceWellEscaped(BACKSLASH, text[1], rest);
      } else {
        assert ([text[1]] + rest)[1..] == rest;
        PieceWellEscaped(BACKSLASH, BACKSLASH, [text[1]] + rest);
        assert Repair(text) == [BACKSLASH, BACKSLASH] + ([text[1]] + rest);
      }
    }
  }

  /** Repair leaves a text alone exactly when its escapes are already all defined. */
  lemma {:induction false} RepairIsIdentityExactlyWhenWellEscaped(text: string)
    ensures Repair(text) == text <==> WellEscaped(text)
    decreases |text|
  {
    RepairedIsWellEscaped(text);
    if WellEscaped(text) && text != [] {
      if text[0] != BACKSLASH {
        RepairIsIdentityExactlyWhenWellEscaped(text[1..]);
      } else {
        RepairIsIdentityExactlyWhenWellEscaped(text[2..]);
        assert text == [BACKSLASH, text[1]] + text[2..];
      }
    }
  }

  lemma RepairIsIdempotent(text: string)
    ensures Repair(Repair(text)) == Repair(text)
  {
    RepairedIsWellEscaped(text);
    RepairIsIdentityExactlyWhenWellEscaped(Repair(text));
  }

  // ---------------------------------------------------------------- what a text reads as

  /** A character of the text that is read, however it is written: itself, a short escape, or a code point in hex. */
  datatype Unit = Char(c: char) | Short(c: char) | Code(hex: string)

  /** What the inside of a literal reads as; a backslash that starts no defined escape stands for itself. */
  function Reading(text: string): seq<Unit>
    decreases |text|
  {
    if text == [] then []
    else if text[0] != BACKSLASH || !EscapeTail(text[1..]) then [Char(text[0])] + Reading(text[1..])
    else if text[1] == BACKSLASH then [Char(BACKSLASH)] + Reading(text[2..])
    else if text[1] == 'u' then [Code(text[2..6])] + Reading(text[6..])
    else [Short(text[1])] + Reading(text[2..])
  }

  lemma ReadPlain(c: char, rest: string)
    requires c != BACKSLASH
    ensures Reading([c] + rest) == [Char(c)] + Reading(rest)
  {
    assert ([c] + rest)[1..] == rest;
  }

  lemma ReadDoubled(rest: string)
    ensures Reading([BACKSLASH, BACKSLASH] + rest) == [Char(BACKSLASH)] + Reading(rest)
  {
    var text := [BACKSLASH, BACKSLASH] + rest;
    assert text[1..] == [BACKSLASH] + rest && text[2..] == rest;
  }

  lemma ReadShort(c: char, rest: string)
    requires SimpleEscape(c) && c != BACKSLASH
    ensures Reading([BACKSLASH, c] + rest) == [Short(c)] + Reading(rest)
  {
    var text := [BACKSLASH, c] + rest;
    assert text[1..] == [c] + rest && text[2..] == rest;
  }

  lemma ReadCode(hex: string, rest: string)
    requires |hex| == 4 && FourHex(hex)
    ensures Reading([BACKSLASH, 'u'] + (hex + rest)) == [Code(hex)] + Reading(rest)
  {
    var text := [BACKSLASH, 'u'] + (hex + rest);
    assert text[1..] == ['u'] + (hex + rest) && text[1..][1..] == hex + rest;
    assert text[2..6] == hex && text[6..] == rest;
  }

  lemma RepairOfHex(text: string)
    requires FourHex(text)
    ensures Repair(text) == text[..4] + Repair(text[4..])
  {
    var a, b, c, d := text[1..], text[2..], text[3..], text[4..];
    assert a[1..] == b && b[1..] == c && c[1..] == d;
    assert Repair(text) == [text[0]] + Repair(a) && Repair(a) == [text[1]] + Repair(b);
    assert Repair(b) == [text[2]] + Repair(c) && Repair(c) == [text[3]] + Repair(d);
    assert text[..4] == [text[0]] + [text[1]] + [text[2]] + [text[3]];
  }

  lemma ReadLoneBackslash(text: string)
    requires |text| >= 2 && text[0] == BACKSLASH && !EscapeTail(text[1..])
    ensures text[1] != BACKSLASH && Reading(text) == [Char(BACKSLASH)] + ([Char(text[1])] + Reading(text[2..]))
  {
    ReadPlain(text[1], text[2..]);
    assert text[1..] == [text[1]] + text[2..];
  }

  /** The repair changes no reading: it only writes every character so that JSON defines it. */
  lemma {:induction false} RepairKeepsReading(text: string)
    ensures Reading(Repair(text)) == Reading(text)
    decreases |text|, 1
  {
    if text == [] {
    } else if text[0] != BACKSLASH {
      RepairKeepsReading(text[1..]);
      ReadPlain(text[0], Repair(text[1..]));
    } else if |text| == 1 {
      ReadDoubled([]);
      assert text[1..] == [] && [BACKSLASH, BACKSLASH] + [] == Repair(text);
    } else if !EscapeTail(text[1..]) {
      RepairKeepsReading(text[2..]);
      ReadLoneBackslash(text);
      ReadDoubled([text[1]] + Repair(text[2..]));
      ReadPlain(text[1], Repair(text[2..]));
      assert Repair(text) == [BACKSLASH, BACKSLASH] + ([text[1]] + Repair(text[2..]));
    } else {
      EscapeKeepsReading(text);
    }
  }

  lemma EscapeKeepsReading(text: string)
    requires |text| >= 2 && text[0] == BACKSLASH && EscapeTail(text[1..])
    ensures Reading(Repair(text)) == Reading(text)
    decreases |text|, 0
  {
    var c, rest := text[1], text[2..];
    assert Repair(text) == [BACKSLASH, c] + Repair(rest);
    if c == BACKSLASH {
      RepairKeepsReading(rest);
      ReadDoubled(Repair(rest));
    } else if c == 'u' {
      assert text[1..][1..] == rest;
      RepairKeepsReading(rest[4..]);
      CodeKeepsReading(text, rest);
    } else {
      RepairKeepsReading(rest);
      ReadShort(c, Repair(rest));
    }
  }

  lemma CodeKeepsReading(text: string, rest: string)
    requires text == [BACKSLASH, 'u'] + rest && FourHex(rest) && Reading(Repair(rest[4..])) == Reading(rest[4..])
    ensures Reading([BACKSLASH, 'u'] + Repair(rest)) == Reading(text)
  {
    RepairOfHex(rest);
    ReadCode(rest[..4], Repair(rest[4..]));
    ReadCode(rest[..4], rest[4..]);
    assert rest == rest[..4] + rest[4..];
  }

  // ---------------------------------------------------------------- the brace scanner

  datatype Scan = Scan(depth: int, inString: bool, escaped: bool)

  const Start := Scan(0, false, false)

  function Step(s: Scan, c: char): Scan {
    if s.inString then
      if s.escaped then s.(escaped := false)
      else if c == BACKSLASH then s.(escaped := true)
      else if c == '"' then s.(inString := false)
      else s
    else if c == '"' then s.(inString := true)
    else if c == '{' then s.(depth := s.depth + 1)
    else if c == '}' then s.(depth := s.depth - 1)
    else s
  }

  /** The character is the brace that closes the object being scanned. */
  predicate Closing(s: Scan, c: char) {
    !s.inString && c == '}' && s.depth == 1
  }

  /** Length of the scanned object, or -1 when the text never closes it. */
  function EndOf(text: string, s: Scan): (end: int)
    ensures end == -1 || 0 < end <= |text|
    ensures end > 0 ==> text[end - 1] == '}'
    decreases |text|
  {
    if text == [] then -1
    else if Closing(s, text[0]) then 1
    else
      var rest := EndOf(text[1..], Step(s, text[0]));
      if rest == -1 then -1 else rest + 1
  }

  method ObjectEnd(text: string, start: nat) returns (end: int)
    requires start <= |text|
    ensures end == if EndOf(text[start..], Start) == -1 then -1 else start + EndOf(text[start..], Start)
  {
    var depth, inString, escaped := 0, false, false;
    for index := start to |text|
      invariant inString || !escaped
      invariant var done := EndOf(text[start..], Start);
                var left := EndOf(text[index..], Scan(depth, inString, escaped));
                (done == -1 <==> left == -1) && (done != -1 ==> start + done == index + left)
    {
      var c := text[index];
      ghost var left := text[index..];
      assert left[1..] == text[index + 1..];
      if inString {
        if escaped {
          escaped := false;
        } else if c == BACKSLASH {
          escaped := true;
        } else if c == '"' {
          inString := false;
        }
        continue;
      }
      if c == '"' {
        inString := true;
        continue;
      }
      if c == '{' {
        depth := depth + 1;
      } else if c == '}' {
        depth := depth - 1;
        if depth == 0 {
          return index + 1;
        }
      }
    }
    return -1;
  }

  /** Where the end of a scan lands when one more piece is put in front of what is scanned. */
  function After(piece: nat, end: int): int {
    if end == -1 then -1 else piece + end
  }

  lemma OneStep(c: char, rest: string, s: Scan)
    ensures EndOf([c] + rest, s) == if Closing(s, c) then 1 else After(1, EndOf(rest, Step(s, c)))
  {
    assert ([c] + rest)[1..] == rest;
  }

  lemma TwoSteps(a: char, b: char, rest: string, s: Scan)
    requires !Closing(s, a) && !Closing(Step(s, a), b)
    ensures EndOf([a, b] + rest, s) == After(2, EndOf(rest, Step(Step(s, a), b)))
  {
    assert [a, b] + rest == [a] + ([b] + rest);
    OneStep(a, [b] + rest, s);
    OneStep(b, rest, Step(s, a));
  }

  /** The length the repaired front of a scanned text has. */
  function RepairedEnd(text: string, end: int): int
    requires end == -1 || 0 < end <= |text|
  {
    if end == -1 then -1 else |Repair(text[..end])|
  }

  lemma RepairPlain(c: char, rest: string)
    requires c != BACKSLASH
    ensures Repair([c] + rest) == [c] + Repair(rest)
  {
    assert ([c] + rest)[1..] == rest;
  }

  /** A plain character keeps its place. */
  lemma MovePlain(c: char, rest: string, s: Scan, end: int)
    requires c != BACKSLASH && !Closing(s, c) && end == EndOf(rest, Step(s, c))
    requires EndOf(Repair(rest), Step(s, c)) == RepairedEnd(rest, end)
    ensures EndOf([c] + Repair(rest), s) == if end == -1 then -1 else |Repair(([c] + rest)[..1 + end])|
  {
    OneStep(c, Repair(rest), s);
    if end != -1 {
      assert ([c] + rest)[..1 + end] == [c] + rest[..end];
      RepairPlain(c, rest[..end]);
    }
  }

  lemma MovePlainClosing(c: char, rest: string, s: Scan)
    requires Closing(s, c)
    ensures EndOf([c] + Repair(rest), s) == 1 == |Repair(([c] + rest)[..1])|
  {
    OneStep(c, Repair(rest), s);
    assert ([c] + rest)[..1] == [c] + [];
    RepairPlain(c, []);
  }

  /** A prefix that ends in the closing brace repairs its first escape as the whole text does. */
  lemma SameEscape(text: string, end: int)
    requires |text| >= 2 && text[0] == BACKSLASH && 2 < end <= |text| && text[end - 1] == '}'
    ensures EscapeTail(text[..end][1..]) == EscapeTail(text[1..])
    ensures Repair(text[..end]) ==
      (if EscapeTail(text[1..]) then [BACKSLASH, text[1]] else [BACKSLASH, BACKSLASH, text[1]]) + Repair(text[2..][..end - 2])
  {
    var front := text[..end];
    assert front[2..] == text[2..][..end - 2];
    assert front[1..][0] == text[1];
    var f, t := front[1..][1..], text[1..][1..];
    assert f == t[..end - 2];
    assert t[end - 3] == '}' && !IsHex(t[end - 3]);
  }

  /** An escape keeps its place: doubling a backslash adds a character but no state. */
  lemma MoveEscape(text: string, s: Scan)
    requires |text| >= 2 && text[0] == BACKSLASH && !s.escaped
    requires var rest, t := text[2..], Step(Step(s, BACKSLASH), text[1]); EndOf(Repair(rest), t) == RepairedEnd(rest, EndOf(rest, t))
    ensures EndOf(Repair(text), s) == RepairedEnd(text, EndOf(text, s))
  {
    var c, rest := text[1], text[2..];
    assert text == [BACKSLASH, c] + rest;
    if Closing(s, c) {
      ClosingAfterBackslash(text, s);
    } else {
      TwoSteps(BACKSLASH, c, rest, s);
      var t := Step(Step(s, BACKSLASH), c);
      var end := EndOf(rest, t);
      EscapeEnd(c, Repair(rest), s, EscapeTail(text[1..]));
      if end != -1 {
        SameEscape(text, 2 + end);
      }
    }
  }

  lemma EscapeEnd(c: char, rest: string, s: Scan, valid: bool)
    requires !s.escaped && !Closing(s, c) && (!valid ==> !SimpleEscape(c))
    ensures var piece := if valid then [BACKSLASH, c] else [BACKSLASH, BACKSLASH, c];
            EndOf(piece + rest, s) == After(|piece|, EndOf(rest, Step(Step(s, BACKSLASH), c)))
  {
    if valid {
      TwoSteps(BACKSLASH, c, rest, s);
    } else {
      assert [BACKSLASH, BACKSLASH, c] + rest == [BACKSLASH, BACKSLASH] + ([c] + rest);
      TwoSteps(BACKSLASH, BACKSLASH, [c] + rest, s);
      OneStep(c, rest, s);
    }
  }

  lemma ClosingAfterBackslash(text: string, s: Scan)
    requires |text| >= 2 && text[0] == BACKSLASH && !s.escaped && Closing(s, text[1])
    ensures EndOf(Repair(text), s) == RepairedEnd(text, EndOf(text, s))
  {
    var rest := text[2..];
    assert text == [BACKSLASH] + ([text[1]] + rest);
    OneStep(BACKSLASH, [text[1]] + rest, s);
    OneStep(text[1], rest, s);
    var r := Repair(rest);
    assert Repair(text) == [BACKSLASH, BACKSLASH] + ([text[1]] + r);
    TwoSteps(BACKSLASH, BACKSLASH, [text[1]] + r, s);
    OneStep(text[1], r, s);
    assert text[..2] == [BACKSLASH, text[1]];
    assert Repair(text[..2]) == [BACKSLASH, BACKSLASH, text[1]] + Repair([]);
  }

  /** Repair never moves a string or brace boundary: scanning the repaired text ends exactly at the repaired form
    * of what scanning the text consumed, and never ends exactly when scanning the text never does. */
  lemma {:induction false} RepairKeepsBoundaries(text: string, s: Scan)
    requires !s.escaped
    ensures EndOf(Repair(text), s) == RepairedEnd(text, EndOf(text, s))
    decreases |text|
  {
    if text == [] {
    } else if text[0] != BACKSLASH {
      var c, rest := text[0], text[1..];
      assert text == [c] + rest;
      OneStep(c, rest, s);
      if Closing(s, c) {
        MovePlainClosing(c, rest, s);
      } else {
        RepairKeepsBoundaries(rest, Step(s, c));
        MovePlain(c, rest, s, EndOf(rest, Step(s, c)));
      }
    } else if |text| == 1 {
      assert EndOf(text, s) == -1;
      TwoSteps(BACKSLASH, BACKSLASH, [], s);
      assert [BACKSLASH, BACKSLASH] + [] == Repair(text);
    } else {
      RepairKeepsBoundaries(text[2..], Step(Step(s, BACKSLASH), text[1]));
      MoveEscape(text, s);
    }
  }

  /** A span the scanner accepts whole is accepted whole after the repair. */
  lemma WholeSpanStaysWhole(span: string)
    requires EndOf(span, Start) == |span|
    ensures EndOf(Repair(span), Start) == |Repair(span)|
  {
    RepairKeepsBoundaries(span, Start);
    assert span[..|span|] == span;
  }

  // ---------------------------------------------------------------- candidates and the verdict

  /** One candidate, as written and then with its undefined escapes repaired. */
  function ParseObject<J>(span: string, parse: string -> Option<J>): Option<J> {
    if parse(span).Some? then parse(span) else parse(Repair(span))
  }

  predicate StartsObject(text: string) {
    |text| > 1 && text[0] == '{' && text[1] == '"'
  }

  function Listed<J>(value: Option<J>): seq<J> {
    if value.Some? then [value.value] else []
  }

  /** Every candidate of a text in order: each object that starts outside an earlier candidate. */
  function Objects<J>(text: string, parse: string -> Option<J>): seq<J>
    decreases |text|
  {
    if text == [] then []
    else
      var end := if StartsObject(text) then EndOf(text, Start) else -1;
      if end == -1 then Objects(text[1..], parse)
      else Listed(ParseObject(text[..end], parse)) + Objects(text[end..], parse)
  }

  function Reversed<J>(items: seq<J>): seq<J> {
    if items == [] then [] else Reversed(items[1..]) + [items[0]]
  }

  method JsonObjects<J>(text: string, parse: string -> Option<J>) returns (objects: seq<J>)
    ensures objects == Reversed(Objects(text, parse))
  {
    var found: seq<J> := [];
    var index := 0;
    while index < |text|
      invariant index <= |text|
      invariant found + Objects(text[index..], parse) == Objects(text, parse)
    {
      ghost var left := text[index..];
      assert left[1..] == text[index + 1..];
      if text[index] != '{' || index + 1 == |text| || text[index + 1] != '"' {
        index := index + 1;
        continue;
      }
      var end := ObjectEnd(text, index);
      if end == -1 {
        index := index + 1;
        continue;
      }
      var parsed := ParseObject(text[index..end], parse);
      assert left[..end - index] == text[index..end] && left[end - index..] == text[end..];
      NextObjects(left, end - index, parse);
      Regroup(found, Listed(parsed), Objects(text[end..], parse), Objects(left, parse));
      found := found + Listed(parsed);
      index := end;
    }
    assert text[index..] == [];
    assert found + [] == found;
    objects := Reverse(found);
  }

  lemma NextObjects<J>(text: string, end: int, parse: string -> Option<J>)
    requires StartsObject(text) && end == EndOf(text, Start) && end != -1
    ensures Objects(text, parse) == Listed(ParseObject(text[..end], parse)) + Objects(text[end..], parse)
  {
  }

  method Reverse<J>(items: seq<J>) returns (reversed: seq<J>)
    ensures reversed == Reversed(items)
  {
    reversed := [];
    for k := 0 to |items|
      invariant reversed == Reversed(items[..k])
    {
      ReversedSnoc(items[..k], items[k]);
      assert items[..k + 1] == items[..k] + [items[k]];
      reversed := [items[k]] + reversed;
    }
    assert items[..|items|] == items;
  }

  lemma {:induction false} ReversedSnoc<J>(items: seq<J>, item: J)
    ensures Reversed(items + [item]) == [item] + Reversed(items)
  {
    if items != [] {
      ReversedSnoc(items[1..], item);
      assert (items + [item])[1..] == items[1..] + [item];
    }
  }

  /** The last candidate that declares the expected round. */
  function LastDeclaring<J>(objects: seq<J>, declares: J -> bool): Option<J> {
    if objects == [] then None
    else if declares(objects[|objects| - 1]) then Some(objects[|objects| - 1])
    else LastDeclaring(objects[..|objects| - 1], declares)
  }

  /** The candidate in this place declares the expected round, and none behind it does. */
  ghost predicate DeclaresLast<J>(objects: seq<J>, declares: J -> bool, k: int) {
    0 <= k < |objects| && declares(objects[k]) && forall m :: k < m < |objects| ==> !declares(objects[m])
  }

  /** The verdict read is the one candidate that declares the round with none behind it that does, whatever else the other
    * candidates are; there is none exactly when no candidate declares it. */
  lemma {:induction false} LastDeclaringExactlyWhen<J(!new)>(objects: seq<J>, declares: J -> bool, v: J)
    ensures LastDeclaring(objects, declares) == Some(v) <==> exists k :: DeclaresLast(objects, declares, k) && objects[k] == v
    ensures LastDeclaring(objects, declares).None? <==> forall k :: 0 <= k < |objects| ==> !declares(objects[k])
  {
    if objects != [] {
      var front, n := objects[..|objects| - 1], |objects| - 1;
      LastDeclaringExactlyWhen(front, declares, v);
      if declares(objects[n]) {
        assert DeclaresLast(objects, declares, n);
      } else {
        assert forall k :: DeclaresLast(objects, declares, k) <==> DeclaresLast(front, declares, k);
      }
    }
  }

  method ParseVerdict<J, R>(text: string, parse: string -> Option<J>, declares: J -> bool, read: J -> Option<R>)
    returns (result: Option<R>)
    ensures var found := LastDeclaring(Objects(text, parse), declares);
            result == if found.None? then None else read(found.value)
  {
    var objects := JsonObjects(text, parse);
    ghost var all := Objects(text, parse);
    ReversedAt(all);
    assert all[..|all|] == all;
    for k := 0 to |objects|
      invariant LastDeclaring(all[..|all| - k], declares) == LastDeclaring(all, declares)
    {
      assert all[..|all| - k][..|all| - k - 1] == all[..|all| - k - 1];
      if declares(objects[k]) {
        return read(objects[k]);
      }
    }
    return None;
  }

  lemma {:induction false} ReversedAt<J>(items: seq<J>)
    ensures |Reversed(items)| == |items|
    ensures forall k :: 0 <= k < |items| ==> Reversed(items)[k] == items[|items| - 1 - k]
  {
    if items != [] {
      ReversedAt(items[1..]);
    }
  }

  /** No object starts inside the text, nor where it meets what follows. */
  predicate NoObjectStart(prose: string) {
    forall k :: 0 <= k < |prose| - 1 ==> !(prose[k] == '{' && prose[k + 1] == '"')
  }

  /** Prose in front of an object is skipped, whatever quotes and braces it holds. */
  lemma {:induction false} ProseIsSkipped<J>(prose: string, body: string, parse: string -> Option<J>)
    requires NoObjectStart(prose) && StartsObject(body)
    ensures Objects(prose + body, parse) == Objects(body, parse)
  {
    if prose == [] {
      assert prose + body == body;
    } else {
      var whole := prose + body;
      assert whole[1..] == prose[1..] + body;
      assert !StartsObject(whole) by {
        if |prose| > 1 {
          assert whole[0] == prose[0] && whole[1] == prose[0 + 1];
        }
      }
      RestHasNoStart(prose);
      ProseIsSkipped(prose[1..], body, parse);
    }
  }

  /** What an object does to the scan does not depend on the text behind it. */
  lemma {:induction false} EndIgnoresTail(body: string, tail: string, s: Scan)
    requires EndOf(body, s) != -1
    ensures EndOf(body + tail, s) == EndOf(body, s)
    decreases |body|
  {
    assert body + tail == [body[0]] + (body[1..] + tail);
    OneStep(body[0], body[1..] + tail, s);
    if !Closing(s, body[0]) {
      EndIgnoresTail(body[1..], tail, Step(s, body[0]));
    }
  }

  lemma {:induction false} LastDeclaringOfConcat<J>(a: seq<J>, b: seq<J>, declares: J -> bool)
    requires LastDeclaring(b, declares).None?
    ensures LastDeclaring(a + b, declares) == LastDeclaring(a, declares)
  {
    if b == [] {
      assert a + b == a;
    } else {
      assert (a + b)[..|a + b| - 1] == a + b[..|b| - 1];
      LastDeclaringOfConcat(a, b[..|b| - 1], declares);
    }
  }

  /** An object that starts before this place is still open there, so the scan passes over whatever starts at it. */
  predicate Covered(text: string, at: nat)
    requires at <= |text|
    decreases at
  {
    if at == 0 then false
    else
      var end := if StartsObject(text) then EndOf(text, Start) else -1;
      if end == -1 then Covered(text[1..], at - 1) else at < end || Covered(text[end..], at - end)
  }

  /** Every object that starts in the text is complete in it. */
  predicate AllComplete(text: string)
    decreases |text|
  {
    if text == [] then true
    else if !StartsObject(text) then AllComplete(text[1..])
    else EndOf(text, Start) != -1 && AllComplete(text[EndOf(text, Start)..])
  }

  /** Prose in which no object starts has none that is incomplete. */
  lemma {:induction false} PlainProseIsComplete(prose: string)
    requires NoObjectStart(prose)
    ensures AllComplete(prose)
    decreases |prose|
  {
    if prose != [] {
      assert |prose| > 1 ==> !(prose[0] == '{' && prose[0 + 1] == '"');
      RestHasNoStart(prose);
      PlainProseIsComplete(prose[1..]);
    }
  }

  lemma RestHasNoStart(prose: string)
    requires NoObjectStart(prose) && prose != []
    ensures NoObjectStart(prose[1..])
  {
    forall k | 0 <= k < |prose[1..]| - 1
      ensures !(prose[1..][k] == '{' && prose[1..][k + 1] == '"')
    {
      assert !(prose[k + 1] == '{' && prose[k + 1 + 1] == '"');
    }
  }

  /** Objects that are complete in front of a place do not cover it. */
  lemma {:induction false} CompleteProseCoversNothing(prose: string, body: string)
    requires AllComplete(prose) && StartsObject(body)
    ensures !Covered(prose + body, |prose|)
    decreases |prose|
  {
    if prose != [] {
      var whole := prose + body;
      StartsTheSame(prose, body);
      if StartsObject(prose) {
        var end := EndOf(prose, Start);
        EndIgnoresTail(prose, body, Start);
        assert whole[end..] == prose[end..] + body;
        CompleteProseCoversNothing(prose[end..], body);
      } else {
        assert whole[1..] == prose[1..] + body;
        CompleteProseCoversNothing(prose[1..], body);
      }
    }
  }

  lemma StartsTheSame(prose: string, body: string)
    requires prose != [] && StartsObject(body)
    ensures StartsObject(prose + body) <==> StartsObject(prose)
  {
  }

  /** The objects of a text are those in front of an uncovered place, and those from there on. */
  lemma {:induction false} UncoveredSplits<J>(text: string, at: nat, parse: string -> Option<J>) returns (front: seq<J>)
    requires at <= |text| && !Covered(text, at)
    ensures Objects(text, parse) == front + Objects(text[at..], parse)
    decreases at
  {
    if at == 0 {
      assert text[at..] == text;
      front := [];
    } else {
      var end := if StartsObject(text) then EndOf(text, Start) else -1;
      if end == -1 {
        assert text[1..][at - 1..] == text[at..];
        front := UncoveredSplits(text[1..], at - 1, parse);
      } else {
        var first := Listed(ParseObject(text[..end], parse));
        var rest := UncoveredSplits(text[end..], at - end, parse);
        assert text[end..][at - end..] == text[at..];
        Regroup(first, rest, Objects(text[at..], parse), Objects(text[end..], parse));
        front := first + rest;
      }
    }
  }

  /** The text denotes this object: as written, or else with its undefined escapes repaired. */
  ghost predicate Denotes<J>(span: string, parse: string -> Option<J>, v: J) {
    parse(span) == Some(v) || (parse(span).None? && parse(Repair(span)) == Some(v))
  }

  /** A span that can be read neither way contributes nothing, and hides nothing behind it. */
  lemma UnreadableSpanIsSkipped<J>(body: string, tail: string, parse: string -> Option<J>)
    requires StartsObject(body) && EndOf(body, Start) == |body| && parse(body).None? && parse(Repair(body)).None?
    ensures Objects(body + tail, parse) == Objects(tail, parse)
  {
    EndIgnoresTail(body, tail, Start);
    assert (body + tail)[..|body|] == body && (body + tail)[|body|..] == tail;
  }

  /** The object a complete span denotes is listed, in front of those behind it. */
  lemma DenotedIsListed<J>(body: string, tail: string, parse: string -> Option<J>, v: J)
    requires StartsObject(body) && EndOf(body, Start) == |body| && Denotes(body, parse, v)
    ensures Objects(body + tail, parse) == [v] + Objects(tail, parse)
  {
    EndIgnoresTail(body, tail, Start);
    assert (body + tail)[..|body|] == body && (body + tail)[|body|..] == tail;
  }

  /** A complete verdict is the one read, as written or with its undefined escapes repaired, unless an object that starts
    * earlier in the reply is still open where it begins, or a later object declares the same round. */
  lemma VerdictIsFound<J>(prose: string, body: string, tail: string, parse: string -> Option<J>, declares: J -> bool, v: J)
    requires StartsObject(body) && EndOf(body, Start) == |body| && !Covered(prose + (body + tail), |prose|)
    requires parse(body) == Some(v) || (parse(body).None? && parse(Repair(body)) == Some(v))
    requires declares(v) && LastDeclaring(Objects(tail, parse), declares).None?
    ensures LastDeclaring(Objects(prose + (body + tail), parse), declares) == Some(v)
  {
    var front := UncoveredSplits(prose + (body + tail), |prose|, parse);
    assert (prose + (body + tail))[|prose|..] == body + tail;
    DenotedIsListed(body, tail, parse, v);
    Regroup(front, [v], Objects(tail, parse), Objects(body + tail, parse));
    LastDeclaringOfConcat(front + [v], Objects(tail, parse), declares);
  }

  /** So a verdict behind any prose whose own objects are complete, quoted ones and other verdicts included, is read. */
  lemma VerdictBehindObjectsIsFound<J>(prose: string, body: string, tail: string, parse: string -> Option<J>,
                                       declares: J -> bool, v: J)
    requires AllComplete(prose) && StartsObject(body) && EndOf(body, Start) == |body|
    requires parse(body) == Some(v) || (parse(body).None? && parse(Repair(body)) == Some(v))
    requires declares(v) && LastDeclaring(Objects(tail, parse), declares).None?
    ensures LastDeclaring(Objects(prose + (body + tail), parse), declares) == Some(v)
  {
    CompleteProseCoversNothing(prose, body + tail);
    VerdictIsFound(prose, body, tail, parse, declares, v);
  }
}
