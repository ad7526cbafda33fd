/** The brace scanner of src/controller/loop-contract.ts on the texts it is for: written JSON values, whatever their strings
  * hold. */
module JsonTexts {
  import opened Collections
  import opened JsonEscapes

  /** A value as it is written: a literal by what stands between its quotes, and any other word by its characters. */
  datatype Json = Literal(inside: string) | Word(word: string) | List(items: seq<Json>) | Record(fields: seq<Field>)

  datatype Field = Field(name: string, value: Json)

  /** No quote but behind a backslash, and no backslash without a character behind it. */
  predicate Inside(text: string)
    decreases |text|
  {
    if text == [] then true
    else if text[0] == '"' then false
    else if text[0] == BACKSLASH then |text| >= 2 && Inside(text[2..])
    else Inside(text[1..])
  }

  /** Numbers, names and blanks: anything without quotes and braces. */
  predicate Plain(text: string) {
    forall i :: 0 <= i < |text| ==> text[i] != '"' && text[i] != '{' && text[i] != '}'
  }

  predicate Written(v: Json)
    decreases v
  {
    match v
    case Literal(inside) => Inside(inside)
    case Word(word) => Plain(word)
    case List(items) => forall i :: 0 <= i < |items| ==> Written(items[i])
    case Record(fields) => forall i :: 0 <= i < |fields| ==> Inside(fields[i].name) && Written(fields[i].value)
  }

  function Quoted(inside: string): string {
    "\"" + (inside + "\"")
  }

  function Render(v: Json): string
    decreases v
  {
    match v
    case Literal(inside) => Quoted(inside)
    case Word(word) => word
    case List(items) => "[" + (Items(items, |items|) + "]")
    case Record(fields) => "{" + (Fields(fields, |fields|) + "}")
  }

  /** The first few items, each with a comma in front of it but the first. */
  function Items(items: seq<Json>, n: nat): string
    requires n <= |items|
    decreases items, n
  {
    if n == 0 then "" else Items(items, n - 1) + ((if n == 1 then "" else ",") + Render(items[n - 1]))
  }

  function Fields(fields: seq<Field>, n: nat): string
    requires n <= |fields|
    decreases fields, n
  {
    if n == 0 then ""
    else Fields(fields, n - 1) + ((if n == 1 then "" else ",") + Named(fields[n - 1]))
  }

  function Named(f: Field): string
    decreases f
  {
    Quoted(f.name) + (":" + Render(f.value))
  }

  // ---------------------------------------------------------------- scanning a part

  /** The scan passes over the part and is afterwards where it was. */
  predicate Passes(part: string, s: Scan, rest: string) {
    EndOf(part + rest, s) == After(|part|, EndOf(rest, s))
  }

  /** Inside an object and outside its literals. */
  predicate Between(s: Scan) {
    s.depth >= 1 && !s.inString && !s.escaped
  }

  lemma PassesBoth(a: string, b: string, s: Scan, rest: string)
    requires Passes(a, s, b + rest) && Passes(b, s, rest)
    ensures Passes(a + b, s, rest)
  {
    assert (a + b) + rest == a + (b + rest);
  }

  lemma {:induction false} PassesPlain(text: string, s: Scan, rest: string)
    requires Plain(text) && Between(s)
    ensures Passes(text, s, rest)
  {
    if text == [] {
      assert text + rest == rest;
    } else {
      assert text + rest == [text[0]] + (text[1..] + rest);
      OneStep(text[0], text[1..] + rest, s);
      PassesPlain(text[1..], s, rest);
    }
  }

  /** Within a literal only the quote at its end counts. */
  lemma {:induction false} PassesInside(text: string, s: Scan, rest: string)
    requires Inside(text) && s.inString && !s.escaped
    ensures Passes(text, s, rest)
    decreases |text|
  {
    if text == [] {
      assert text + rest == rest;
    } else if text[0] == BACKSLASH {
      PassesInside(text[2..], s, rest);
      PassesPair(text[1], text[2..], s, rest);
      assert text == [BACKSLASH, text[1]] + text[2..];
    } else {
      PassesInside(text[1..], s, rest);
      PassesOne(text[0], text[1..], s, rest);
      assert text == [text[0]] + text[1..];
    }
  }

  lemma PassesPair(c: char, text: string, s: Scan, rest: string)
    requires s.inString && !s.escaped && Passes(text, s, rest)
    ensures Passes([BACKSLASH, c] + text, s, rest)
  {
    assert ([BACKSLASH, c] + text) + rest == [BACKSLASH, c] + (text + rest);
    TwoSteps(BACKSLASH, c, text + rest, s);
  }

  lemma PassesOne(c: char, text: string, s: Scan, rest: string)
    requires s.inString && !s.escaped && c != BACKSLASH && c != '"' && Passes(text, s, rest)
    ensures Passes([c] + text, s, rest)
  {
    assert ([c] + text) + rest == [c] + (text + rest);
    OneStep(c, text + rest, s);
  }

  lemma PassesQuoted(inside: string, s: Scan, rest: string)
    requires Inside(inside) && Between(s)
    ensures Passes(Quoted(inside), s, rest)
  {
    var open' := s.(inString := true);
    assert Quoted(inside) + rest == ['"'] + (inside + (['"'] + rest));
    OneStep('"', inside + (['"'] + rest), s);
    PassesInside(inside, open', ['"'] + rest);
    OneStep('"', rest, open');
  }

  lemma {:induction false} PassesValue(v: Json, s: Scan, rest: string)
    requires Written(v) && Between(s)
    ensures Passes(Render(v), s, rest)
    decreases v, 1
  {
    match v
    case Literal(inside) => PassesQuoted(inside, s, rest);
    case Word(word) => PassesPlain(word, s, rest);
    case List(items) => PassesList(v, s, rest);
    case Record(fields) => PassesRecord(v, s, rest);
  }

  lemma PassesList(v: Json, s: Scan, rest: string)
    requires v.List? && Written(v) && Between(s)
    ensures Passes(Render(v), s, rest)
    decreases v, 0
  {
    var inner := Items(v.items, |v.items|);
    PassesPlain("]", s, rest);
    PassesItems(v, |v.items|, s, "]" + rest);
    PassesBoth(inner, "]", s, rest);
    PassesPlain("[", s, (inner + "]") + rest);
    PassesBoth("[", inner + "]", s, rest);
  }

  lemma PassesItems(v: Json, n: nat, s: Scan, rest: string)
    requires v.List? && Written(v) && Between(s) && n <= |v.items|
    ensures Passes(Items(v.items, n), s, rest)
    decreases v, 0, n
  {
    if n == 0 {
      PassesPlain("", s, rest);
    } else {
      var comma, item := if n == 1 then "" else ",", Render(v.items[n - 1]);
      PassesValue(v.items[n - 1], s, rest);
      PassesPlain(comma, s, item + rest);
      PassesBoth(comma, item, s, rest);
      PassesItems(v, n - 1, s, (comma + item) + rest);
      PassesBoth(Items(v.items, n - 1), comma + item, s, rest);
    }
  }

  lemma PassesFields(v: Json, n: nat, s: Scan, rest: string)
    requires v.Record? && Written(v) && Between(s) && n <= |v.fields|
    ensures Passes(Fields(v.fields, n), s, rest)
    decreases v, 0, n
  {
    if n == 0 {
      PassesPlain("", s, rest);
    } else {
      var comma, field := if n == 1 then "" else ",", Named(v.fields[n - 1]);
      PassesNamed(v.fields[n - 1], s, rest);
      PassesPlain(comma, s, field + rest);
      PassesBoth(comma, field, s, rest);
      PassesFields(v, n - 1, s, (comma + field) + rest);
      PassesBoth(Fields(v.fields, n - 1), comma + field, s, rest);
    }
  }

  lemma PassesNamed(f: Field, s: Scan, rest: string)
    requires Inside(f.name) && Written(f.value) && Between(s)
    ensures Passes(Named(f), s, rest)
    decreases f, 0, 0
  {
    var name, value := Quoted(f.name), Render(f.value);
    PassesValue(f.value, s, rest);
    PassesPlain(":", s, value + rest);
    PassesBoth(":", value, s, rest);
    PassesQuoted(f.name, s, (":" + value) + rest);
    PassesBoth(name, ":" + value, s, rest);
  }

  lemma PassesRecord(v: Json, s: Scan, rest: string)
    requires v.Record? && Written(v) && Between(s)
    ensures Passes(Render(v), s, rest)
    decreases v, 0, |v.fields| + 1
  {
    var inner, deeper := Fields(v.fields, |v.fields|), s.(depth := s.depth + 1);
    assert Render(v) + rest == ['{'] + (inner + (['}'] + rest));
    OneStep('{', inner + (['}'] + rest), s);
    PassesFields(v, |v.fields|, deeper, ['}'] + rest);
    OneStep('}', rest, deeper);
  }

  // ---------------------------------------------------------------- main results

  /** Every written object is delimited exactly, whatever braces, quotes and escapes its strings hold, and whatever follows
    * it. */
  lemma ObjectIsDelimited(v: Json, rest: string)
    requires v.Record? && Written(v)
    ensures EndOf(Render(v) + rest, Start) == |Render(v)|
  {
    var inner, inside := Fields(v.fields, |v.fields|), Start.(depth := 1);
    assert Render(v) + rest == ['{'] + (inner + (['}'] + rest));
    OneStep('{', inner + (['}'] + rest), Start);
    PassesFields(v, |v.fields|, inside, ['}'] + rest);
    OneStep('}', rest, inside);
  }

  /** It starts as the scan expects an object to start, unless it has no fields. */
  lemma ObjectStarts(v: Json)
    requires v.Record? && v.fields != []
    ensures StartsObject(Render(v))
  {
    FieldsStart(v.fields, |v.fields|);
  }

  lemma {:induction false} FieldsStart(fields: seq<Field>, n: nat)
    requires 0 < n <= |fields|
    ensures Fields(fields, n) != "" && Fields(fields, n)[0] == '"'
  {
    if n > 1 {
      FieldsStart(fields, n - 1);
    }
  }

  /** So a written verdict is read from a reply, behind any prose whose own objects are complete. */
  lemma WrittenVerdictIsRead<J>(prose: string, verdict: Json, tail: string, parse: string -> Option<J>, declares: J -> bool, v: J)
    requires AllComplete(prose) && verdict.Record? && Written(verdict) && verdict.fields != []
    requires Denotes(Render(verdict), parse, v) && declares(v)
    requires LastDeclaring(Objects(tail, parse), declares).None?
    ensures LastDeclaring(Objects(prose + (Render(verdict) + tail), parse), declares) == Some(v)
  {
    ObjectStarts(verdict);
    ObjectIsDelimited(verdict, "");
    assert Render(verdict) + "" == Render(verdict);
    VerdictBehindObjectsIsFound(prose, Render(verdict), tail, parse, declares, v);
  }
}
