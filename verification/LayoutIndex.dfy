/** The incremental row index of a conversation (src/session/history.ts).
  *
  * Wrapping and Markdown are foreign: the rows of a message are a fixed function of the message, the width, the fold
  * mode and whether it shows a heading. A message is compared by identity, and its identity is part of its value. */
module LayoutIndex {
  import opened Collections

  datatype Reasoning = Folded | Full

  datatype Role = You | Assistant | Other

  datatype Message = Message(identity: nat, seqNo: int, role: Role, compact: bool)

  datatype Row = Row(text: string, kind: string)

  datatype Segment = Segment(message: Message, start: nat, count: nat, reasoning: Reasoning, heading: bool, seen: bool)

  datatype Height = Height(width: int, reasoning: Reasoning, heading: bool, count: nat)

  /** One cached entry; the cache lists them from the least to the most recently used. */
  datatype Cached = Cached(message: Message, width: int, reasoning: Reasoning, heading: bool, rows: seq<Row>)

  /** What an index is created with. */
  datatype Style = Style(
    width: int,
    reasoning: Reasoning,
    overrides: set<int>,
    render: (Message, int, Reasoning, bool) -> seq<Row>
  )

  const MaxRows := 2048
  const MaxCharacters := 256 * 1024

  function Rows(style: Style, m: Message, reasoning: Reasoning, heading: bool): seq<Row> {
    style.render(m, style.width, reasoning, heading)
  }

  // ---------------------------------------------------------------- the layout, from scratch

  function Seen(segs: seq<Segment>): bool {
    segs != [] && segs[|segs| - 1].seen
  }

  function End(segs: seq<Segment>): nat {
    if segs == [] then 0 else segs[|segs| - 1].start + segs[|segs| - 1].count
  }

  function FoldMode(style: Style, m: Message): Reasoning {
    if m.seqNo !in style.overrides then style.reasoning else if style.reasoning.Folded? then Full else Folded
  }

  /** The next message's segment. */
  function Lay(style: Style, segs: seq<Segment>, m: Message): Segment {
    var seen := Seen(segs) && !m.role.You?;
    var heading := !m.compact && (!m.role.Assistant? || !seen);
    var reasoning := FoldMode(style, m);
    Segment(m, End(segs), |Rows(style, m, reasoning, heading)|, reasoning, heading, seen || (m.role.Assistant? && heading))
  }

  function Build(style: Style, messages: seq<Message>): (segs: seq<Segment>)
    ensures |segs| == |messages|
  {
    if messages == [] then []
    else
      var front := Build(style, messages[..|messages| - 1]);
      front + [Lay(style, front, messages[|messages| - 1])]
  }

  function Offsets(segs: seq<Segment>): map<int, nat> {
    if segs == [] then map[]
    else
      var last := segs[|segs| - 1];
      Offsets(segs[..|segs| - 1])[last.message.seqNo := last.start]
  }

  function SegmentRows(style: Style, s: Segment): seq<Row> {
    Rows(style, s.message, s.reasoning, s.heading)
  }

  /** Every row of the conversation, one message after the other. */
  function Body(style: Style, segs: seq<Segment>): seq<Row> {
    if segs == [] then [] else Body(style, segs[..|segs| - 1]) + SegmentRows(style, segs[|segs| - 1])
  }

  /** The part of rows inside [from, to). */
  function Clip(rows: seq<Row>, from: int, to: int): seq<Row> {
    var lo, hi := Max(0, from), Min(|rows|, to);
    if lo <= hi then rows[lo..hi] else []
  }

  // ---------------------------------------------------------------- the row cache

  function Size(cache: seq<Cached>): nat {
    if cache == [] then 0 else |cache[0].rows| + Size(cache[1..])
  }

  function Find(cache: seq<Cached>, m: Message): (at: Option<nat>)
    ensures at.Some? ==> at.value < |cache| && cache[at.value].message == m
    ensures at.None? ==> forall k :: 0 <= k < |cache| ==> cache[k].message != m
  {
    if cache == [] then None
    else if cache[0].message == m then Some(0)
    else
      var rest := Find(cache[1..], m);
      if rest.Some? then Some(rest.value + 1) else None
  }

  function Among(messages: seq<Message>): set<Message> {
    set m | m in messages
  }

  /** Every entry holds the true rows of a listed message of its own. */
  ghost predicate CacheOk(style: Style, cache: seq<Cached>, listed: set<Message>) {
    && (forall k :: 0 <= k < |cache| ==> EntryOk(style, cache[k], listed))
    && (forall j, k :: 0 <= j < k < |cache| ==> cache[j].message != cache[k].message)
  }

  predicate EntryOk(style: Style, c: Cached, listed: set<Message>) {
    c.width == style.width && c.rows == Rows(style, c.message, c.reasoning, c.heading) && c.message in listed
  }

  function Characters(rows: seq<Row>): nat {
    if rows == [] then 0 else Characters(rows[..|rows| - 1]) + |rows[|rows| - 1].text|
  }

  /** The cache after its oldest entries made room. */
  function Evict(cache: seq<Cached>, room: nat): (rest: seq<Cached>)
    ensures Size(rest) <= room
  {
    if Size(cache) <= room then cache else Evict(cache[1..], room)
  }

  function Without(cache: seq<Cached>, at: nat): seq<Cached>
    requires at < |cache|
  {
    cache[..at] + cache[at + 1..]
  }

  lemma {:induction false} SizeOfSplit(a: seq<Cached>, b: seq<Cached>)
    ensures Size(a + b) == Size(a) + Size(b)
  {
    if a == [] {
      assert a + b == b;
    } else {
      assert (a + b)[1..] == a[1..] + b;
      SizeOfSplit(a[1..], b);
    }
  }

  lemma SizeWithout(cache: seq<Cached>, at: nat)
    requires at < |cache|
    ensures Size(cache) == Size(Without(cache, at)) + |cache[at].rows|
  {
    assert cache == cache[..at] + ([cache[at]] + cache[at + 1..]);
    SizeOfSplit(cache[..at], [cache[at]] + cache[at + 1..]);
    SizeOfSplit([cache[at]], cache[at + 1..]);
    SizeOfSplit(cache[..at], cache[at + 1..]);
  }

  /** Eviction drops no entry it could keep: keeping one more would exceed the room. */
  lemma {:induction false} EvictsNoMoreThanNeeded(cache: seq<Cached>, room: nat)
    ensures var n := |cache| - |Evict(cache, room)|;
            0 <= n && Evict(cache, room) == cache[n..] && (n > 0 ==> Size(cache[n - 1..]) > room)
  {
    if Size(cache) > room {
      EvictsNoMoreThanNeeded(cache[1..], room);
      var n := |cache| - |Evict(cache, room)|;
      assert cache[1..][n - 1..] == cache[n..];
      if n > 1 {
        assert cache[1..][n - 2..] == cache[n - 1..];
      } else {
        assert cache[n - 1..] == cache;
      }
    }
  }

  lemma WithoutIsOk(style: Style, cache: seq<Cached>, at: nat, listed: set<Message>)
    requires CacheOk(style, cache, listed) && at < |cache|
    ensures CacheOk(style, Without(cache, at), listed) && Find(Without(cache, at), cache[at].message).None?
  {
    var rest := Without(cache, at);
    forall k | 0 <= k < |rest|
      ensures EntryOk(style, rest[k], listed) && rest[k].message != cache[at].message
    {
      assert rest[k] == cache[if k < at then k else k + 1];
    }
    forall j, k | 0 <= j < k < |rest|
      ensures rest[j].message != rest[k].message
    {
      assert rest[j] == cache[if j < at then j else j + 1] && rest[k] == cache[if k < at then k else k + 1];
    }
  }

  lemma DropIsOk(style: Style, cache: seq<Cached>, n: nat, listed: set<Message>, m: Message)
    requires CacheOk(style, cache, listed) && n <= |cache|
    ensures CacheOk(style, cache[n..], listed) && (Find(cache, m).None? ==> Find(cache[n..], m).None?)
  {
    assert forall k :: 0 <= k < |cache[n..]| ==> cache[n..][k] == cache[k + n];
  }

  lemma AddedIsOk(style: Style, cache: seq<Cached>, c: Cached, listed: set<Message>)
    requires CacheOk(style, cache, listed) && EntryOk(style, c, listed) && Find(cache, c.message).None?
    ensures CacheOk(style, cache + [c], listed) && Size(cache + [c]) == Size(cache) + |c.rows|
  {
    SizeOfSplit(cache, [c]);
  }

  /** The cache once the entry of this message is out of it. */
  function Others(cache: seq<Cached>, m: Message): seq<Cached> {
    var at := Find(cache, m);
    if at.Some? then Without(cache, at.value) else cache
  }

  lemma OthersIsOk(style: Style, cache: seq<Cached>, m: Message, listed: set<Message>)
    requires CacheOk(style, cache, listed)
    ensures CacheOk(style, Others(cache, m), listed) && Find(Others(cache, m), m).None?
    ensures var at := Find(cache, m);
            Size(Others(cache, m)) == Size(cache) - if at.Some? then |cache[at.value].rows| else 0
  {
    var at := Find(cache, m);
    if at.Some? {
      WithoutIsOk(style, cache, at.value, listed);
      SizeWithout(cache, at.value);
    }
  }

  /** Store an entry once the oldest ones made room for it. */
  function Stored(others: seq<Cached>, c: Cached): seq<Cached> {
    if |c.rows| <= MaxRows && Characters(c.rows) <= MaxCharacters then Evict(others, MaxRows - |c.rows|) + [c] else others
  }

  lemma StoredIsOk(style: Style, others: seq<Cached>, c: Cached, listed: set<Message>)
    requires CacheOk(style, others, listed) && Size(others) <= MaxRows
    requires EntryOk(style, c, listed) && Find(others, c.message).None?
    ensures CacheOk(style, Stored(others, c), listed) && Size(Stored(others, c)) <= MaxRows
  {
    if |c.rows| <= MaxRows {
      EvictsNoMoreThanNeeded(others, MaxRows - |c.rows|);
      var kept := Evict(others, MaxRows - |c.rows|);
      DropIsOk(style, others, |others| - |kept|, listed, c.message);
      AddedIsOk(style, kept, c, listed);
    }
  }

  predicate Hits(cache: seq<Cached>, m: Message, reasoning: Reasoning, heading: bool) {
    var at := Find(cache, m);
    at.Some? && cache[at.value].reasoning == reasoning && cache[at.value].heading == heading
  }

  /** The cache after the rows of one message were asked for: a hit moves to the end, a miss is stored when it is small
    * enough. */
  function Asked(style: Style, cache: seq<Cached>, m: Message, reasoning: Reasoning, heading: bool): seq<Cached> {
    if Hits(cache, m, reasoning, heading) then Others(cache, m) + [cache[Find(cache, m).value]]
    else Stored(Others(cache, m), Cached(m, style.width, reasoning, heading, Rows(style, m, reasoning, heading)))
  }

  /** Asking keeps the cache true, duplicate-free and within its bound. */
  lemma AskedIsOk(style: Style, cache: seq<Cached>, m: Message, reasoning: Reasoning, heading: bool, listed: set<Message>)
    requires CacheOk(style, cache, listed) && Size(cache) <= MaxRows && m in listed
    ensures var n := Asked(style, cache, m, reasoning, heading); CacheOk(style, n, listed) && Size(n) <= MaxRows
  {
    OthersIsOk(style, cache, m, listed);
    if Hits(cache, m, reasoning, heading) {
      var hit := cache[Find(cache, m).value];
      assert EntryOk(style, hit, listed);
      AddedIsOk(style, Others(cache, m), hit, listed);
    } else {
      StoredIsOk(style, Others(cache, m), Cached(m, style.width, reasoning, heading, Rows(style, m, reasoning, heading)), listed);
    }
  }

  /** Entries of messages that are still listed, in their order. */
  function KeepListed(cache: seq<Cached>, listed: set<Message>): seq<Cached> {
    if cache == [] then []
    else
      var front, last := KeepListed(cache[..|cache| - 1], listed), cache[|cache| - 1];
      if last.message in listed then front + [last] else front
  }

  lemma {:induction false} KeepListedIsOk(style: Style, cache: seq<Cached>, before: set<Message>, listed: set<Message>)
    requires CacheOk(style, cache, before)
    ensures CacheOk(style, KeepListed(cache, listed), listed)
    ensures Size(KeepListed(cache, listed)) <= Size(cache)
    ensures forall c :: c in KeepListed(cache, listed) ==> c in cache
  {
    if cache != [] {
      var front, last := cache[..|cache| - 1], cache[|cache| - 1];
      KeepListedIsOk(style, front, before, listed);
      var kept := KeepListed(front, listed);
      assert cache == front + [last];
      SizeOfSplit(front, [last]);
      if last.message in listed {
        assert forall k :: 0 <= k < |kept| ==> kept[k] in front;
        assert EntryOk(style, last, before);
        AddedIsOk(style, kept, last, listed);
      }
    }
  }

  // ---------------------------------------------------------------- what the cache keeps

  lemma OthersMeans(style: Style, cache: seq<Cached>, m: Message, listed: set<Message>, c: Cached)
    requires CacheOk(style, cache, listed)
    ensures c in Others(cache, m) <==> c in cache && c.message != m
  {
    var at, rest := Find(cache, m), Others(cache, m);
    if at.Some? {
      OthersIsOk(style, cache, m, listed);
      if c in cache && c.message != m {
        var k :| 0 <= k < |cache| && cache[k] == c;
        assert rest[if k < at.value then k else k - 1] == c;
      }
    }
  }

  lemma {:induction false} CharactersAdd(a: seq<Row>, b: seq<Row>)
    ensures Characters(a + b) == Characters(a) + Characters(b)
    ensures forall row: Row :: Characters([row]) == |row.text|
  {
    forall row: Row
      ensures Characters([row]) == |row.text|
    {
      assert [row][..0] == [];
    }
    if b == [] {
      assert a + b == a;
    } else {
      assert (a + b)[..|a + b| - 1] == a + b[..|b| - 1];
      CharactersAdd(a, b[..|b| - 1]);
    }
  }

  /** What asking for one message's rows leaves in the cache: its own true rows as the newest entry, exactly when they were
    * there or are at most 2048 and hold at most 262144 characters; and of the others, in their order, all, or all but the
    * fewest of the oldest that make room for it. */
  lemma AskedExactly(style: Style, cache: seq<Cached>, m: Message, reasoning: Reasoning, heading: bool, listed: set<Message>)
    returns (dropped: nat)
    requires CacheOk(style, cache, listed) && Size(cache) <= 2048 && m in listed
    ensures var n, others, rows := Asked(style, cache, m, reasoning, heading), Others(cache, m), Rows(style, m, reasoning, heading);
            var hit := exists c :: c in cache && c.message == m && c.reasoning == reasoning && c.heading == heading;
            var kept := hit || (|rows| <= 2048 && Characters(rows) <= 262144);
            && dropped <= |others|
            && n == others[dropped..] + (if kept then [Cached(m, style.width, reasoning, heading, rows)] else [])
            && (hit || !kept ==> dropped == 0)
            && (dropped > 0 ==> Size(others[dropped - 1..]) + |rows| > 2048)
  {
    var others, rows := Others(cache, m), Rows(style, m, reasoning, heading);
    var entry := Cached(m, style.width, reasoning, heading, rows);
    dropped := 0;
    assert others[0..] == others;
    HitsMeans(style, cache, m, reasoning, heading, listed);
    if !Hits(cache, m, reasoning, heading) && |rows| <= MaxRows && Characters(rows) <= MaxCharacters {
      EvictsNoMoreThanNeeded(others, MaxRows - |rows|);
      dropped := |others| - |Evict(others, MaxRows - |rows|)|;
    }
  }

  lemma HitsMeans(style: Style, cache: seq<Cached>, m: Message, reasoning: Reasoning, heading: bool, listed: set<Message>)
    requires CacheOk(style, cache, listed)
    ensures Hits(cache, m, reasoning, heading)
            <==> exists c :: c in cache && c.message == m && c.reasoning == reasoning && c.heading == heading
    ensures Hits(cache, m, reasoning, heading) ==>
              cache[Find(cache, m).value] == Cached(m, style.width, reasoning, heading, Rows(style, m, reasoning, heading))
  {
    var at := Find(cache, m);
    if at.Some? {
      assert cache[at.value] in cache && EntryOk(style, cache[at.value], listed);
    }
    if c :| c in cache && c.message == m && c.reasoning == reasoning && c.heading == heading {
      var k :| 0 <= k < |cache| && cache[k] == c;
      assert k == at.value;
    }
  }

  /** An update keeps exactly the entries of the messages still listed, in their order. */
  lemma {:induction false} KeepListedExactly(a: seq<Cached>, b: seq<Cached>, listed: set<Message>)
    ensures KeepListed(a + b, listed) == KeepListed(a, listed) + KeepListed(b, listed)
    ensures forall c: Cached :: KeepListed([c], listed) == if c.message in listed then [c] else []
  {
    forall c: Cached
      ensures KeepListed([c], listed) == if c.message in listed then [c] else []
    {
      assert [c][..0] == [] && KeepListed([], listed) == [];
    }
    if b == [] {
      assert a + b == a;
    } else {
      assert (a + b)[..|a + b| - 1] == a + b[..|b| - 1];
      KeepListedExactly(a, b[..|b| - 1], listed);
    }
  }

  /** A range of rows has every row of the list whose place lies in it, in order. */
  lemma ClipMeans(rows: seq<Row>, from: int, to: int)
    ensures |Clip(rows, from, to)| == Max(0, Min(|rows|, to) - Max(0, from))
    ensures forall k :: 0 <= k < |Clip(rows, from, to)| ==> Clip(rows, from, to)[k] == rows[Max(0, from) + k]
  {
  }

  // ---------------------------------------------------------------- what the layout means

  /** A longer list lays out its prefix exactly as the prefix alone. */
  lemma {:induction false} BuildExtends(style: Style, messages: seq<Message>, k: nat)
    requires k <= |messages|
    ensures Build(style, messages)[..k] == Build(style, messages[..k])
  {
    if k < |messages| {
      BuildExtends(style, messages[..|messages| - 1], k);
      assert messages[..|messages| - 1][..k] == messages[..k];
      assert Build(style, messages)[..|messages| - 1] == Build(style, messages[..|messages| - 1]);
      assert Build(style, messages)[..k] == Build(style, messages)[..|messages| - 1][..k];
    } else {
      assert messages[..k] == messages;
    }
  }

  lemma BuildSnoc(style: Style, messages: seq<Message>, i: nat)
    requires i < |messages|
    ensures Build(style, messages[..i + 1]) == Build(style, messages[..i]) + [Lay(style, Build(style, messages[..i]), messages[i])]
  {
    assert messages[..i + 1][..i] == messages[..i];
  }

  /** One more message: the whole layout grows by exactly its segment. */
  lemma Appended(style: Style, messages: seq<Message>, i: nat, s: Segment)
    requires i < |messages|
    requires var before := Build(style, messages[..i]);
             s == Lay(style, before, messages[i]).(start := |Body(style, before)|)
    ensures var before, after := Build(style, messages[..i]), Build(style, messages[..i + 1]);
            && after == before + [s] && Seen(after) == s.seen
            && Offsets(after) == Offsets(before)[s.message.seqNo := s.start]
            && |Body(style, after)| == |Body(style, before)| + s.count
  {
    EndIsLength(style, messages[..i]);
    BuildSnoc(style, messages, i);
    BodySnoc(style, Build(style, messages[..i]), s);
  }

  lemma BodySnoc(style: Style, segs: seq<Segment>, s: Segment)
    ensures Body(style, segs + [s]) == Body(style, segs) + SegmentRows(style, s)
    ensures Offsets(segs + [s]) == Offsets(segs)[s.message.seqNo := s.start]
  {
    assert (segs + [s])[..|segs|] == segs;
  }

  /** Each segment is its message's, starts where the rows of all earlier ones end, and counts its own rows. */
  lemma {:induction false} SegmentsTile(style: Style, messages: seq<Message>, i: nat)
    requires i < |messages|
    ensures var segs := Build(style, messages);
            && segs[i].message == messages[i]
            && (segs[i].reasoning == style.reasoning <==> messages[i].seqNo !in style.overrides)
            && SegmentRows(style, segs[i]) == style.render(messages[i], style.width, segs[i].reasoning, segs[i].heading)
            && segs[i].start == |Body(style, segs[..i])| && segs[i].count == |SegmentRows(style, segs[i])|
            && Body(style, segs[..i + 1]) == Body(style, segs[..i]) + SegmentRows(style, segs[i])
  {
    BuildExtends(style, messages, i);
    BuildExtends(style, messages, i + 1);
    BuildSnoc(style, messages, i);
    var before := Build(style, messages[..i]);
    EndIsLength(style, messages[..i]);
    BodySnoc(style, before, Lay(style, before, messages[i]));
    assert Build(style, messages)[i] == Build(style, messages)[..i + 1][i];
  }

  lemma SegmentIsListed(style: Style, messages: seq<Message>, i: nat)
    requires i < |messages|
    ensures Build(style, messages)[i].message in messages
  {
    SegmentsTile(style, messages, i);
  }

  lemma {:induction false} EndIsLength(style: Style, messages: seq<Message>)
    ensures End(Build(style, messages)) == |Body(style, Build(style, messages))|
  {
    if messages != [] {
      var front := messages[..|messages| - 1];
      EndIsLength(style, front);
      BodySnoc(style, Build(style, front), Lay(style, Build(style, front), messages[|messages| - 1]));
    }
  }

  /** An assistant turn is already headed before message i: since the last operator message, an assistant message that
    * is not compact came. */
  predicate Headed(messages: seq<Message>, i: nat)
    requires i <= |messages|
  {
    exists j :: 0 <= j < i && messages[j].role.Assistant? && !messages[j].compact
                && forall k :: j < k < i ==> !messages[k].role.You?
  }

  lemma {:induction false} SeenIsHeaded(style: Style, messages: seq<Message>)
    ensures Seen(Build(style, messages)) <==> Headed(messages, |messages|)
  {
    if messages != [] {
      var n := |messages| - 1;
      SeenIsHeaded(style, messages[..n]);
      assert Headed(messages[..n], n) <==> Headed(messages, n);
      var last := messages[n];
      if last.role.Assistant? && !last.compact {
        assert Headed(messages, n + 1);
      } else if !last.role.You? && Headed(messages, n) {
        var j :| 0 <= j < n && messages[j].role.Assistant? && !messages[j].compact
                 && forall k :: j < k < n ==> !messages[k].role.You?;
        assert forall k :: j < k < n + 1 ==> !messages[k].role.You?;
      } else if Headed(messages, n + 1) {
        var j :| 0 <= j < n + 1 && messages[j].role.Assistant? && !messages[j].compact
                 && forall k :: j < k < n + 1 ==> !messages[k].role.You?;
        assert j != n && !messages[n].role.You? && Headed(messages, n);
      }
    }
  }

  /** Who carries a heading: everything but compact messages and assistant messages of a turn already headed. */
  lemma HeadingMeans(style: Style, messages: seq<Message>, i: nat)
    requires i < |messages|
    ensures Build(style, messages)[i].heading
            <==> !messages[i].compact && !(messages[i].role.Assistant? && Headed(messages, i))
  {
    BuildExtends(style, messages, i + 1);
    BuildSnoc(style, messages, i);
    SeenIsHeaded(style, messages[..i]);
    assert Build(style, messages)[i] == Build(style, messages)[..i + 1][i];
    assert Headed(messages[..i], i) <==> Headed(messages, i);
  }

  /** A sequence number leads to the first row of the last message that carries it. */
  lemma {:induction false} OffsetsMean(style: Style, messages: seq<Message>, i: nat)
    requires i < |messages| && forall k :: i < k < |messages| ==> messages[k].seqNo != messages[i].seqNo
    ensures messages[i].seqNo in Offsets(Build(style, messages))
    ensures Offsets(Build(style, messages))[messages[i].seqNo] == |Body(style, Build(style, messages)[..i])|
  {
    var n := |messages| - 1;
    var front := Build(style, messages[..n]);
    assert messages[..n + 1] == messages;
    BuildSnoc(style, messages, n);
    BodySnoc(style, front, Lay(style, front, messages[n]));
    SegmentsTile(style, messages, i);
    if i < n {
      OffsetsMean(style, messages[..n], i);
      assert Build(style, messages)[..i] == front[..i];
    }
  }

  // ---------------------------------------------------------------- clipping

  lemma ClipSplit(a: seq<Row>, b: seq<Row>, from: int, to: int)
    ensures Clip(a + b, from, to) == Clip(a, from, to) + Clip(b, Max(0, from - |a|), to - |a|)
  {
  }

  /** A range over the conversation and the live tail is its part of each, once it is cut to what exists. */
  lemma WindowIsClip(body: seq<Row>, live: seq<Row>, from: int, to: int)
    ensures var start, end := Max(0, from), Min(|body| + |live|, to);
            Clip(body + live, from, to)
            == if end <= start then []
               else Clip(body, start, end) + LivePart(live, |body|, start, end)
  {
    ClipSplit(body, live, from, to);
  }

  /** The live rows of a range, past the committed ones. */
  function LivePart(live: seq<Row>, committed: nat, from: int, to: int): seq<Row> {
    Clip(live, Max(0, from - committed), Max(0, to - committed))
  }

  /** A segment that ends before the range, or starts after it, adds nothing to it. */
  lemma ClipBeyond(a: seq<Row>, b: seq<Row>, from: int, to: int)
    ensures |a| <= from ==> Clip(a, from, to) == []
    ensures to <= |a| ==> Clip(a + b, from, to) == Clip(a, from, to)
  {
  }

  lemma {:induction false} BodySplit(style: Style, segs: seq<Segment>, i: nat)
    requires i <= |segs|
    ensures exists rest :: Body(style, segs) == Body(style, segs[..i]) + rest
  {
    if i < |segs| {
      var n := |segs| - 1;
      BodySplit(style, segs[..n], i);
      assert segs[..n][..i] == segs[..i];
      var rest :| Body(style, segs[..n]) == Body(style, segs[..i]) + rest;
      Regroup(Body(style, segs[..i]), rest, SegmentRows(style, segs[n]), rest + SegmentRows(style, segs[n]));
    } else {
      assert segs[..i] == segs && Body(style, segs) == Body(style, segs) + [];
    }
  }

  /** What one segment shows of a range. */
  function PartOf(style: Style, s: Segment, from: int, to: int): seq<Row> {
    Clip(SegmentRows(style, s), Max(0, from - s.start), to - s.start)
  }

  /** What the first n segments show of a range, each clipped on its own. */
  function Shown(style: Style, segs: seq<Segment>, n: nat, from: int, to: int): seq<Row>
    requires n <= |segs|
  {
    if n == 0 then [] else Shown(style, segs, n - 1, from, to) + PartOf(style, segs[n - 1], from, to)
  }

  lemma ShownSnoc(style: Style, segs: seq<Segment>, n: nat, from: int, to: int)
    requires n < |segs|
    ensures Shown(style, segs, n + 1, from, to) == Shown(style, segs, n, from, to) + PartOf(style, segs[n], from, to)
  {
  }

  /** Every segment starts where the rows of the earlier ones end, and counts its own. */
  ghost predicate Tiled(style: Style, segs: seq<Segment>) {
    forall i :: 0 <= i < |segs| ==> TiledAt(style, segs, i)
  }

  ghost predicate TiledAt(style: Style, segs: seq<Segment>, i: nat)
    requires i < |segs|
  {
    && segs[i].start == |Body(style, segs[..i])|
    && segs[i].start + segs[i].count == |Body(style, segs[..i + 1])|
  }

  lemma BuildIsTiled(style: Style, messages: seq<Message>)
    ensures Tiled(style, Build(style, messages))
  {
    forall i | 0 <= i < |messages|
      ensures TiledAt(style, Build(style, messages), i)
    {
      SegmentsTile(style, messages, i);
    }
  }

  /** Clipping segment by segment is clipping the whole. */
  lemma {:induction false} ShownIsClip(style: Style, segs: seq<Segment>, n: nat, from: int, to: int)
    requires n <= |segs| && Tiled(style, segs)
    ensures Shown(style, segs, n, from, to) == Clip(Body(style, segs[..n]), from, to)
  {
    if n > 0 {
      ShownIsClip(style, segs, n - 1, from, to);
      ShownNext(style, segs, n - 1, from, to);
    }
  }

  lemma ShownNext(style: Style, segs: seq<Segment>, i: nat, from: int, to: int)
    requires i < |segs| && TiledAt(style, segs, i)
    ensures Clip(Body(style, segs[..i + 1]), from, to)
            == Clip(Body(style, segs[..i]), from, to)
               + Clip(SegmentRows(style, segs[i]), Max(0, from - segs[i].start), to - segs[i].start)
  {
    assert segs[..i + 1] == segs[..i] + [segs[i]];
    BodySnoc(style, segs[..i], segs[i]);
    ClipSplit(Body(style, segs[..i]), SegmentRows(style, segs[i]), from, to);
  }

  /** A segment that starts past the range shows that nothing more belongs to it. */
  lemma ClipDone(style: Style, segs: seq<Segment>, i: nat, from: int, to: int)
    requires i <= |segs| && Tiled(style, segs) && (i < |segs| ==> segs[i].start >= to)
    ensures Clip(Body(style, segs), from, to) == Shown(style, segs, i, from, to)
  {
    ShownIsClip(style, segs, i, from, to);
    if i == |segs| {
      assert segs[..i] == segs;
    } else {
      BodySplit(style, segs, i);
      var rest :| Body(style, segs) == Body(style, segs[..i]) + rest;
      assert TiledAt(style, segs, i);
      ClipBeyond(Body(style, segs[..i]), rest, from, to);
    }
  }

  // ---------------------------------------------------------------- the index object

  class LayoutIndex {
    const style: Style
    var messages: seq<Message>
    var segments: seq<Segment>
    var offsets: map<int, nat>
    var length: nat
    var cache: seq<Cached>
    var cacheSize: nat
    var heights: map<Message, Height>

    constructor (style: Style)
      ensures Valid() && messages == [] && this.style == style
    {
      this.style := style;
      messages, segments, offsets, length := [], [], map[], 0;
      cache, cacheSize, heights := [], 0, map[];
    }

    ghost predicate CacheValid(listed: set<Message>)
      reads this
    {
      CacheOk(style, cache, listed) && cacheSize == Size(cache) <= MaxRows
    }

    ghost predicate HeightsValid()
      reads this
    {
      forall m :: m in heights ==> HeightOk(m)
    }

    predicate HeightOk(m: Message)
      reads this
      requires m in heights
    {
      var h := heights[m];
      h.width == style.width && h.count == |Rows(style, m, h.reasoning, h.heading)|
    }

    /** The index agrees with one built from scratch for its current list. */
    ghost predicate Valid()
      reads this
    {
      && segments == Build(style, messages) && offsets == Offsets(segments) && length == |Body(style, segments)|
      && CacheValid(Among(messages)) && HeightsValid()
    }

    /** The rows of one message, from the cache or rendered. */
    method RowsOf(m: Message, reasoning: Reasoning, heading: bool, ghost listed: set<Message>) returns (rows: seq<Row>)
      requires CacheValid(listed) && m in listed
      modifies this`cache, this`cacheSize
      ensures CacheValid(listed) && cache == Asked(style, old(cache), m, reasoning, heading)
      ensures rows == Rows(style, m, reasoning, heading)
    {
      AskedIsOk(style, cache, m, reasoning, heading, listed);
      var at := Find(cache, m);
      assert at.Some? ==> EntryOk(style, cache[at.value], listed);
      if at.Some? && cache[at.value].width == style.width && cache[at.value].reasoning == reasoning
         && cache[at.value].heading == heading {
        rows := cache[at.value].rows;
        SizeWithout(cache, at.value);
        SizeOfSplit(Without(cache, at.value), [cache[at.value]]);
        cache := Without(cache, at.value) + [cache[at.value]];
      } else {
        rows := style.render(m, style.width, reasoning, heading);
        Store(Cached(m, style.width, reasoning, heading, rows));
      }
    }

    /** Store rendered rows in place of the message's older ones, when they are small enough. */
    method Store(entry: Cached)
      requires cacheSize == Size(cache)
      modifies this`cache, this`cacheSize
      ensures cache == Stored(Others(old(cache), entry.message), entry) && cacheSize == Size(cache)
    {
      var at := Find(cache, entry.message);
      if at.Some? {
        SizeWithout(cache, at.value);
        cacheSize := cacheSize - |cache[at.value].rows|;
        cache := Without(cache, at.value);
      }
      if |entry.rows| <= MaxRows && Characters(entry.rows) <= MaxCharacters {
        MakeRoom(|entry.rows|);
        SizeOfSplit(cache, [entry]);
        cache := cache + [entry];
        cacheSize := cacheSize + |entry.rows|;
      }
    }

    /** Drop the oldest entries until this many more rows fit. The cache is never empty when one is dropped. */
    method MakeRoom(rows: nat)
      requires cacheSize == Size(cache) && rows <= MaxRows
      modifies this`cache, this`cacheSize
      ensures cache == Evict(old(cache), MaxRows - rows) && cacheSize == Size(cache)
    {
      while cacheSize + rows > MaxRows
        invariant cacheSize == Size(cache) && Evict(cache, MaxRows - rows) == Evict(old(cache), MaxRows - rows)
        decreases |cache|
      {
        cacheSize := cacheSize - |cache[0].rows|;
        cache := cache[1..];
      }
    }

    /** Move the index to another message list, keeping what the two lists share at the front. */
    method Update(next: seq<Message>)
      requires Valid()
      modifies this
      ensures Valid() && messages == next
    {
      var prefix := 0;
      while prefix < |messages| && prefix < |next| && messages[prefix] == next[prefix]
        invariant prefix <= |messages| && prefix <= |next| && messages[..prefix] == next[..prefix]
      {
        prefix := prefix + 1;
      }
      BuildExtends(style, messages, prefix);
      if prefix < |messages| {
        Shrink(prefix, next);
      } else {
        assert messages[..prefix] == messages;
        CacheGrows(next);
      }
      Extend(prefix, next);
    }

    /** The index agrees with one built from scratch for the first n messages of next. */
    ghost predicate Reaches(next: seq<Message>, n: nat)
      reads this
      requires n <= |next|
    {
      && segments == Build(style, next[..n]) && offsets == Offsets(segments) && length == |Body(style, segments)|
      && CacheValid(Among(next)) && HeightsValid()
    }

    /** Lay out the messages from prefix on. */
    method Extend(prefix: nat, next: seq<Message>)
      requires prefix <= |next| && Reaches(next, prefix)
      modifies this
      ensures Valid() && messages == next
    {
      var seen := Seen(segments);
      for i := prefix to |next|
        invariant Reaches(next, i) && seen == Seen(segments)
      {
        seen := Append(next[i], seen, next, i);
      }
      assert next[..|next|] == next;
      messages := next;
    }

    /** Lay out one message after the others. */
    method Append(m: Message, before: bool, ghost next: seq<Message>, ghost i: nat) returns (seen: bool)
      requires i < |next| && m == next[i] && Reaches(next, i) && before == Seen(segments)
      modifies this
      ensures Reaches(next, i + 1) && seen == Seen(segments)
    {
      seen := before && !m.role.You?;
      var heading := !m.compact && (!m.role.Assistant? || !seen);
      if m.role.Assistant? && heading {
        seen := true;
      }
      var reasoning := FoldMode(style, m);
      var count := Count(m, reasoning, heading, next);
      var segment := Segment(m, length, count, reasoning, heading, seen);
      Appended(style, next, i, segment);
      offsets := offsets[m.seqNo := length];
      segments := segments + [segment];
      length := length + count;
    }

    lemma CacheGrows(next: seq<Message>)
      requires CacheValid(Among(messages)) && |messages| <= |next| && next[..|messages|] == messages
      ensures CacheValid(Among(next))
    {
      forall k | 0 <= k < |cache|
        ensures EntryOk(style, cache[k], Among(next))
      {
        assert EntryOk(style, cache[k], Among(messages)) && forall m :: m in messages ==> m in next[..|messages|];
      }
    }

    /** Forget what is not listed any more, and every segment from the first difference on. */
    method Shrink(prefix: nat, next: seq<Message>)
      requires Valid() && prefix < |messages| && prefix <= |next| && messages[..prefix] == next[..prefix]
      modifies this
      ensures Reaches(next, prefix)
    {
      KeepListedIsOk(style, cache, Among(messages), Among(next));
      BuildExtends(style, messages, prefix);
      EndIsLength(style, messages[..prefix]);
      cache := KeepListed(cache, Among(next));
      cacheSize := Size(cache);
      segments := segments[..prefix];
      offsets := Offsets(segments);
      length := End(segments);
    }

    /** The measured height of a message, rendered only when it was never measured in this form. */
    method Count(m: Message, reasoning: Reasoning, heading: bool, ghost next: seq<Message>) returns (count: nat)
      requires CacheValid(Among(next)) && HeightsValid() && m in next
      modifies this`cache, this`cacheSize, this`heights
      ensures CacheValid(Among(next)) && HeightsValid() && count == |Rows(style, m, reasoning, heading)|
    {
      if m in heights && heights[m].width == style.width && heights[m].reasoning == reasoning && heights[m].heading == heading {
        assert HeightOk(m);
        count := heights[m].count;
      } else {
        var rows := RowsOf(m, reasoning, heading, Among(next));
        count := |rows|;
      }
      ghost var measured := heights;
      heights := heights[m := Height(style.width, reasoning, heading, count)];
    }

    /** The first segment that reaches past a row, found by halving. */
    method FirstPast(from: int) returns (lo: nat)
      requires Tiled(style, segments)
      ensures lo <= |segments| && forall to :: Shown(style, segments, lo, from, to) == []
    {
      lo := 0;
      var hi := |segments|;
      while lo < hi
        invariant 0 <= lo <= hi <= |segments|
        invariant lo == 0 || |Body(style, segments[..lo])| <= from
      {
        var middle := (lo + hi) / 2;
        assert TiledAt(style, segments, middle);
        if segments[middle].start + segments[middle].count <= from {
          lo := middle + 1;
        } else {
          hi := middle;
        }
      }
      forall to
        ensures Shown(style, segments, lo, from, to) == []
      {
        ShownIsClip(style, segments, lo, from, to);
        ClipBeyond(Body(style, segments[..lo]), [], from, to);
      }
    }

    /** The rows inside [from, to), read through the cache. */
    method Viewport(from: int, to: int) returns (rows: seq<Row>)
      requires Valid()
      modifies this`cache, this`cacheSize
      ensures Valid() && rows == Clip(Body(style, segments), from, to)
    {
      BuildIsTiled(style, messages);
      var lo := FirstPast(from);
      forall k | 0 <= k < |segments|
        ensures segments[k].message in Among(messages)
      {
        SegmentIsListed(style, messages, k);
      }
      var stop;
      rows, stop := Collect(lo, from, to);
      ClipDone(style, segments, stop, from, to);
    }

    /** Read the segments from lo up to the first one past the range. */
    method Collect(lo: nat, from: int, to: int) returns (rows: seq<Row>, stop: nat)
      requires lo <= |segments| && Shown(style, segments, lo, from, to) == []
      requires CacheValid(Among(messages)) && forall k :: 0 <= k < |segments| ==> segments[k].message in Among(messages)
      modifies this`cache, this`cacheSize
      ensures CacheValid(Among(messages)) && stop <= |segments| && (stop < |segments| ==> segments[stop].start >= to)
      ensures rows == Shown(style, segments, stop, from, to)
    {
      rows, stop := [], lo;
      var segs := segments;
      while stop < |segs| && segs[stop].start < to
        invariant stop <= |segs| && CacheValid(Among(messages))
        invariant rows == Shown(style, segs, stop, from, to)
      {
        var part := Part(segs[stop], from, to);
        ShownSnoc(style, segs, stop, from, to);
        rows := rows + part;
        stop := stop + 1;
      }
    }

    /** The part of one segment inside the range. */
    method Part(s: Segment, from: int, to: int) returns (rows: seq<Row>)
      requires CacheValid(Among(messages)) && s.message in Among(messages)
      modifies this`cache, this`cacheSize
      ensures CacheValid(Among(messages)) && rows == PartOf(style, s, from, to)
    {
      var found := RowsOf(s.message, s.reasoning, s.heading, Among(messages));
      rows := Clip(found, Max(0, from - s.start), to - s.start);
    }

    /** The rows inside [from, to) of the conversation followed by the live tail. */
    method Window(from: int, to: int, streamed: seq<Row>) returns (rows: seq<Row>)
      requires Valid()
      modifies this`cache, this`cacheSize
      ensures Valid() && rows == Clip(Body(style, segments) + streamed, from, to)
    {
      var start, end := Max(0, from), Min(length + |streamed|, to);
      if end <= start {
        WindowIsClip(Body(style, segments), streamed, from, to);
        return [];
      }
      rows := Viewport(start, end);
      WindowIsClip(Body(style, segments), streamed, from, to);
      rows := rows + LivePart(streamed, length, start, end);
    }

    method Dispose()
      modifies this
      ensures Valid() && messages == [] && cache == []
    {
      messages, segments, offsets, length := [], [], map[], 0;
      cache, cacheSize, heights := [], 0, map[];
    }
  }
}
