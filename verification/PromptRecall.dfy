/** Which prompts enter recall (src/session/info.ts:156-261): what the client sent itself stays out, and what the operator
  * typed goes in once. */
module PromptRecall {
  import opened Collections
  import opened PromptIndex

  predicate Has(entries: seq<Entry>, text: string) {
    exists i :: 0 <= i < |entries| && entries[i].text == text
  }

  lemma HasSnoc(entries: seq<Entry>, e: Entry, text: string)
    ensures Has(entries + [e], text) <==> Has(entries, text) || e.text == text
  {
    var all := entries + [e];
    assert all[|entries|] == e && forall i :: 0 <= i < |entries| ==> all[i] == entries[i];
    if i :| 0 <= i < |entries| && entries[i].text == text {
      assert all[i].text == text;
    }
  }

  lemma HasJoin(a: seq<Entry>, b: seq<Entry>, text: string)
    ensures Has(a + b, text) <==> Has(a, text) || Has(b, text)
  {
    var all := a + b;
    if i :| 0 <= i < |a| && a[i].text == text {
      assert all[i].text == text;
    }
    if i :| 0 <= i < |b| && b[i].text == text {
      assert all[|a| + i].text == text;
    }
  }

  lemma HasDrop(entries: seq<Entry>, n: nat, text: string)
    requires n <= |entries| && Has(entries[n..], text)
    ensures Has(entries, text)
  {
    var i :| 0 <= i < |entries[n..]| && entries[n..][i].text == text;
    assert entries[n + i].text == text;
  }

  // ---------------------------------------------------------------- one prompt

  /** A text that the composer can recall: something, and not too long. */
  predicate Recallable(text: string) {
    0 < |text| <= 131072
  }

  /** A durable prompt changes the index exactly when the client did not send it itself and it can be recalled: it becomes
    * the newest entry, in place of the newest when that has its text, and behind it otherwise; what exceeds the budgets goes
    * from the other end. */
  lemma DurableEnters(s: Index, limits: Limits, seqNo: int, text: string)
    ensures var n, e := Push(s, limits, seqNo, text), Entry(seqNo, text, true);
            if text in s.internal || !Recallable(text) then n == s
            else if s.entries != [] && s.entries[|s.entries| - 1].text == text
            then n.entries == s.entries[..|s.entries| - 1] + [e]
            else n.entries == (s.entries + [e])[Excess(s.entries + [e], limits)..]
  {
    if s.entries != [] {
      assert s.entries[|s.entries| - 1 := Entry(seqNo, text, true)] == s.entries[..|s.entries| - 1] + [Entry(seqNo, text, true)];
    }
  }

  /** A command enters likewise, but never in place of another. */
  lemma CommandEnters(s: Index, limits: Limits, text: string)
    ensures var n, e := Record(s, limits, text), Entry(s.newest, text, false);
            if text in s.internal || !Recallable(text) || (s.entries != [] && s.entries[|s.entries| - 1].text == text)
            then n == s else n.entries == (s.entries + [e])[Excess(s.entries + [e], limits)..]
  {
  }

  /** Of a page exactly the prompts enter in front that come before every durable entry, are the first of their sequence
    * that could, were not sent by the client and can be recalled. */
  lemma {:induction false} PageEnters(s: Index, flatten: string -> string, prompts: seq<Prompt>, seqNo: int)
    ensures var oldest := OldestDurable(s.entries);
            HasSeq(Older(s, flatten, prompts), seqNo)
            <==> (oldest.Some? ==> seqNo < oldest.value)
                 && exists i :: 0 <= i < |prompts| && prompts[i].seqNo == seqNo && MayEnter(s, flatten, prompts[i])
  {
    if prompts != [] {
      var front, last := prompts[..|prompts| - 1], prompts[|prompts| - 1];
      PageEnters(s, flatten, front, seqNo);
      HasSeqGrows(Older(s, flatten, front), Entry(last.seqNo, flatten(last.text), true), seqNo);
      assert prompts == front + [last];
      MayEnterSnoc(s, flatten, front, last, seqNo);
    }
  }

  predicate MayEnter(s: Index, flatten: string -> string, p: Prompt) {
    flatten(p.text) !in s.internal && Recallable(flatten(p.text))
  }

  lemma MayEnterSnoc(s: Index, flatten: string -> string, front: seq<Prompt>, last: Prompt, seqNo: int)
    ensures var prompts := front + [last];
            (exists i :: 0 <= i < |prompts| && prompts[i].seqNo == seqNo && MayEnter(s, flatten, prompts[i]))
            <==> (exists i :: 0 <= i < |front| && front[i].seqNo == seqNo && MayEnter(s, flatten, front[i]))
                 || (last.seqNo == seqNo && MayEnter(s, flatten, last))
  {
    var prompts := front + [last];
    assert prompts[|front|] == last && forall i :: 0 <= i < |front| ==> prompts[i] == front[i];
    if i :| 0 <= i < |front| && front[i].seqNo == seqNo && MayEnter(s, flatten, front[i]) {
      assert prompts[i] == front[i];
    }
  }

  lemma HasSeqGrows(entries: seq<Entry>, e: Entry, seqNo: int)
    ensures HasSeq(entries + [e], seqNo) <==> HasSeq(entries, seqNo) || e.seqNo == seqNo
  {
    var all := entries + [e];
    assert all[|entries|] == e;
    if i :| 0 <= i < |entries| && entries[i].seqNo == seqNo {
      assert all[i] == entries[i];
    }
  }

  // ---------------------------------------------------------------- what the client sent itself

  /** The text is the newest of some texts, or at most this many before it. */
  predicate SentWithin(texts: seq<string>, text: string, ago: nat) {
    && texts != []
    && (texts[|texts| - 1] == text || (ago > 0 && SentWithin(texts[..|texts| - 1], text, ago - 1)))
  }

  lemma WithinSnoc(texts: seq<string>, last: string, text: string, ago: nat)
    ensures SentWithin(texts + [last], text, ago) <==> last == text || (ago > 0 && SentWithin(texts, text, ago - 1))
  {
    assert (texts + [last])[..|texts|] == texts;
  }

  lemma {:induction false} Longer(texts: seq<string>, text: string, ago: nat, more: nat)
    requires SentWithin(texts, text, ago) && ago <= more
    ensures SentWithin(texts, text, more)
  {
    if texts[|texts| - 1] != text {
      Longer(texts[..|texts| - 1], text, ago - 1, more - 1);
    }
  }

  lemma {:induction false} WithinIsIn(texts: seq<string>, text: string, ago: nat)
    requires SentWithin(texts, text, ago)
    ensures text in texts
  {
    if texts[|texts| - 1] != text {
      WithinIsIn(texts[..|texts| - 1], text, ago - 1);
    }
  }

  lemma {:induction false} RemoveKeeps(texts: seq<string>, other: string, text: string, ago: nat)
    requires SentWithin(texts, text, ago) && text != other
    ensures SentWithin(Remove(texts, other), text, ago)
  {
    var front, last := texts[..|texts| - 1], texts[|texts| - 1];
    WithinSnoc(Remove(front, other), last, text, ago);
    if last != text {
      RemoveKeeps(front, other, text, ago - 1);
      Longer(Remove(front, other), text, ago - 1, ago);
    }
  }

  /** Dropping the oldest texts loses none that is new enough. */
  lemma {:induction false} DropKeeps(texts: seq<string>, n: nat, text: string, ago: nat)
    requires SentWithin(texts, text, ago) && n + ago < |texts|
    ensures SentWithin(texts[n..], text, ago)
  {
    var front, last := texts[..|texts| - 1], texts[|texts| - 1];
    assert texts[n..] == front[n..] + [last];
    WithinSnoc(front[n..], last, text, ago);
    if last != text {
      DropKeeps(front, n, text, ago - 1);
    }
  }

  function Capped(texts: seq<string>): seq<string> {
    if |texts| > MaxInternal then texts[|texts| - MaxInternal..] else texts
  }

  lemma CapKeeps(texts: seq<string>, text: string, ago: nat)
    requires SentWithin(texts, text, ago) && ago < MaxInternal
    ensures SentWithin(Capped(texts), text, ago)
  {
    if |texts| > MaxInternal {
      DropKeeps(texts, |texts| - MaxInternal, text, ago);
    }
  }

  lemma SentIsLast(texts: seq<string>, sent: string, text: string, ago: nat)
    ensures SentWithin(Remove(texts, sent) + [sent], sent, 0)
    ensures SentWithin(texts, text, ago) ==> SentWithin(Remove(texts, sent) + [sent], text, ago + 1)
  {
    WithinSnoc(Remove(texts, sent), sent, sent, 0);
    WithinSnoc(Remove(texts, sent), sent, text, ago + 1);
    if SentWithin(texts, text, ago) && text != sent {
      RemoveKeeps(texts, sent, text, ago);
    }
  }

  /** Sending a text remembers it as the newest. */
  lemma SendIsNewest(s: Index, sent: string)
    requires sent != ""
    ensures SentWithin(Suppress(s, sent).internal, sent, 0)
  {
    SentIsLast(s.internal, sent, sent, 0);
    CapKeeps(Remove(s.internal, sent) + [sent], sent, 0);
  }

  /** Another one stays remembered for as long as fewer than all places were taken since. */
  lemma SendRemembers(s: Index, sent: string, text: string, ago: nat)
    requires sent != "" && SentWithin(s.internal, text, ago) && ago + 1 < MaxInternal
    ensures SentWithin(Suppress(s, sent).internal, text, ago + 1)
  {
    SentIsLast(s.internal, sent, text, ago);
    CapKeeps(Remove(s.internal, sent) + [sent], text, ago + 1);
  }

  /** How many texts of its own the client sends in some events. */
  function Sends(events: seq<Event>): nat {
    if events == [] then 0 else Sends(events[..|events| - 1]) + if events[|events| - 1].Suppresses? then 1 else 0
  }

  lemma OthersKeepInternal(s: Index, limits: Limits, flatten: string -> string, e: Event)
    requires !e.Suppresses?
    ensures Step(s, limits, flatten, e).internal == s.internal
  {
    if e.Folds? {
      PushAllKeepsInternal(s, limits, flatten, e.prompts);
    }
  }

  lemma {:induction false} PushAllKeepsInternal(s: Index, limits: Limits, flatten: string -> string, prompts: seq<Prompt>)
    ensures PushAll(s, limits, flatten, prompts).internal == s.internal
  {
    if prompts != [] {
      PushAllKeepsInternal(s, limits, flatten, prompts[..|prompts| - 1]);
    }
  }

  /** An entry with a text the client sent was there before. */
  lemma PushLetsNoneIn(s: Index, limits: Limits, seqNo: int, text: string, sent: string)
    requires sent in s.internal && Has(Push(s, limits, seqNo, text).entries, sent)
    ensures Has(s.entries, sent)
  {
    DurableEnters(s, limits, seqNo, text);
    var e := Entry(seqNo, text, true);
    if text !in s.internal && Recallable(text) {
      if s.entries != [] && s.entries[|s.entries| - 1].text == text {
        HasSnoc(s.entries[..|s.entries| - 1], e, sent);
        HasSnoc(s.entries[..|s.entries| - 1], s.entries[|s.entries| - 1], sent);
        assert s.entries == s.entries[..|s.entries| - 1] + [s.entries[|s.entries| - 1]];
      } else {
        HasDrop(s.entries + [e], Excess(s.entries + [e], limits), sent);
        HasSnoc(s.entries, e, sent);
      }
    }
  }

  lemma {:induction false} PushAllLetsNoneIn(s: Index, limits: Limits, flatten: string -> string, prompts: seq<Prompt>, sent: string)
    requires sent in s.internal && Has(PushAll(s, limits, flatten, prompts).entries, sent)
    ensures Has(s.entries, sent)
  {
    if prompts != [] {
      var front, last := prompts[..|prompts| - 1], prompts[|prompts| - 1];
      PushAllKeepsInternal(s, limits, flatten, front);
      PushLetsNoneIn(PushAll(s, limits, flatten, front), limits, last.seqNo, flatten(last.text), sent);
      PushAllLetsNoneIn(s, limits, flatten, front, sent);
    }
  }

  lemma {:induction false} OlderHasNone(s: Index, flatten: string -> string, prompts: seq<Prompt>, sent: string)
    requires sent in s.internal
    ensures !Has(Older(s, flatten, prompts), sent)
  {
    if prompts != [] {
      var front, last := prompts[..|prompts| - 1], prompts[|prompts| - 1];
      OlderHasNone(s, flatten, front, sent);
      HasSnoc(Older(s, flatten, front), Entry(last.seqNo, flatten(last.text), true), sent);
    }
  }

  lemma StepLetsNoneIn(s: Index, limits: Limits, flatten: string -> string, e: Event, sent: string)
    requires sent in s.internal && Has(Step(s, limits, flatten, e).entries, sent)
    ensures Has(s.entries, sent)
  {
    match e
    case Folds(prompts, through) => PushAllLetsNoneIn(s, limits, flatten, prompts, sent);
    case Records(text) =>
      CommandEnters(s, limits, flatten(text));
      var entry := Entry(s.newest, flatten(text), false);
      if Record(s, limits, flatten(text)) != s {
        HasDrop(s.entries + [entry], Excess(s.entries + [entry], limits), sent);
        HasSnoc(s.entries, entry, sent);
      }
    case Prepends(prompts) =>
      OlderHasNone(s, flatten, prompts, sent);
      HasJoin(Older(s, flatten, prompts), s.entries, sent);
    case Settles => HasDrop(s.entries, Excess(s.entries, limits), sent);
    case _ =>
  }

  lemma RunNext(limits: Limits, flatten: string -> string, events: seq<Event>, e: Event)
    ensures Run(limits, flatten, events + [e]) == Step(Run(limits, flatten, events), limits, flatten, e)
  {
    var all := events + [e];
    assert all[..|events|] == events && all[|all| - 1] == e;
  }

  /** A text the client sent is remembered for as long as it sent fewer than all places of others since. */
  lemma {:induction false} SentIsRemembered(limits: Limits, flatten: string -> string, sent: seq<Event>, text: string,
                                            after: seq<Event>)
    requires SentWithin(Run(limits, flatten, sent).internal, text, 0) && Sends(after) < MaxInternal
    ensures SentWithin(Run(limits, flatten, sent + after).internal, text, Sends(after))
  {
    if after == [] {
      assert sent + after == sent;
    } else {
      var front, e := after[..|after| - 1], after[|after| - 1];
      assert sent + after == (sent + front) + [e];
      RunNext(limits, flatten, sent + front, e);
      SentIsRemembered(limits, flatten, sent, text, front);
      StepRemembers(Run(limits, flatten, sent + front), limits, flatten, e, text, Sends(front));
    }
  }

  lemma StepRemembers(s: Index, limits: Limits, flatten: string -> string, e: Event, text: string, ago: nat)
    requires SentWithin(s.internal, text, ago) && (e.Suppresses? ==> ago + 1 < MaxInternal)
    ensures SentWithin(Step(s, limits, flatten, e).internal, text, if e.Suppresses? then ago + 1 else ago)
  {
    if !e.Suppresses? {
      OthersKeepInternal(s, limits, flatten, e);
    } else if flatten(e.text) == "" {
      Longer(s.internal, text, ago, ago + 1);
    } else {
      SendRemembers(s, flatten(e.text), text, ago);
    }
  }

  lemma {:induction false} RememberedStaysOut(limits: Limits, flatten: string -> string, sent: seq<Event>, text: string,
                                              after: seq<Event>)
    requires SentWithin(Run(limits, flatten, sent).internal, text, 0) && Sends(after) < MaxInternal
    requires !Has(Run(limits, flatten, sent).entries, text)
    ensures !Has(Run(limits, flatten, sent + after).entries, text)
  {
    if after == [] {
      assert sent + after == sent;
    } else {
      var front, e := after[..|after| - 1], after[|after| - 1];
      assert sent + after == (sent + front) + [e];
      RunNext(limits, flatten, sent + front, e);
      RememberedStaysOut(limits, flatten, sent, text, front);
      SentIsRemembered(limits, flatten, sent, text, front);
      WithinIsIn(Run(limits, flatten, sent + front).internal, text, Sends(front));
      NoneGetsIn(Run(limits, flatten, sent + front), limits, flatten, e, text);
    }
  }

  lemma NoneGetsIn(s: Index, limits: Limits, flatten: string -> string, e: Event, sent: string)
    requires sent in s.internal && !Has(s.entries, sent)
    ensures !Has(Step(s, limits, flatten, e).entries, sent)
  {
    if Has(Step(s, limits, flatten, e).entries, sent) {
      StepLetsNoneIn(s, limits, flatten, e, sent);
    }
  }

  /** So a prompt the client sent never enters recall: if no entry had its text when it was sent, none has it afterwards,
    * whatever is folded, recorded or paged, for as long as the client sends fewer than all places of others. */
  lemma SentStaysOut(limits: Limits, flatten: string -> string, before: seq<Event>, text: string, after: seq<Event>)
    requires flatten(text) != "" && Sends(after) < 512
    requires !Has(Run(limits, flatten, before).entries, flatten(text))
    ensures !Has(Run(limits, flatten, before + [Suppresses(text)] + after).entries, flatten(text))
  {
    var sent := before + [Suppresses(text)];
    RunNext(limits, flatten, before, Suppresses(text));
    SendIsNewest(Run(limits, flatten, before), flatten(text));
    RememberedStaysOut(limits, flatten, sent, flatten(text), after);
  }

  // ---------------------------------------------------------------- what the client sent is a set

  predicate NoRepeats(texts: seq<string>) {
    forall i, j :: 0 <= i < j < |texts| ==> texts[i] != texts[j]
  }

  lemma {:induction false} RemoveIsIn(texts: seq<string>, text: string, other: string)
    ensures other in Remove(texts, text) <==> other in texts && other != text
  {
    if texts != [] {
      RemoveIsIn(texts[..|texts| - 1], text, other);
      assert texts == texts[..|texts| - 1] + [texts[|texts| - 1]];
    }
  }

  lemma {:induction false} RemoveLeavesNone(texts: seq<string>, text: string)
    requires NoRepeats(texts)
    ensures NoRepeats(Remove(texts, text))
  {
    if texts != [] {
      var front, last := texts[..|texts| - 1], texts[|texts| - 1];
      RemoveLeavesNone(front, text);
      RemoveIsIn(front, text, last);
    }
  }

  lemma SendKeepsNoRepeats(s: Index, sent: string)
    requires NoRepeats(s.internal)
    ensures NoRepeats(Suppress(s, sent).internal) && |Suppress(s, sent).internal| <= Max(MaxInternal, |s.internal|)
  {
    RemoveLeavesNone(s.internal, sent);
    RemoveIsIn(s.internal, sent, sent);
    RemoveShrinks(s.internal, sent);
  }

  /** In every run each text the client sent is remembered once, so a repeated one takes no second place. */
  lemma {:induction false} EachSentOnce(limits: Limits, flatten: string -> string, events: seq<Event>)
    ensures NoRepeats(Run(limits, flatten, events).internal) && |Run(limits, flatten, events).internal| <= 512
  {
    if events != [] {
      var front, e := events[..|events| - 1], events[|events| - 1];
      EachSentOnce(limits, flatten, front);
      if e.Suppresses? {
        SendKeepsNoRepeats(Run(limits, flatten, front), flatten(e.text));
      } else {
        OthersKeepInternal(Run(limits, flatten, front), limits, flatten, e);
      }
    }
  }

  // ---------------------------------------------------------------- what is claimed to be complete

  /** How many of the prompts of a fold join as new entries. */
  function Joining(s: Index, limits: Limits, flatten: string -> string, prompts: seq<Prompt>): nat {
    if prompts == [] then 0
    else
      var before, text := PushAll(s, limits, flatten, prompts[..|prompts| - 1]), flatten(prompts[|prompts| - 1].text);
      Joining(s, limits, flatten, prompts[..|prompts| - 1])
      + if Enters(before, text) && !Repeats(before, text) then 1 else 0
  }

  /** How many entries an event adds. */
  function Joins(s: Index, limits: Limits, flatten: string -> string, e: Event): nat {
    match e
    case Folds(prompts, _) => Joining(s, limits, flatten, prompts)
    case Records(text) => if Enters(s, flatten(text)) && !Repeats(s, flatten(text)) then 1 else 0
    case Prepends(prompts) => |Older(s, flatten, prompts)|
    case _ => 0
  }

  /** The index holds `n` entries where it would hold `all` with none dropped. */
  predicate Sheds(s: Index, n: Index, all: nat) {
    && |n.entries| <= all && (n.shed <==> s.shed || |n.entries| < all)
    && (n.complete <==> s.complete && |n.entries| == all)
  }

  lemma PushSheds(s: Index, limits: Limits, seqNo: int, text: string)
    ensures Sheds(s, Push(s, limits, seqNo, text), |s.entries| + if Enters(s, text) && !Repeats(s, text) then 1 else 0)
  {
  }

  lemma ShedsChain(s: Index, m: Index, n: Index, first: nat, second: nat)
    requires Sheds(s, m, |s.entries| + first) && Sheds(m, n, |m.entries| + second)
    ensures Sheds(s, n, |s.entries| + (first + second))
  {
  }

  lemma {:induction false} FoldSheds(s: Index, limits: Limits, flatten: string -> string, prompts: seq<Prompt>)
    ensures Sheds(s, PushAll(s, limits, flatten, prompts), |s.entries| + Joining(s, limits, flatten, prompts))
  {
    if prompts != [] {
      var front, last := prompts[..|prompts| - 1], prompts[|prompts| - 1];
      var before := PushAll(s, limits, flatten, front);
      FoldSheds(s, limits, flatten, front);
      PushSheds(before, limits, last.seqNo, flatten(last.text));
      ShedsChain(s, before, PushAll(s, limits, flatten, prompts), Joining(s, limits, flatten, front),
                 if Enters(before, flatten(last.text)) && !Repeats(before, flatten(last.text)) then 1 else 0);
    }
  }

  /** An event that leaves fewer entries than there were and joined. */
  predicate Drops(s: Index, limits: Limits, flatten: string -> string, e: Event) {
    !e.Resets? && |Step(s, limits, flatten, e).entries| < |s.entries| + Joins(s, limits, flatten, e)
  }

  lemma StepSheds(s: Index, limits: Limits, flatten: string -> string, e: Event)
    requires !e.Resets?
    ensures var n := Step(s, limits, flatten, e);
            && (n.shed <==> s.shed || Drops(s, limits, flatten, e))
            && (n.complete <==> (s.complete || (e.Completes? && !s.shed)) && !Drops(s, limits, flatten, e))
  {
    match e
    case Folds(prompts, _) => FoldSheds(s, limits, flatten, prompts);
    case Records(text) =>
      assert Append(s, limits, Entry(s.newest, flatten(text), false))
          == Trim(s.(entries := s.entries + [Entry(s.newest, flatten(text), false)]), limits);
    case Moves(older, current) => MoveKeepsEntries(s, older, current);
    case _ =>
  }

  lemma MoveKeepsEntries(s: Index, older: bool, current: string)
    ensures var n := Move(s, older, current).0;
            n.entries == s.entries && n.shed == s.shed && n.complete == s.complete
  {
  }

  /** Since the last reset, entries were dropped. */
  ghost predicate Dropped(limits: Limits, flatten: string -> string, events: seq<Event>) {
    exists i :: DroppedAt(limits, flatten, events, i)
  }

  ghost predicate DroppedAt(limits: Limits, flatten: string -> string, events: seq<Event>, i: int) {
    0 <= i < |events| && Drops(Run(limits, flatten, events[..i]), limits, flatten, events[i]) && NoReset(events, i)
  }

  /** Nothing was reset from here on. */
  ghost predicate NoReset(events: seq<Event>, i: int) {
    forall k :: 0 <= i <= k < |events| ==> !events[k].Resets?
  }

  ghost predicate FinishedAt(events: seq<Event>, i: int) {
    0 <= i < |events| && events[i].Completes? && NoReset(events, i)
  }

  lemma DroppedNext(limits: Limits, flatten: string -> string, events: seq<Event>, e: Event)
    ensures Dropped(limits, flatten, events + [e])
            <==> !e.Resets? && (Dropped(limits, flatten, events) || Drops(Run(limits, flatten, events), limits, flatten, e))
  {
    var all := events + [e];
    assert all[..|events|] == events;
    if Dropped(limits, flatten, all) {
      var i :| DroppedAt(limits, flatten, all, i);
      assert !all[|events|].Resets?;
      if i < |events| {
        assert all[..i] == events[..i];
        assert NoReset(events, i) by {
          assert forall k :: 0 <= i <= k < |events| ==> all[k] == events[k];
        }
        assert DroppedAt(limits, flatten, events, i);
      }
    }
    if !e.Resets? && Dropped(limits, flatten, events) {
      var i :| DroppedAt(limits, flatten, events, i);
      assert all[..i] == events[..i];
      assert DroppedAt(limits, flatten, all, i);
    }
    if Drops(Run(limits, flatten, events), limits, flatten, e) {
      assert DroppedAt(limits, flatten, all, |events|);
    }
  }

  ghost predicate Finished(events: seq<Event>) {
    exists i :: FinishedAt(events, i)
  }

  lemma FinishedNext(events: seq<Event>, e: Event)
    ensures Finished(events + [e]) <==> !e.Resets? && (Finished(events) || e.Completes?)
  {
    var all := events + [e];
    if Finished(all) {
      var i :| FinishedAt(all, i);
      assert !all[|events|].Resets?;
      if i < |events| {
        assert forall k :: 0 <= i <= k < |events| ==> all[k] == events[k];
        assert FinishedAt(events, i);
      }
    }
    if !e.Resets? && Finished(events) {
      var i :| FinishedAt(events, i);
      assert FinishedAt(all, i);
    }
    if e.Completes? {
      assert FinishedAt(all, |events|);
    }
  }

  /** In every run the index claims to hold all older prompts exactly when its scan was finished since the last reset and no
    * entry was dropped since that reset, before or after. */
  lemma {:induction false} CompleteExactlyWhen(limits: Limits, flatten: string -> string, events: seq<Event>)
    ensures var s := Run(limits, flatten, events);
            && (s.shed <==> Dropped(limits, flatten, events))
            && (s.complete <==> Finished(events) && !Dropped(limits, flatten, events))
  {
    if events != [] {
      var front, e := events[..|events| - 1], events[|events| - 1];
      assert events == front + [e];
      CompleteExactlyWhen(limits, flatten, front);
      DroppedNext(limits, flatten, front, e);
      FinishedNext(front, e);
      RunNext(limits, flatten, front, e);
      if !e.Resets? {
        StepSheds(Run(limits, flatten, front), limits, flatten, e);
      }
    }
  }

  // ---------------------------------------------------------------- one recall step

  /** Towards older input the entry before the cursor is shown, the newest when there is none, and at the oldest that one
    * again; towards newer input the entry behind it, and past the newest the draft; anything else shows what was there. */
  lemma MoveShows(s: Index, older: bool, current: string)
    requires s.position.Some? ==> s.position.value < |s.entries|
    ensures var (n, shown) := Move(s, older, current);
            if s.entries == [] || (!older && s.position.None?) then n == s && shown == current
            else if older && s.position == Some(0) then n == s && shown == s.entries[0].text
            else if !older && s.position == Some(|s.entries| - 1)
            then n == s.(position := None, draft := "") && shown == s.draft
            else
              var at := if s.position.None? then |s.entries| - 1
                        else if older then s.position.value - 1 else s.position.value + 1;
              && n == s.(position := Some(at), draft := if s.position.None? then current else s.draft)
              && shown == s.entries[at].text
  {
  }
}
