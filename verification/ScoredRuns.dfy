/** How a run of verdicts ends (src/controller/loop.ts:368-405), said of the verdicts themselves: which score is the best,
  * when a run stalls, when a step's attempts are used up, and which verdicts pass, block or pause it. */
module ScoredRuns {
  import opened Collections
  import opened ScoredLoop

  // ---------------------------------------------------------------- the attempts of a step

  /** The verdict was consumed as an attempt of this step: it scored, or had nothing usable, while the run worked at it. */
  predicate AttemptAt(limits: Limits, front: seq<Happening>, e: Happening, step: int) {
    e.Judged? && Scores(e.verdict) && After(limits, front).phase.Running? && After(limits, front).step == step
  }

  /** What the attempts of a step scored, in their order. */
  function ScoresOn(limits: Limits, events: seq<Happening>, step: int): seq<Option<real>> {
    if events == [] then []
    else
      var front, last := events[..|events| - 1], events[|events| - 1];
      ScoresOn(limits, front, step) + if AttemptAt(limits, front, last, step) then [ScoreOf(last.verdict)] else []
  }

  /** What the attempts of the step in flight scored. */
  function ScoresNow(limits: Limits, events: seq<Happening>): seq<Option<real>> {
    ScoresOn(limits, events, After(limits, events).step)
  }

  /** A score better than every earlier one of the step, and than nothing. */
  predicate Improves(xs: seq<Option<real>>, i: int) {
    && 0 <= i < |xs| && xs[i].Some? && xs[i].value > 0.0
    && forall j :: 0 <= j < i && xs[j].Some? ==> xs[j].value < xs[i].value
  }

  /** A score past the first attempt that is no improvement. */
  predicate Stagnates(xs: seq<Option<real>>, i: int) {
    0 < i < |xs| && xs[i].Some? && !Improves(xs, i)
  }

  /** The best score is the greatest one, or nothing. */
  ghost predicate IsBest(xs: seq<Option<real>>, best: real) {
    && best >= 0.0 && (forall i :: 0 <= i < |xs| && xs[i].Some? ==> xs[i].value <= best)
    && (best == 0.0 || exists i :: 0 <= i < |xs| && xs[i] == Some(best))
  }

  /** Scores that do not improve, one after the other but for attempts without a score. */
  ghost predicate TwoStagnate(xs: seq<Option<real>>, i: int, j: int) {
    i < j && Stagnates(xs, i) && Stagnates(xs, j) && forall k :: i < k < j ==> !Improves(xs, k)
  }

  /** The last attempt is the second one in such a row, and below the limit. */
  ghost predicate Converged(xs: seq<Option<real>>, limit: real) {
    var last := |xs| - 1;
    xs != [] && xs[last].Some? && xs[last].value < limit && exists i :: TwoStagnate(xs, i, last)
  }

  /** How many stagnations there were since the last improvement. */
  ghost function Row(xs: seq<Option<real>>): nat {
    if xs == [] then 0
    else
      var last := |xs| - 1;
      if Improves(xs, last) then 0 else Row(xs[..last]) + if Stagnates(xs, last) then 1 else 0
  }

  lemma PrefixMeans(xs: seq<Option<real>>, n: nat, i: int)
    requires n <= |xs| && i < n
    ensures Improves(xs[..n], i) <==> Improves(xs, i)
    ensures Stagnates(xs[..n], i) <==> Stagnates(xs, i)
  {
  }

  /** A row of stagnations is begun exactly when some score stagnated and none improved since. */
  lemma {:induction false} RowIsBegun(xs: seq<Option<real>>)
    ensures Row(xs) >= 1 <==> exists i :: Stagnates(xs, i) && forall k :: i < k ==> !Improves(xs, k)
  {
    if xs != [] {
      var last := |xs| - 1;
      RowIsBegun(xs[..last]);
      forall i | i < last
        ensures (Improves(xs[..last], i) <==> Improves(xs, i)) && (Stagnates(xs[..last], i) <==> Stagnates(xs, i))
      {
        PrefixMeans(xs, last, i);
      }
      if Row(xs[..last]) >= 1 && !Improves(xs, last) {
        var i :| Stagnates(xs[..last], i) && forall k :: i < k ==> !Improves(xs[..last], k);
        assert Stagnates(xs, i);
        forall k | i < k
          ensures !Improves(xs, k)
        {
          if k < last {
            assert !Improves(xs[..last], k);
          }
        }
      }
      if Stagnates(xs, last) {
        assert forall k :: last < k ==> !Improves(xs, k);
      }
      if i :| Stagnates(xs, i) && (forall k :: i < k ==> !Improves(xs, k)) && i < last {
        assert Stagnates(xs[..last], i);
        assert forall k :: i < k ==> !Improves(xs[..last], k);
      }
    }
  }

  /** With a stagnation at its end, it holds two exactly when another stagnated before with no improvement between. */
  lemma RowOfTwo(xs: seq<Option<real>>)
    requires xs != [] && Stagnates(xs, |xs| - 1)
    ensures var last := |xs| - 1; Row(xs) >= 2 <==> exists i :: TwoStagnate(xs, i, last)
  {
    var last := |xs| - 1;
    RowIsBegun(xs[..last]);
    forall i | i < last
      ensures (Improves(xs[..last], i) <==> Improves(xs, i)) && (Stagnates(xs[..last], i) <==> Stagnates(xs, i))
    {
      PrefixMeans(xs, last, i);
    }
    if Row(xs) >= 2 {
      var i :| Stagnates(xs[..last], i) && forall k :: i < k ==> !Improves(xs[..last], k);
      assert TwoStagnate(xs, i, last) by {
        assert forall k :: i < k < last ==> !Improves(xs[..last], k);
      }
    }
    if i :| TwoStagnate(xs, i, last) {
      assert Stagnates(xs[..last], i);
      assert forall k :: i < k ==> !Improves(xs[..last], k);
    }
  }

  // ---------------------------------------------------------------- every run

  /** How far the attempts of the step in flight have got. */
  ghost predicate Tracks(limits: Limits, events: seq<Happening>) {
    var l, xs := After(limits, events), ScoresNow(limits, events);
    && Within(limits, l) && IsBest(xs, l.best) && l.noProgress == Row(xs)
    && l.attempt == (if l.phase.Passed? || l.phase.Stalled? then |xs| else |xs| + 1)
    && (Active(l) || l.phase.Blocked? || l.phase.Exhausted? ==> l.noProgress <= 1)
    && (l.phase.Stalled? ==> l.noProgress == 2 && xs != [] && xs[|xs| - 1].Some? && xs[|xs| - 1].value < limits.score)
    && (l.phase.Passed? ==> xs != [] && xs[|xs| - 1].Some? && xs[|xs| - 1].value >= limits.score)
    && (!l.phase.Passed? ==> forall i :: 0 <= i < |xs| && xs[i].Some? ==> xs[i].value < limits.score)
    && (l.phase.Exhausted? ==> |xs| == limits.tries)
    && (Active(l) || l.phase.Passed? || l.phase.Stalled? || l.phase.Exhausted? || l.phase.Blocked?)
  }

  /** No attempt of a step was made before the run got to it. */
  lemma {:induction false} NotYet(limits: Limits, events: seq<Happening>, step: int)
    requires After(limits, events).step < step
    ensures ScoresOn(limits, events, step) == []
  {
    if events != [] {
      var front := events[..|events| - 1];
      StepsAscend(After(limits, front), limits, events[|events| - 1]);
      NotYet(limits, front, step);
    }
  }

  lemma StepsAscend(l: Loop, limits: Limits, e: Happening)
    ensures l.step <= Happens(l, limits, e).step
  {
  }

  lemma BestGrows(xs: seq<Option<real>>, best: real, score: Option<real>, next: real)
    requires IsBest(xs, best)
    requires next == if score.Some? && best < score.value then score.value else best
    ensures IsBest(xs + [score], next)
    ensures Improves(xs + [score], |xs|) <==> score.Some? && best < score.value
  {
    var ys := xs + [score];
    if score.Some? && best < score.value {
      assert ys[|xs|] == Some(next);
    } else if best != 0.0 {
      var i :| 0 <= i < |xs| && xs[i] == Some(best);
      assert ys[i] == Some(best);
    }
  }

  lemma RowGrows(xs: seq<Option<real>>, score: Option<real>)
    ensures var ys := xs + [score];
            Row(ys) == if Improves(ys, |xs|) then 0 else Row(xs) + if xs != [] && score.Some? then 1 else 0
  {
    assert (xs + [score])[..|xs|] == xs;
  }

  /** One more attempt, of a run that keeps track. */
  lemma AttemptTracks(limits: Limits, front: seq<Happening>, v: Option<Verdict>)
    requires limits.from <= limits.to && limits.tries >= 1
    requires Tracks(limits, front) && After(limits, front).phase.Running? && Scores(v)
    ensures Tracks(limits, front + [Judged(v)])
  {
    var events, l := front + [Judged(v)], After(limits, front);
    var xs, score := ScoresNow(limits, front), ScoreOf(v);
    assert events[..|front|] == front;
    StepStaysWithin(l, limits, Judged(v));
    BestGrows(xs, l.best, score, if score.Some? && l.best < score.value then score.value else l.best);
    RowGrows(xs, score);
    if After(limits, events).step == l.step {
      assert ScoresNow(limits, events) == xs + [score];
    } else {
      NotYet(limits, front, After(limits, events).step);
      assert ScoresNow(limits, events) == [];
    }
  }

  lemma OtherTracks(limits: Limits, front: seq<Happening>, e: Happening)
    requires limits.from <= limits.to && limits.tries >= 1 && Tracks(limits, front)
    requires !AttemptAt(limits, front, e, After(limits, front).step)
    ensures Tracks(limits, front + [e])
  {
    var events := front + [e];
    assert events[..|front|] == front;
    StepStaysWithin(After(limits, front), limits, e);
    assert ScoresNow(limits, events) == ScoresNow(limits, front);
  }

  lemma {:induction false} EveryRunTracks(limits: Limits, events: seq<Happening>)
    requires limits.from <= limits.to && limits.tries >= 1
    ensures Tracks(limits, events)
  {
    if events != [] {
      var front, e := events[..|events| - 1], events[|events| - 1];
      assert events == front + [e];
      EveryRunTracks(limits, front);
      if AttemptAt(limits, front, e, After(limits, front).step) {
        AttemptTracks(limits, front, e.verdict);
      } else {
        OtherTracks(limits, front, e);
      }
    }
  }

  // ---------------------------------------------------------------- main results

  /** In every run the best score is the greatest one of the step in flight. */
  lemma BestIsGreatest(limits: Limits, events: seq<Happening>)
    requires limits.from <= limits.to && limits.tries >= 1
    ensures IsBest(ScoresNow(limits, events), After(limits, events).best)
  {
    EveryRunTracks(limits, events);
  }

  /** The attempt in flight is the one after those that were judged; a run that passed or stalled did so in its last. */
  lemma AttemptsAreCounted(limits: Limits, events: seq<Happening>)
    requires limits.from <= limits.to && limits.tries >= 1
    ensures var l := After(limits, events);
            l.attempt == |ScoresNow(limits, events)| + if l.phase.Passed? || l.phase.Stalled? then 0 else 1
  {
    EveryRunTracks(limits, events);
  }

  /** A run has stalled exactly when the last attempt of its step scored below the limit and was the second, past the first
    * attempt, that did not improve on the step's scores, with no improvement in between. */
  lemma StalledExactlyWhen(limits: Limits, events: seq<Happening>)
    requires limits.from <= limits.to && limits.tries >= 1
    ensures After(limits, events).phase.Stalled? <==> Converged(ScoresNow(limits, events), limits.score)
  {
    EveryRunTracks(limits, events);
    var xs := ScoresNow(limits, events);
    if xs != [] && Stagnates(xs, |xs| - 1) {
      RowOfTwo(xs);
    }
    if After(limits, events).phase.Stalled? {
      LastStagnates(xs);
      RowOfTwo(xs);
    }
    if Converged(xs, limits.score) {
      var i :| TwoStagnate(xs, i, |xs| - 1);
      RowOfTwo(xs);
    }
  }

  lemma LastStagnates(xs: seq<Option<real>>)
    requires Row(xs) == 2 && xs != [] && xs[|xs| - 1].Some?
    ensures Stagnates(xs, |xs| - 1)
  {
    FirstIsNoRow(xs);
  }

  lemma FirstIsNoRow(xs: seq<Option<real>>)
    ensures |xs| <= 1 ==> Row(xs) == 0
  {
    if |xs| == 1 {
      assert xs[..0] == [];
    }
  }

  /** Its attempts are exhausted exactly when as many were judged as the limits allow, none reached the limit, and the last
    * did not stall the run. */
  lemma ExhaustedExactlyWhen(limits: Limits, events: seq<Happening>)
    requires limits.from <= limits.to && limits.tries >= 1
    ensures var xs := ScoresNow(limits, events);
            After(limits, events).phase.Exhausted?
            <==> && |xs| == limits.tries && (forall i :: 0 <= i < |xs| && xs[i].Some? ==> xs[i].value < limits.score)
                 && !Converged(xs, limits.score)
  {
    EveryRunTracks(limits, events);
    StalledExactlyWhen(limits, events);
  }

  /** A step was left behind, or the run passed at it, exactly when an attempt of it reached the limit. */
  lemma {:induction false} LeftExactlyWhenPassed(limits: Limits, events: seq<Happening>, step: int)
    requires limits.from <= limits.to && limits.tries >= 1 && limits.from <= step <= limits.to
    ensures step < After(limits, events).step || (After(limits, events).phase.Passed? && step == After(limits, events).step)
            <==> Reached(ScoresOn(limits, events, step), limits.score)
  {
    EveryRunTracks(limits, events);
    var l, xs := After(limits, events), ScoresOn(limits, events, step);
    if l.step < step {
      NotYet(limits, events, step);
    } else if step < l.step {
      LeftScores(limits, events, step);
    } else if l.phase.Passed? {
      assert xs == ScoresNow(limits, events) && xs[|xs| - 1].value >= limits.score;
    } else {
      assert xs == ScoresNow(limits, events);
    }
  }

  /** One of the attempts reached the limit. */
  predicate Reached(xs: seq<Option<real>>, limit: real) {
    exists i :: 0 <= i < |xs| && xs[i].Some? && xs[i].value >= limit
  }

  lemma ReachedSnoc(xs: seq<Option<real>>, x: Option<real>, limit: real)
    ensures Reached(xs + [x], limit) <==> Reached(xs, limit) || (x.Some? && x.value >= limit)
  {
    var ys := xs + [x];
    assert ys[|xs|] == x && forall i :: 0 <= i < |xs| ==> ys[i] == xs[i];
    if i :| 0 <= i < |xs| && xs[i].Some? && xs[i].value >= limit {
      assert ys[i] == xs[i];
    }
  }

  /** A step left behind was left by an attempt that reached the limit. */
  lemma {:induction false} LeftScores(limits: Limits, events: seq<Happening>, step: int)
    requires limits.from <= limits.to && limits.tries >= 1 && limits.from <= step < After(limits, events).step
    ensures Reached(ScoresOn(limits, events, step), limits.score)
  {
    var front, e := events[..|events| - 1], events[|events| - 1];
    if step < After(limits, front).step {
      LeftScores(limits, front, step);
    } else {
      assert AttemptAt(limits, front, e, step) && Passes(limits, e.verdict);
    }
    if AttemptAt(limits, front, e, step) {
      ReachedSnoc(ScoresOn(limits, front, step), ScoreOf(e.verdict), limits.score);
    } else {
      assert ScoresOn(limits, events, step) == ScoresOn(limits, front, step);
    }
  }

  /** The verdict says that the goal cannot be met, and does not ask for a person. */
  predicate SaysBlocked(e: Happening) {
    e.Judged? && e.verdict.Some? && e.verdict.value.blocked && !e.verdict.value.abstained
  }

  predicate AsksPerson(e: Happening) {
    e.Judged? && e.verdict.Some? && e.verdict.value.abstained
  }

  /** A run is blocked exactly when such a verdict came while it worked. */
  lemma {:induction false} BlockedExactlyWhen(limits: Limits, events: seq<Happening>)
    ensures After(limits, events).phase.Blocked?
            <==> exists i :: 0 <= i < |events| && SaysBlocked(events[i]) && After(limits, events[..i]).phase.Running?
  {
    if events != [] {
      var n := |events| - 1;
      BlockedExactlyWhen(limits, events[..n]);
      assert forall i :: 0 <= i < n ==> events[..n][..i] == events[..i] && events[..n][i] == events[i];
      if After(limits, events).phase.Blocked? && !After(limits, events[..n]).phase.Blocked? {
        assert SaysBlocked(events[n]);
      }
    }
  }

  /** A verdict asked for a person here while the run worked, and nobody has answered since. */
  ghost predicate AskedAt(limits: Limits, events: seq<Happening>, i: int) {
    && 0 <= i < |events| && AsksPerson(events[i]) && After(limits, events[..i]).phase.Running?
    && forall k :: i < k < |events| ==> !events[k].AnswerGiven?
  }

  lemma AskedSnoc(limits: Limits, front: seq<Happening>, e: Happening, i: int)
    ensures AskedAt(limits, front + [e], i)
            <==> (AskedAt(limits, front, i) && !e.AnswerGiven?)
                 || (i == |front| && AsksPerson(e) && After(limits, front).phase.Running?)
  {
    var events := front + [e];
    assert events[..|front|] == front;
    if 0 <= i < |front| {
      assert events[..i] == front[..i] && events[|front|] == e;
    }
  }

  /** A run waits for an answer exactly when a verdict asked for a person while it worked and nobody has answered since. */
  lemma {:induction false} PausedExactlyWhen(limits: Limits, events: seq<Happening>)
    ensures After(limits, events).phase.NeedsHuman? <==> exists i :: AskedAt(limits, events, i)
    ensures After(limits, events).phase.NeedsHuman? || After(limits, events).phase.Running? ==>
              After(limits, events).reason.None?
  {
    if events != [] {
      var front, e := events[..|events| - 1], events[|events| - 1];
      assert events == front + [e];
      PausedExactlyWhen(limits, front);
      forall i
        ensures AskedAt(limits, events, i)
                <==> (AskedAt(limits, front, i) && !e.AnswerGiven?)
                     || (i == |front| && AsksPerson(e) && After(limits, front).phase.Running?)
      {
        AskedSnoc(limits, front, e, i);
      }
      var l, n := After(limits, front), After(limits, events);
      assert n == Happens(l, limits, e);
      if n.phase.NeedsHuman? && l.phase.NeedsHuman? {
        var i :| AskedAt(limits, front, i);
        assert AskedAt(limits, events, i);
      } else if n.phase.NeedsHuman? {
        assert AskedAt(limits, events, |front|);
      }
    }
  }

  /** The answer lets it work on at the same attempt, with the same scores behind it. */
  lemma AnswerGoesOn(limits: Limits, events: seq<Happening>)
    requires After(limits, events).phase.NeedsHuman?
    ensures var l, n := After(limits, events), After(limits, events + [AnswerGiven]);
            && n.phase.Running? && n.awaiting && (n.step, n.attempt, n.best) == (l.step, l.attempt, l.best)
            && ScoresNow(limits, events + [AnswerGiven]) == ScoresNow(limits, events)
  {
    var all := events + [AnswerGiven];
    PausedExactlyWhen(limits, events);
    assert all[..|events|] == events && all[|events|] == AnswerGiven;
    assert After(limits, all) == Resume(After(limits, events));
    assert ScoresOn(limits, all, After(limits, events).step) == ScoresOn(limits, events, After(limits, events).step);
  }

  /** The decision returned for a verdict says what became of the run: it goes on exactly while the run works. */
  lemma DecisionTells(l: Loop, limits: Limits, v: Option<Verdict>)
    requires l.phase.Running?
    ensures var (n, d) := Settle(l, limits, v);
            && (d == Continue <==> n.phase.Running?) && (d == Asks <==> n.phase.NeedsHuman?)
            && (d == DidPass <==> n.phase.Passed?) && (d == DidExhaust <==> n.phase.Exhausted?)
            && (d == DidStall <==> n.phase.Stalled?) && (d == DidBlock <==> n.phase.Blocked?)
            && !n.awaiting
            && n.reason == match n.phase
                           case Passed => Some(ByPass)
                           case Exhausted => Some(ByExhaustion)
                           case Stalled => Some(ByStall)
                           case Blocked => Some(ByBlock)
                           case _ => l.reason
  {
  }

  // ---------------------------------------------------------------- which results are verdicts

  /** The result claims that no score will come: the goal cannot be met, or a person is needed. */
  predicate ClaimsStop(r: RawResult) {
    r.blocked || r.status == Some(BlockedStatus) || r.status == Some(AbstainedStatus) || r.exit.Some?
  }

  /** The claim is whole: one of the two, with a reason, without a score, and under no other label. */
  predicate StopIsWhole(r: RawResult) {
    var cannot, asks := r.blocked || r.status == Some(BlockedStatus), r.status == Some(AbstainedStatus);
    && cannot != asks && r.reason.Some? && (r.exit.Some? ==> r.exit.value == Some(if asks then NeedsHumanExit else CannotFix))
    && (r.score.Some? ==> r.score.value < 0.0 || 10.0 < r.score.value)
  }

  /** A result is read exactly when it claims no stop, or claims one whole; what it says is then what is read. */
  lemma ReadExactlyWhen(r: RawResult)
    ensures ReadResult(r).Some? <==> !ClaimsStop(r) || StopIsWhole(r)
    ensures ReadResult(r).Some? ==>
              var v := ReadResult(r).value;
              && (v.blocked <==> r.blocked || r.status == Some(BlockedStatus))
              && (v.abstained <==> r.status == Some(AbstainedStatus))
              && (v.score.Some? <==> r.score.Some? && 0.0 <= r.score.value <= 10.0) && (v.score.Some? ==> v.score == r.score)
  {
  }
}
