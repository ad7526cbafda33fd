/** The scoring rules of one agent loop run (src/controller/loop.ts). */
module ScoredLoop {
  import opened Collections

  // ---------------------------------------------------------------- verdicts

  datatype Status = Done | Retry | BlockedStatus | AbstainedStatus

  datatype Exit = CannotFix | NeedsHumanExit

  /** A decoded result object: a finite number or none, and the usable text fields. An exit label that is neither of the
    * two known ones is kept as None of the inner option. */
  datatype RawResult = RawResult(
    score: Option<real>,
    status: Option<Status>,
    blocked: bool,
    reason: Option<string>,
    exit: Option<Option<Exit>>
  )

  /** What a verdict decides by. */
  datatype Verdict = Verdict(score: Option<real>, blocked: bool, abstained: bool)

  function ScoreIn(s: Option<real>): Option<real> {
    if s.Some? && 0.0 <= s.value <= 10.0 then s else None
  }

  /** Read the usable fields; None when the object claims an early stop that breaks the rules. */
  function ReadResult(r: RawResult): Option<Verdict> {
    var score := ScoreIn(r.score);
    var blocked := r.blocked || r.status == Some(BlockedStatus);
    var abstained := r.status == Some(AbstainedStatus);
    if !blocked && !abstained && r.exit.None? then Some(Verdict(score, false, false))
    else if r.reason.None? || blocked == abstained || score.Some? then None
    else if r.exit.Some? && r.exit.value != Some(if abstained then NeedsHumanExit else CannotFix) then None
    else Some(Verdict(score, blocked, abstained))
  }

  /** An accepted verdict is a score, a proof of impossibility, a request for a person, or nothing usable: never two. */
  predicate Sane(v: Verdict) {
    && (v.score.Some? ==> 0.0 <= v.score.value <= 10.0 && !v.blocked && !v.abstained)
    && !(v.blocked && v.abstained)
  }

  lemma AcceptedVerdictsAreSane(r: RawResult)
    ensures ReadResult(r).Some? ==> Sane(ReadResult(r).value)
    ensures ReadResult(r).Some? && (ReadResult(r).value.blocked || ReadResult(r).value.abstained) ==> r.reason.Some?
  {
  }

  // ---------------------------------------------------------------- limits

  datatype Limits = Limits(from: int, to: int, score: real, tries: int)

  datatype Options = Options(from: Option<int>, to: Option<int>, score: Option<real>, tries: Option<int>)

  function Given<T>(option: Option<T>, default': T): T {
    if option.Some? then option.value else default'
  }

  /** The resolved limits; None when the range is empty. */
  function Resolve(o: Options, steps: int, score: Option<real>, tries: Option<int>): Option<Limits> {
    var from, to := Given(o.from, 1), Given(o.to, steps);
    if to < from then None else Some(Limits(from, to, Given(o.score, Given(score, 8.0)), Given(o.tries, Given(tries, 10))))
  }

  // ---------------------------------------------------------------- the run

  datatype Phase = Running | Passed | Exhausted | Stalled | Blocked | NeedsHuman | Cancelled | Unavailable | PastDeadline

  datatype Reason =
    | ByPass | ByExhaustion | ByStall | ByBlock | UserCancelled | Replaced | VerifierUnavailable | ByDeadline | SendRejected
    | VerifierNeedsHuman

  datatype Loop = Loop(step: int, attempt: nat, best: real, noProgress: nat, phase: Phase, awaiting: bool, reason: Option<Reason>)

  datatype Decision = Continue | DidPass | DidExhaust | DidStall | DidBlock | Asks

  const StallStreak := 2

  function Begin(limits: Limits): Loop {
    Loop(limits.from, 1, 0.0, 0, Running, false, None)
  }

  /** The run still owns its session: it works, or waits for an answer. */
  predicate Active(l: Loop) {
    l.phase.Running? || (l.phase.NeedsHuman? && l.reason.None?)
  }

  predicate Paused(l: Loop) {
    l.phase.NeedsHuman? && l.reason.None?
  }

  /** A verdict that is a score, or nothing usable. */
  predicate Scores(v: Option<Verdict>) {
    v.None? || (!v.value.abstained && !v.value.blocked)
  }

  function ScoreOf(v: Option<Verdict>): Option<real> {
    if v.Some? then v.value.score else None
  }

  predicate Passes(limits: Limits, v: Option<Verdict>) {
    Scores(v) && ScoreOf(v).Some? && ScoreOf(v).value >= limits.score
  }

  /** A score that is no better than the best of an earlier attempt counts against convergence. */
  function Streak(l: Loop, score: Option<real>): nat {
    if score.None? then l.noProgress
    else if score.value > l.best then 0
    else if l.attempt > 1 then l.noProgress + 1
    else l.noProgress
  }

  function Best(l: Loop, score: Option<real>): real {
    if score.Some? && score.value > l.best then score.value else l.best
  }

  /** Consume one finished attempt. */
  function Settle(l: Loop, limits: Limits, v: Option<Verdict>): (Loop, Decision) {
    var s := l.(awaiting := false);
    if v.Some? && v.value.abstained then (s.(phase := NeedsHuman), Asks)
    else if v.Some? && v.value.blocked then (s.(phase := Blocked, reason := Some(ByBlock)), DidBlock)
    else
      var score := ScoreOf(v);
      var n := s.(noProgress := Streak(l, score), best := Best(l, score));
      if score.Some? && score.value >= limits.score then
        if l.step >= limits.to then (n.(phase := Passed, reason := Some(ByPass)), DidPass)
        else (n.(step := l.step + 1, attempt := 1, best := 0.0, noProgress := 0), Continue)
      else if n.noProgress >= StallStreak then (n.(phase := Stalled, reason := Some(ByStall)), DidStall)
      else if l.attempt + 1 > limits.tries then
        (n.(attempt := l.attempt + 1, phase := Exhausted, reason := Some(ByExhaustion)), DidExhaust)
      else (n.(attempt := l.attempt + 1), Continue)
  }

  /** End the run for a reason of its own; no attempt is consumed. */
  function End(l: Loop, phase: Phase, reason: Reason): Loop {
    l.(phase := phase, awaiting := false, reason := Some(reason))
  }

  function Resume(l: Loop): Loop {
    l.(phase := Running, awaiting := true)
  }

  class ScoredRun {
    const limits: Limits
    var step: int
    var attempt: nat
    var best: real
    var noProgress: nat
    var phase: Phase
    var awaiting: bool
    var reason: Option<Reason>

    constructor (limits: Limits)
      ensures State() == Begin(limits) && this.limits == limits
    {
      this.limits := limits;
      step, attempt, best, noProgress, phase, awaiting, reason := limits.from, 1, 0.0, 0, Running, false, None;
    }

    ghost function State(): Loop
      reads this
    {
      Loop(step, attempt, best, noProgress, phase, awaiting, reason)
    }

    predicate IsActive()
      reads this
      ensures IsActive() == Active(State())
    {
      phase == Running || (phase == NeedsHuman && reason == None)
    }

    method Sent()
      modifies this
      ensures State() == old(State()).(awaiting := true)
    {
      awaiting := true;
    }

    method SettleAttempt(v: Option<Verdict>) returns (d: Decision)
      modifies this
      ensures (State(), d) == Settle(old(State()), limits, v)
    {
      awaiting := false;
      if v.Some? && v.value.abstained {
        phase := NeedsHuman;
        return Asks;
      }
      if v.Some? && v.value.blocked {
        phase, reason := Blocked, Some(ByBlock);
        return DidBlock;
      }
      var score := ScoreOf(v);
      if score.Some? {
        if score.value > best {
          noProgress := 0;
        } else if attempt > 1 {
          noProgress := noProgress + 1;
        }
        best := if best < score.value then score.value else best;
      }
      if score.Some? && score.value >= limits.score {
        if step >= limits.to {
          phase, reason := Passed, Some(ByPass);
          return DidPass;
        }
        step, attempt, best, noProgress := step + 1, 1, 0.0, 0;
        return Continue;
      }
      if noProgress >= StallStreak {
        phase, reason := Stalled, Some(ByStall);
        return DidStall;
      }
      attempt := attempt + 1;
      if attempt > limits.tries {
        phase, reason := Exhausted, Some(ByExhaustion);
        return DidExhaust;
      }
      return Continue;
    }

    method Finish(phase: Phase, reason: Reason)
      modifies this
      ensures State() == End(old(State()), phase, reason)
    {
      this.phase, awaiting, this.reason := phase, false, Some(reason);
    }

    method Answered()
      modifies this
      ensures State() == Resume(old(State()))
    {
      phase, awaiting := Running, true;
    }
  }

  // ---------------------------------------------------------------- sequences of attempts

  /** Everything that happens to a run, as its rules see it. */
  datatype Happening =
    | Judged(verdict: Option<Verdict>)
    | AnswerGiven

  function Happens(l: Loop, limits: Limits, e: Happening): Loop {
    match e
    case Judged(v) => if l.phase.Running? then Settle(l, limits, v).0 else l
    case AnswerGiven => if Paused(l) then Resume(l) else l
  }

  function After(limits: Limits, events: seq<Happening>): Loop {
    if events == [] then Begin(limits) else Happens(After(limits, events[..|events| - 1]), limits, events[|events| - 1])
  }

  /** The attempts consumed: verdicts that scored, or had nothing usable, while the run was working. */
  function AttemptsIn(limits: Limits, events: seq<Happening>): nat {
    if events == [] then 0
    else
      var front, last := events[..|events| - 1], events[|events| - 1];
      AttemptsIn(limits, front) + if last.Judged? && Scores(last.verdict) && After(limits, front).phase.Running? then 1 else 0
  }

  /** A step of the run was passed by a verdict that was consumed while it was the step in flight. */
  predicate PassedAt(limits: Limits, events: seq<Happening>, step: int) {
    exists i :: 0 <= i < |events| && events[i].Judged? && Passes(limits, events[i].verdict)
                && After(limits, events[..i]).phase.Running? && After(limits, events[..i]).step == step
  }

  predicate Within(limits: Limits, l: Loop) {
    && limits.from <= l.step <= limits.to && l.attempt >= 1
    && l.attempt <= (if l.phase.Exhausted? then limits.tries + 1 else limits.tries)
    && (l.phase.Passed? ==> l.step == limits.to)
    && (l.reason.None? <==> Active(l))
  }

  lemma StepStaysWithin(l: Loop, limits: Limits, e: Happening)
    requires limits.from <= limits.to && limits.tries >= 1 && Within(limits, l)
    ensures Within(limits, Happens(l, limits, e))
  {
  }

  /** The work left bounds the attempts: every consumed attempt of a working run uses one up. */
  function Spent(limits: Limits, l: Loop): int {
    (l.step - limits.from) * limits.tries + l.attempt - if l.phase.Exhausted? || Active(l) || l.phase.Blocked? then 1 else 0
  }

  lemma AttemptIsSpent(l: Loop, limits: Limits, v: Option<Verdict>)
    requires limits.from <= limits.to && limits.tries >= 1 && Within(limits, l) && Active(l) && Scores(v)
    ensures Spent(limits, l) + 1 <= Spent(limits, Settle(l, limits, v).0)
  {
    if Passes(limits, v) && l.step < limits.to {
      assert (l.step + 1 - limits.from) * limits.tries == (l.step - limits.from) * limits.tries + limits.tries;
    }
  }

  /** At most tries attempts per step are ever consumed. */
  lemma {:induction false} AttemptsAreBounded(limits: Limits, events: seq<Happening>)
    requires limits.from <= limits.to && limits.tries >= 1
    ensures Within(limits, After(limits, events))
    ensures AttemptsIn(limits, events) <= Spent(limits, After(limits, events)) <= (limits.to - limits.from + 1) * limits.tries
  {
    if events != [] {
      var front, last := events[..|events| - 1], events[|events| - 1];
      AttemptsAreBounded(limits, front);
      StepStaysWithin(After(limits, front), limits, last);
      if last.Judged? && Scores(last.verdict) && After(limits, front).phase.Running? {
        AttemptIsSpent(After(limits, front), limits, last.verdict);
      }
    }
    SpentIsBounded(limits, After(limits, events));
  }

  lemma ScaledSteps(a: int, b: int, tries: int)
    requires a <= b && tries >= 1
    ensures a * tries <= b * tries
  {
  }

  lemma SpentIsBounded(limits: Limits, l: Loop)
    requires limits.from <= limits.to && limits.tries >= 1 && Within(limits, l)
    ensures Spent(limits, l) <= (limits.to - limits.from + 1) * limits.tries
  {
    ScaledSteps(l.step - limits.from, limits.to - limits.from, limits.tries);
    assert (limits.to - limits.from + 1) * limits.tries == (limits.to - limits.from) * limits.tries + limits.tries;
  }

  /** A run is at a step only when every earlier step was passed, and has passed only when the last one was too. */
  lemma {:induction false} EarlierStepsWerePassed(limits: Limits, events: seq<Happening>, step: int)
    requires limits.from <= limits.to && limits.tries >= 1
    requires limits.from <= step
    requires step < After(limits, events).step || (After(limits, events).phase.Passed? && step <= limits.to)
    ensures PassedAt(limits, events, step)
  {
    if events != [] {
      var front, last := events[..|events| - 1], events[|events| - 1];
      AttemptsAreBounded(limits, front);
      var l := After(limits, front);
      if step < l.step || (l.phase.Passed? && step <= limits.to) {
        EarlierStepsWerePassed(limits, front, step);
        var i :| 0 <= i < |front| && front[i].Judged? && Passes(limits, front[i].verdict)
                 && After(limits, front[..i]).phase.Running? && After(limits, front[..i]).step == step;
        assert events[i] == front[i] && events[..i] == front[..i];
      } else {
        assert events[..|front|] == front;
      }
    }
  }

  /** The limits the options and the protocol's defaults ask for, whether or not a run can meet them. */
  function Asked(o: Options, steps: int, score: Option<real>, tries: Option<int>): Limits {
    Limits(if o.from.Some? then o.from.value else 1, if o.to.Some? then o.to.value else steps,
           if o.score.Some? then o.score.value else if score.Some? then score.value else 8.0,
           if o.tries.Some? then o.tries.value else if tries.Some? then tries.value else 10)
  }

  /** Options are refused exactly when no state of a run, its first included, could stay inside what they ask for. */
  lemma RefusedExactlyWhenNothingFits(o: Options, steps: int, score: Option<real>, tries: Option<int>)
    requires Asked(o, steps, score, tries).tries >= 1
    ensures Resolve(o, steps, score, tries).None? <==> forall l :: !Within(Asked(o, steps, score, tries), l)
    ensures Resolve(o, steps, score, tries).Some? ==> Within(Asked(o, steps, score, tries), Begin(Asked(o, steps, score, tries)))
  {
    var asked := Asked(o, steps, score, tries);
    if asked.from <= asked.to {
      assert Within(asked, Begin(asked));
    }
  }

  /** A run that passed was given, for every step it was asked to cover, a score no lower than the one asked for, within
    * the attempts asked for. Without a range that is every step of the protocol. */
  lemma PassedCoversWhatWasAsked(o: Options, steps: int, score: Option<real>, tries: Option<int>, events: seq<Happening>,
                                 step: int)
    requires Resolve(o, steps, score, tries).Some? && Asked(o, steps, score, tries).tries >= 1
    requires After(Resolve(o, steps, score, tries).value, events).phase.Passed?
    requires Asked(o, steps, score, tries).from <= step <= Asked(o, steps, score, tries).to
    ensures ScoredAt(Asked(o, steps, score, tries), events, step, Asked(o, steps, score, tries).score)
    ensures AttemptsIn(Asked(o, steps, score, tries), events) <= Budget(Asked(o, steps, score, tries))
  {
    var limits := Asked(o, steps, score, tries);
    assert Resolve(o, steps, score, tries).value == limits;
    EarlierStepsWerePassed(limits, events, step);
    PassedMeansScored(limits, events, step);
    AttemptsStayInBudget(limits, events);
  }

  lemma PassedMeansScored(limits: Limits, events: seq<Happening>, step: int)
    requires PassedAt(limits, events, step)
    ensures ScoredAt(limits, events, step, limits.score)
  {
    var i :| 0 <= i < |events| && events[i].Judged? && Passes(limits, events[i].verdict)
             && After(limits, events[..i]).phase.Running? && After(limits, events[..i]).step == step;
  }

  lemma AttemptsStayInBudget(limits: Limits, events: seq<Happening>)
    requires limits.from <= limits.to && limits.tries >= 1
    ensures AttemptsIn(limits, events) <= Budget(limits)
  {
    AttemptsAreBounded(limits, events);
  }

  /** A verdict of at least this score arrived while the run worked at the step. */
  predicate ScoredAt(limits: Limits, events: seq<Happening>, step: int, score: real) {
    exists i :: 0 <= i < |events| && events[i].Judged? && ScoreOf(events[i].verdict).Some?
                && ScoreOf(events[i].verdict).value >= score
                && After(limits, events[..i]).phase.Running? && After(limits, events[..i]).step == step
  }

  function Budget(limits: Limits): int {
    (limits.to - limits.from + 1) * limits.tries
  }
}
