/** What a request costs (src/cost/pricing.ts:202-276), said of the table's entries: which version is in force, and what each
  * kind of token adds. */
module Charges {
  import opened Collections
  import opened CostRecords
  import opened Pricing

  // ---------------------------------------------------------------- the version in force

  /** The entry may price the request: it carries the model's name, or, where no entry does, one of its aliases covers it. */
  predicate Eligible(t: Table, i: int, provider: string, model: string)
    requires 0 <= i < |t.prices|
  {
    && t.prices[i].provider == provider
    && if exists j :: 0 <= j < |t.prices| && NamesExactly(t, t.prices[j], provider, model)
       then t.canonical(t.prices[i].model) == t.canonical(model)
       else exists a :: a in t.prices[i].aliases && AliasMatches(t, a, t.canonical(model))
  }

  /** The first entry of the table that may price the request and holds at the instant. */
  predicate InForce(t: Table, i: int, provider: string, model: string, time: int) {
    && 0 <= i < |t.prices| && Eligible(t, i, provider, model) && Holds(t.prices[i], time)
    && forall j :: 0 <= j < i ==> !(Eligible(t, j, provider, model) && Holds(t.prices[j], time))
  }

  /** The first of some entries of a kind that holds. */
  ghost predicate FirstOf(prices: seq<Price>, kind: set<int>, i: int, time: int) {
    && 0 <= i < |prices| && i in kind && Holds(prices[i], time)
    && forall j :: 0 <= j < i && j in kind ==> !Holds(prices[j], time)
  }

  /** The entries of some kind, in table order. */
  ghost function Among(prices: seq<Price>, kind: set<int>): seq<Price> {
    if prices == [] then []
    else
      var n := |prices| - 1;
      Among(prices[..n], kind) + if n in kind then [prices[n]] else []
  }

  lemma FirstHoldingSnoc(prices: seq<Price>, p: Price, time: int)
    ensures FirstHolding(prices + [p], time)
            == if FirstHolding(prices, time).Some? then FirstHolding(prices, time) else if Holds(p, time) then Some(p) else None
  {
    if prices != [] {
      assert (prices + [p])[1..] == prices[1..] + [p];
      FirstHoldingSnoc(prices[1..], p, time);
    } else {
      assert [p][1..] == [];
    }
  }

  lemma FirstOfSnoc(front: seq<Price>, p: Price, kind: set<int>, i: int, time: int)
    ensures FirstOf(front + [p], kind, i, time)
            <==> FirstOf(front, kind, i, time)
                 || (i == |front| && i in kind && Holds(p, time) && !exists j :: FirstOf(front, kind, j, time))
  {
    var prices := front + [p];
    assert prices[|front|] == p && forall j :: 0 <= j < |front| ==> prices[j] == front[j];
    if i == |front| {
      if j :| FirstOf(front, kind, j, time) {
        assert !FirstOf(prices, kind, i, time);
      } else {
        NoneBefore(front, kind, time);
      }
    }
  }

  lemma AmongSnoc(front: seq<Price>, p: Price, kind: set<int>)
    ensures Among(front + [p], kind) == if |front| in kind then Among(front, kind) + [p] else Among(front, kind)
  {
    assert (front + [p])[..|front|] == front;
  }

  lemma {:induction false} AmongFirst(prices: seq<Price>, kind: set<int>, time: int)
    ensures FirstHolding(Among(prices, kind), time).Some? <==> exists i :: FirstOf(prices, kind, i, time)
    ensures forall i :: FirstOf(prices, kind, i, time) ==> FirstHolding(Among(prices, kind), time) == Some(prices[i])
  {
    if prices != [] {
      var front, p := prices[..|prices| - 1], prices[|prices| - 1];
      assert prices == front + [p];
      AmongFirst(front, kind, time);
      AmongSnoc(front, p, kind);
      FirstHoldingSnoc(Among(front, kind), p, time);
      forall i
        ensures FirstOf(prices, kind, i, time)
                <==> FirstOf(front, kind, i, time)
                     || (i == |front| && i in kind && Holds(p, time) && !exists j :: FirstOf(front, kind, j, time))
      {
        FirstOfSnoc(front, p, kind, i, time);
      }
    }
  }

  /** Where nothing is first, nothing holds. */
  lemma {:induction false} NoneBefore(prices: seq<Price>, kind: set<int>, time: int)
    requires !exists i :: FirstOf(prices, kind, i, time)
    ensures forall j :: 0 <= j < |prices| && j in kind ==> !Holds(prices[j], time)
  {
    if j :| 0 <= j < |prices| && j in kind && Holds(prices[j], time) {
      LeastHolding(prices, kind, time, j);
    }
  }

  lemma {:induction false} LeastHolding(prices: seq<Price>, kind: set<int>, time: int, j: nat)
    requires j < |prices| && j in kind && Holds(prices[j], time)
    ensures exists i :: FirstOf(prices, kind, i, time)
    decreases j
  {
    if k :| 0 <= k < j && k in kind && Holds(prices[k], time) {
      LeastHolding(prices, kind, time, k);
    } else {
      assert FirstOf(prices, kind, j, time);
    }
  }

  lemma {:induction false} ExactIsAmong(t: Table, prices: seq<Price>, provider: string, model: string, kind: set<int>)
    requires forall i :: 0 <= i < |prices| ==> (i in kind <==> NamesExactly(t, prices[i], provider, model))
    ensures Exact(t, prices, provider, model) == Among(prices, kind)
  {
    if prices != [] {
      ExactIsAmong(t, prices[..|prices| - 1], provider, model, kind);
    }
  }

  lemma {:induction false} AliasedIsAmong(t: Table, prices: seq<Price>, provider: string, model: string, kind: set<int>)
    requires forall i :: 0 <= i < |prices| ==> (i in kind <==> NamesByAlias(t, prices[i], provider, model))
    ensures Aliased(t, prices, provider, model) == Among(prices, kind)
  {
    if prices != [] {
      AliasedIsAmong(t, prices[..|prices| - 1], provider, model, kind);
    }
  }

  lemma {:induction false} ExactNone(t: Table, prices: seq<Price>, provider: string, model: string)
    requires forall j :: 0 <= j < |prices| ==> !NamesExactly(t, prices[j], provider, model)
    ensures Exact(t, prices, provider, model) == []
  {
    if prices != [] {
      ExactNone(t, prices[..|prices| - 1], provider, model);
    }
  }

  ghost function EligibleIn(t: Table, provider: string, model: string): set<int> {
    set i | 0 <= i < |t.prices| && Eligible(t, i, provider, model)
  }

  lemma CandidatesAreEligible(t: Table, provider: string, model: string)
    ensures Candidates(t, provider, model) == Among(t.prices, EligibleIn(t, provider, model))
  {
    var kind := EligibleIn(t, provider, model);
    ExactHolds(t, t.prices, provider, model);
    if j :| 0 <= j < |t.prices| && NamesExactly(t, t.prices[j], provider, model) {
      assert t.prices[j] in Exact(t, t.prices, provider, model);
      ExactIsAmong(t, t.prices, provider, model, kind);
    } else {
      ExactNone(t, t.prices, provider, model);
      AliasedIsAmong(t, t.prices, provider, model, kind);
    }
  }

  /** The version that prices a request is the first entry of the table that may and holds then. */
  lemma PriceIsInForce(t: Table, provider: string, model: string, time: int)
    ensures PriceAt(t, provider, model, time).Some? <==> exists i :: InForce(t, i, provider, model, time)
    ensures forall i :: InForce(t, i, provider, model, time) ==> PriceAt(t, provider, model, time) == Some(t.prices[i])
  {
    var kind := EligibleIn(t, provider, model);
    CandidatesAreEligible(t, provider, model);
    AmongFirst(t.prices, kind, time);
    forall i
      ensures InForce(t, i, provider, model, time) <==> FirstOf(t.prices, kind, i, time)
    {
    }
  }

  /** An alias that ends in a star covers exactly the names that begin with the rest of it, any other exactly its own. */
  lemma AliasCovers(t: Table, alias: string, stem: string, model: string)
    ensures t.canonical(alias) == stem + "*" ==> (AliasMatches(t, alias, model) <==> exists rest :: model == stem + rest)
    ensures t.canonical(alias) == stem && (stem == "" || stem[|stem| - 1] != '*') ==> (AliasMatches(t, alias, model) <==> model == stem)
  {
    if StartsWith(model, stem) {
      assert model == stem + model[|stem|..];
    }
    assert (stem + "*")[..|stem|] == stem;
  }

  // ---------------------------------------------------------------- amounts

  /** A request the program prices: its version, the instant, and what the provider's table covers. */
  predicate Priced(t: Table, i: int, provider: string, model: string, time: int, u: Usage) {
    InForce(t, i, provider, model, time) && (provider == "deepseek-official" ==> u.cacheWrite == 0)
  }

  function Charge(t: Table, provider: string, model: string, time: int, u: Usage): Decision {
    ChargeFor(t, provider, model, Some(time), Some(u))
  }

  /** No tokens cost nothing. */
  lemma NoTokensCostNothing(t: Table, i: int, provider: string, model: string, time: int)
    requires InForce(t, i, provider, model, time)
    ensures Charge(t, provider, model, time, Usage(0, 0, 0, 0)) == Amount(0.0)
  {
    PriceIsInForce(t, provider, model, time);
  }

  /** Each further token adds a millionth of its own rate: the peak rate of the version in force when the instant is peak,
    * its off-peak rate otherwise. */
  lemma EachTokenCostsItsRate(t: Table, i: int, provider: string, model: string, time: int, u: Usage, n: nat)
    requires Priced(t, i, provider, model, time, u)
    ensures var p := t.prices[i];
            var peak, before := t.isPeak(p, time), Charge(t, provider, model, time, u);
            && before.Amount?
            && Charge(t, provider, model, time, u.(input := u.input + n))
               == Amount(before.amount + n as real * (if peak then p.peak.input else p.offPeak.input) / 1000000.0)
            && Charge(t, provider, model, time, u.(output := u.output + n))
               == Amount(before.amount + n as real * (if peak then p.peak.output else p.offPeak.output) / 1000000.0)
            && Charge(t, provider, model, time, u.(cacheRead := u.cacheRead + n))
               == Amount(before.amount + n as real * (if peak then p.peak.cacheRead else p.offPeak.cacheRead) / 1000000.0)
            && (provider != "deepseek-official" ==>
                  Charge(t, provider, model, time, u.(cacheWrite := u.cacheWrite + n))
                  == Amount(before.amount + n as real * (if peak then p.peak.cacheWrite else p.offPeak.cacheWrite) / 1000000.0))
  {
    PriceIsInForce(t, provider, model, time);
    var p := t.prices[i];
    var r := if t.isPeak(p, time) then p.peak else p.offPeak;
    Shares(u, r, n);
  }

  lemma Distributes(a: nat, n: nat, rate: real)
    ensures (a + n) as real * rate == a as real * rate + n as real * rate
  {
  }

  lemma Shares(u: Usage, r: Rates, n: nat)
    ensures AmountOf(u.(input := u.input + n), r) == AmountOf(u, r) + n as real * r.input / 1000000.0
    ensures AmountOf(u.(output := u.output + n), r) == AmountOf(u, r) + n as real * r.output / 1000000.0
    ensures AmountOf(u.(cacheRead := u.cacheRead + n), r) == AmountOf(u, r) + n as real * r.cacheRead / 1000000.0
    ensures AmountOf(u.(cacheWrite := u.cacheWrite + n), r) == AmountOf(u, r) + n as real * r.cacheWrite / 1000000.0
  {
    Distributes(u.input, n, r.input);
    Distributes(u.output, n, r.output);
    Distributes(u.cacheRead, n, r.cacheRead);
    Distributes(u.cacheWrite, n, r.cacheWrite);
  }

  /** So a million more tokens of one kind cost exactly its rate more. */
  lemma MillionTokensCostTheRate(t: Table, i: int, provider: string, model: string, time: int, u: Usage)
    requires Priced(t, i, provider, model, time, u)
    ensures var p, before := t.prices[i], Charge(t, provider, model, time, u);
            && before.Amount?
            && (t.isPeak(p, time) ==>
                  && Charge(t, provider, model, time, u.(input := u.input + 1000000)) == Amount(before.amount + p.peak.input)
                  && Charge(t, provider, model, time, u.(output := u.output + 1000000)) == Amount(before.amount + p.peak.output))
            && (!t.isPeak(p, time) ==>
                  && Charge(t, provider, model, time, u.(input := u.input + 1000000)) == Amount(before.amount + p.offPeak.input)
                  && Charge(t, provider, model, time, u.(output := u.output + 1000000)) == Amount(before.amount + p.offPeak.output))
  {
    EachTokenCostsItsRate(t, i, provider, model, time, u, 1000000);
  }

  // ---------------------------------------------------------------- intervals, and requests without an amount

  /** The instant lies in the version's interval, its end excluded. */
  predicate Active(p: Price, time: int) {
    p.from <= time && (p.until.None? || time < p.until.value)
  }

  predicate Shared(p: Price, q: Price, time: int) {
    p.provider == q.provider && p.model == q.model && Active(p, time) && Active(q, time)
  }

  lemma SharedMeans(p: Price, q: Price)
    requires ValidInterval(p) && ValidInterval(q)
    ensures Overlap(p, q) <==> exists time :: Shared(p, q, time)
  {
    if Overlap(p, q) {
      assert Shared(p, q, Max(p.from, q.from));
    }
  }

  lemma ActiveMeans(p: Price)
    ensures ValidInterval(p) <==> exists time :: Active(p, time)
    ensures forall time :: Holds(p, time) <==> Active(p, time)
  {
    if ValidInterval(p) {
      assert Active(p, p.from);
    }
  }

  ghost predicate SomeActive(p: Price) {
    exists time :: Active(p, time)
  }

  ghost predicate SomeShared(p: Price, q: Price) {
    exists time :: Shared(p, q, time)
  }

  /** A table is accepted exactly when every version is in force at some instant, and no two of one provider and model are
    * at the same one; touching intervals share none. */
  lemma AcceptedExactlyWhen(prices: seq<Price>)
    ensures ValidPrices(prices) <==>
              && (forall i :: 0 <= i < |prices| ==> SomeActive(prices[i]))
              && forall i, j :: 0 <= i < j < |prices| ==> !SomeShared(prices[i], prices[j])
  {
    forall i | 0 <= i < |prices|
      ensures ValidInterval(prices[i]) <==> SomeActive(prices[i])
    {
      ActiveMeans(prices[i]);
    }
    forall i, j | 0 <= i < j < |prices|
      ensures ValidInterval(prices[i]) && ValidInterval(prices[j]) ==>
                (Overlap(prices[i], prices[j]) <==> SomeShared(prices[i], prices[j]))
    {
      if ValidInterval(prices[i]) && ValidInterval(prices[j]) {
        SharedMeans(prices[i], prices[j]);
      }
    }
  }

  /** A request without an amount says the first thing that it lacks. */
  lemma ReasonTells(t: Table, provider: string, model: string, time: Option<int>, usage: Option<Usage>)
    requires ChargeFor(t, provider, model, time, usage).Unpriced?
    ensures ChargeFor(t, provider, model, time, usage).reason
            == if usage.None? then "missing usage"
               else if provider == "deepseek-official" && usage.value.cacheWrite != 0 then "unsupported usage"
               else if time.None? then "missing time" else "no price version"
  {
  }
}
