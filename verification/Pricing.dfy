/** Choosing the rates of one request (src/cost/pricing.ts).
  *
  * Unicode normalisation and the holiday calendar are foreign: the canonical form of a name and the peak hours of a
  * version are parameters. Money is exact. */
module Pricing {
  import opened Collections
  import opened CostRecords

  datatype Rates = Rates(input: real, cacheRead: real, cacheWrite: real, output: real)

  /** One version: whom it prices, from when, until when, and its rates. */
  datatype Price = Price(provider: string, model: string, aliases: seq<string>, from: int, until: Option<int>, peak: Rates, offPeak: Rates)

  datatype Table = Table(prices: seq<Price>, canonical: string -> string, isPeak: (Price, int) -> bool)

  datatype Decision = Amount(amount: real) | Unpriced(reason: string)

  const MissingUsage := "missing usage"
  const UnsupportedUsage := "unsupported usage"
  const MissingTime := "missing time"
  const NoVersion := "no price version"

  // ---------------------------------------------------------------- validation

  predicate Before(a: int, until: Option<int>) {
    until.None? || a < until.value
  }

  /** Two versions of one provider and model name hold at a common instant. */
  predicate Overlap(p: Price, q: Price) {
    p.provider == q.provider && p.model == q.model && Before(p.from, q.until) && Before(q.from, p.until)
  }

  predicate ValidInterval(p: Price) {
    Before(p.from, p.until)
  }

  predicate ValidPrices(prices: seq<Price>) {
    && (forall i :: 0 <= i < |prices| ==> ValidInterval(prices[i]))
    && (forall i, j :: 0 <= i < j < |prices| ==> !Overlap(prices[i], prices[j]))
  }

  /** A table is accepted when every interval is non-empty and no two versions overlap. */
  method AcceptPrices(prices: seq<Price>) returns (ok: bool)
    ensures ok == ValidPrices(prices)
  {
    for i := 0 to |prices|
      invariant forall k :: 0 <= k < i ==> ValidInterval(prices[k])
    {
      if !Before(prices[i].from, prices[i].until) {
        return false;
      }
    }
    for i := 0 to |prices|
      invariant forall k, j :: 0 <= k < i && k < j < |prices| ==> !Overlap(prices[k], prices[j])
    {
      for j := i + 1 to |prices|
        invariant forall k :: i < k < j ==> !Overlap(prices[i], prices[k])
      {
        if Overlap(prices[i], prices[j]) {
          return false;
        }
      }
    }
    return true;
  }

  // ---------------------------------------------------------------- selection

  predicate StartsWith(text: string, prefix: string) {
    |prefix| <= |text| && text[..|prefix|] == prefix
  }

  /** An alias names a model, or with a trailing star every model of a prefix. */
  predicate AliasMatches(t: Table, alias: string, model: string) {
    var name := t.canonical(alias);
    if name != "" && name[|name| - 1] == '*' then StartsWith(model, name[..|name| - 1]) else model == name
  }

  predicate NamesExactly(t: Table, p: Price, provider: string, model: string) {
    p.provider == provider && t.canonical(p.model) == t.canonical(model)
  }

  predicate NamesByAlias(t: Table, p: Price, provider: string, model: string) {
    p.provider == provider && exists a :: a in p.aliases && AliasMatches(t, a, t.canonical(model))
  }

  /** The versions of some kind, in table order. */
  function Exact(t: Table, prices: seq<Price>, provider: string, model: string): seq<Price> {
    if prices == [] then []
    else
      var front, last := Exact(t, prices[..|prices| - 1], provider, model), prices[|prices| - 1];
      if NamesExactly(t, last, provider, model) then front + [last] else front
  }

  function Aliased(t: Table, prices: seq<Price>, provider: string, model: string): seq<Price> {
    if prices == [] then []
    else
      var front, last := Aliased(t, prices[..|prices| - 1], provider, model), prices[|prices| - 1];
      if NamesByAlias(t, last, provider, model) then front + [last] else front
  }

  /** Aliases are only looked at when no version carries the name itself. */
  function Candidates(t: Table, provider: string, model: string): seq<Price> {
    var exact := Exact(t, t.prices, provider, model);
    if exact != [] then exact else Aliased(t, t.prices, provider, model)
  }

  predicate Holds(p: Price, time: int) {
    p.from <= time && Before(time, p.until)
  }

  function FirstHolding(prices: seq<Price>, time: int): Option<Price> {
    if prices == [] then None else if Holds(prices[0], time) then Some(prices[0]) else FirstHolding(prices[1..], time)
  }

  function PriceAt(t: Table, provider: string, model: string, time: int): Option<Price> {
    FirstHolding(Candidates(t, provider, model), time)
  }

  function RatesOf(t: Table, p: Price, time: int): Rates {
    if t.isPeak(p, time) then p.peak else p.offPeak
  }

  function AmountOf(u: Usage, r: Rates): real {
    (u.input as real * r.input + u.output as real * r.output + u.cacheRead as real * r.cacheRead
     + u.cacheWrite as real * r.cacheWrite) / 1000000.0
  }

  /** An amount, or why there is none. */
  function ChargeFor(t: Table, provider: string, model: string, time: Option<int>, usage: Option<Usage>): Decision {
    if usage.None? then Unpriced(MissingUsage)
    else if provider == "deepseek-official" && usage.value.cacheWrite != 0 then Unpriced(UnsupportedUsage)
    else if time.None? then Unpriced(MissingTime)
    else
      var price := PriceAt(t, provider, model, time.value);
      if price.None? then Unpriced(NoVersion) else Amount(AmountOf(usage.value, RatesOf(t, price.value, time.value)))
  }

  lemma {:induction false} ExactHolds(t: Table, prices: seq<Price>, provider: string, model: string)
    ensures forall p :: p in Exact(t, prices, provider, model) <==> p in prices && NamesExactly(t, p, provider, model)
  {
    if prices != [] {
      ExactHolds(t, prices[..|prices| - 1], provider, model);
      assert prices == prices[..|prices| - 1] + [prices[|prices| - 1]];
    }
  }

  lemma {:induction false} AliasedHolds(t: Table, prices: seq<Price>, provider: string, model: string)
    ensures forall p :: p in Aliased(t, prices, provider, model) <==> p in prices && NamesByAlias(t, p, provider, model)
  {
    if prices != [] {
      AliasedHolds(t, prices[..|prices| - 1], provider, model);
      assert prices == prices[..|prices| - 1] + [prices[|prices| - 1]];
    }
  }

  lemma {:induction false} FirstHoldingMeans(prices: seq<Price>, time: int)
    ensures FirstHolding(prices, time).Some? <==> exists p :: p in prices && Holds(p, time)
    ensures FirstHolding(prices, time).Some? ==>
              FirstHolding(prices, time).value in prices && Holds(FirstHolding(prices, time).value, time)
  {
    if prices != [] {
      FirstHoldingMeans(prices[1..], time);
      assert prices == [prices[0]] + prices[1..];
    }
  }

  /** A request has an amount exactly when its usage is valid and supported, its time is known, and a version names it
    * at that time: by its own name if any version carries that name at any time, otherwise by an alias. */
  lemma ChargedExactlyWhen(t: Table, provider: string, model: string, time: Option<int>, usage: Option<Usage>)
    ensures ChargeFor(t, provider, model, time, usage).Amount?
            <==> && usage.Some? && !(provider == "deepseek-official" && usage.value.cacheWrite != 0) && time.Some?
                 && exists p :: p in t.prices && Holds(p, time.value)
                                && if exists q :: q in t.prices && NamesExactly(t, q, provider, model)
                                   then NamesExactly(t, p, provider, model) else NamesByAlias(t, p, provider, model)
  {
    ExactHolds(t, t.prices, provider, model);
    AliasedHolds(t, t.prices, provider, model);
    var exact := Exact(t, t.prices, provider, model);
    assert exact != [] ==> exact[0] in exact;
    if time.Some? {
      FirstHoldingMeans(Candidates(t, provider, model), time.value);
    }
  }

  /** Two versions answer to one name, however it is spelled, and hold at a common instant. */
  predicate Contend(t: Table, p: Price, q: Price) {
    && p.provider == q.provider && t.canonical(p.model) == t.canonical(q.model)
    && Before(p.from, q.until) && Before(q.from, p.until)
  }

  predicate Carries(t: Table, p: Price, provider: string, model: string, time: int) {
    NamesExactly(t, p, provider, model) && Holds(p, time)
  }

  lemma ContendMeans(t: Table, p: Price, q: Price)
    requires ValidInterval(p) && ValidInterval(q)
    ensures Contend(t, p, q)
            <==> exists provider, model, time :: Carries(t, p, provider, model, time) && Carries(t, q, provider, model, time)
  {
    if Contend(t, p, q) {
      var time := Max(p.from, q.from);
      assert Carries(t, p, p.provider, p.model, time) && Carries(t, q, p.provider, p.model, time);
    }
  }

  /** In an accepted table at most one version carries a name at an instant, so the order of its entries decides nothing,
    * exactly when no two versions contend; and two that contend spell their model differently. */
  lemma ExactVersionIsUniqueExactlyWhen(t: Table)
    requires ValidPrices(t.prices)
    ensures (forall i, j :: 0 <= i < j < |t.prices| ==> !Contend(t, t.prices[i], t.prices[j]))
            <==> forall i, j, provider, model, time :: 0 <= i < j < |t.prices| ==>
                   !(Carries(t, t.prices[i], provider, model, time) && Carries(t, t.prices[j], provider, model, time))
    ensures forall i, j :: 0 <= i < j < |t.prices| && Contend(t, t.prices[i], t.prices[j]) ==>
              t.prices[i].model != t.prices[j].model
  {
    forall i, j | 0 <= i < j < |t.prices|
      ensures Contend(t, t.prices[i], t.prices[j])
              <==> exists provider, model, time ::
                     Carries(t, t.prices[i], provider, model, time) && Carries(t, t.prices[j], provider, model, time)
      ensures Contend(t, t.prices[i], t.prices[j]) ==> t.prices[i].model != t.prices[j].model
    {
      ContendMeans(t, t.prices[i], t.prices[j]);
      assert !Overlap(t.prices[i], t.prices[j]);
    }
  }

  /** An accepted table may hold such a pair: acceptance compares names as written, selection compares canonical names. */
  lemma SpellingVariantsOverlap(t: Table, a: string, b: string, cheap: Rates, dear: Rates)
    requires a != b && t.canonical(a) == t.canonical(b)
    ensures var p, q := Price("host", a, [], 0, None, cheap, cheap), Price("host", b, [], 0, None, dear, dear);
            && ValidPrices([p, q]) && ValidPrices([q, p])
            && PriceAt(t.(prices := [p, q]), "host", a, 0) == Some(p)
            && PriceAt(t.(prices := [q, p]), "host", a, 0) == Some(q)
  {
    var p, q := Price("host", a, [], 0, None, cheap, cheap), Price("host", b, [], 0, None, dear, dear);
    TwoExact(t.(prices := [p, q]), p, q, a);
    TwoExact(t.(prices := [q, p]), q, p, a);
  }

  lemma TwoExact(t: Table, p: Price, q: Price, model: string)
    requires t.prices == [p, q] && NamesExactly(t, p, "host", model) && NamesExactly(t, q, "host", model)
    ensures Candidates(t, "host", model) == [p, q]
  {
    assert [p, q][..1] == [p] && [p][..0] == [];
    assert Exact(t, [p], "host", model) == [p];
  }
}
