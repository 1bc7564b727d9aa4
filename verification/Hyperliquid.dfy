/** The spot adapter: sizing an order inside the authorised notional, and settling its fills. Amounts and
    prices are integers in units of 10^-8, sizes are whole lots of 10^-decimals, fills are exact. */
module Hyperliquid {
  import opened Types

  const UNITS := 100_000_000
  const MAX_AMOUNT := 100_000_000_000_000_000_000_000_000  // 18 integer digits, 8 decimals

  function Pow10(n: nat): (r: nat)
    ensures r >= 1
  {
    if n == 0 then 1 else 10 * Pow10(n - 1)
  }

  // ---- price precision ----

  function TrailingZeros(p: nat): nat
    requires p > 0
  {
    if p % 10 == 0 then 1 + TrailingZeros(p / 10) else 0
  }

  /** The digits left once trailing zeros are normalised away. */
  function Significant(p: nat): nat
    requires p > 0
  {
    if p % 10 == 0 then Significant(p / 10) else p
  }

  function DecimalPlaces(p: nat): nat
    requires p > 0
  {
    if TrailingZeros(p) >= 8 then 0 else 8 - TrailingZeros(p)
  }

  /** Whole prices, or at most five significant figures and at most 8 - decimals places. */
  predicate ValidSpotPrice(p: nat, decimals: nat)
    requires p > 0 && decimals <= 8
  {
    DecimalPlaces(p) == 0 || (Significant(p) < 100_000 && DecimalPlaces(p) <= 8 - decimals)
  }

  lemma {:induction false} ZerosDivide(p: nat, n: nat)
    requires p > 0 && n <= TrailingZeros(p)
    ensures p % Pow10(n) == 0
    decreases n
  {
    if n > 0 {
      ZerosDivide(p / 10, n - 1);
      var q := p / 10 / Pow10(n - 1);
      assert p / 10 == q * Pow10(n - 1);
      assert p == q * Pow10(n);
      MultipleDivides(q, Pow10(n));
    }
  }

  lemma MultipleDivides(q: nat, t: nat)
    requires t > 0
    ensures (q * t) % t == 0 && (q * t) / t == q
  {
    assert q * t == t * q + 0;
    DivUnique(q * t, t, q, 0);
  }

  lemma MulMonotone(a: int, b: int, t: nat)
    requires a <= b
    ensures a * t <= b * t
  {
  }

  lemma DivUnique(a: nat, t: nat, q: nat, r: nat)
    requires t > 0 && a == q * t + r && r < t
    ensures a / t == q && a % t == r
  {
    var q1, r1 := a / t, a % t;
    var d := q - q1;
    assert d * t == q * t - q1 * t;
    if d >= 1 {
      MulMonotone(1, d, t);
    } else if d <= -1 {
      MulMonotone(d, -1, t);
    }
  }

  /** One lot at a valid price is worth a whole number of units: the notional of any size lies on the
      8-decimal grid and the ceiling rounds nothing. */
  lemma LotValueIsWhole(p: nat, decimals: nat)
    requires p > 0 && decimals <= 8 && ValidSpotPrice(p, decimals)
    ensures p % Pow10(decimals) == 0 && p / Pow10(decimals) >= 1
  {
    ZerosDivide(p, decimals);
    WholeQuotient(p, Pow10(decimals));
  }

  lemma WholeQuotient(p: nat, t: nat)
    requires p > 0 && t > 0 && p % t == 0
    ensures p / t >= 1 && p == p / t * t
  {
  }

  // ---- sizing ----

  /** Least number of 10^-8 units not below `lots` lots at the price. */
  function NotionalCeiling(lots: nat, p: nat, decimals: nat): nat {
    (lots * p + Pow10(decimals) - 1) / Pow10(decimals)
  }

  lemma NotionalExact(lots: nat, p: nat, decimals: nat)
    requires p > 0 && decimals <= 8 && ValidSpotPrice(p, decimals)
    ensures NotionalCeiling(lots, p, decimals) == lots * (p / Pow10(decimals))
    ensures NotionalCeiling(lots, p, decimals) * Pow10(decimals) == lots * p
  {
    LotValueIsWhole(p, decimals);
    WholeQuotient(p, Pow10(decimals));
    CeilingExact(lots, p / Pow10(decimals), Pow10(decimals));
  }

  lemma CeilingExact(lots: nat, u: nat, t: nat)
    requires t > 0
    ensures (lots * (u * t) + t - 1) / t == lots * u
    ensures lots * u * t == lots * (u * t)
  {
    Associates(lots, u, t);
    DivUnique(lots * (u * t) + t - 1, t, lots * u, t - 1);
  }

  lemma Associates(a: int, b: int, c: int)
    ensures a * (b * c) == (a * b) * c
  {
  }

  /** The exact quotient in lots, rounded down. */
  function LotsWithin(notional: nat, p: nat, decimals: nat): nat
    requires p > 0
  {
    notional * Pow10(decimals) / p
  }

  /** LotsWithin is the largest size whose notional fits the authorisation. */
  lemma LargestSize(notional: nat, p: nat, decimals: nat, lots: nat)
    requires p > 0 && decimals <= 8 && ValidSpotPrice(p, decimals)
    ensures NotionalCeiling(lots, p, decimals) <= notional <==> lots <= LotsWithin(notional, p, decimals)
  {
    var t, most := Pow10(decimals), LotsWithin(notional, p, decimals);
    NotionalExact(lots, p, decimals);
    FloorBounds(notional * t, p);
    Successor(most, p);
    var value := NotionalCeiling(lots, p, decimals);
    if lots <= most {
      MulMonotone(lots, most, p);
      if value > notional {
        MulMonotone(notional + 1, value, t);
        Successor(notional, t);
      }
    } else {
      MulMonotone(most + 1, lots, p);
      if value <= notional {
        MulMonotone(value, notional, t);
      }
    }
  }

  lemma Successor(a: int, t: int)
    ensures (a + 1) * t == a * t + t
  {
  }

  lemma FloorBounds(a: nat, p: nat)
    requires p > 0
    ensures a / p * p <= a < a / p * p + p
  {
  }

  function SizeOf(lots: nat, decimals: nat): real {
    lots as real / Pow10(decimals) as real
  }

  /** Decimal division rounds the quotient to a limited number of digits; whole lots survive exactly. */
  ghost predicate RoundsTo(round: real -> real, decimals: nat, largest: nat) {
    && (forall a: real, b: real :: a <= b ==> round(a) <= round(b))
    && (forall lots: nat :: lots <= largest ==> round(SizeOf(lots, decimals)) == SizeOf(lots, decimals))
  }

  function Quotient(notional: nat, p: nat): real
    requires p > 0
  {
    notional as real / p as real
  }

  lemma RealCancel(x: real, y: real, t: real)
    requires t > 0.0 && x * t <= y * t
    ensures x <= y
  {
  }

  lemma FractionOrder(a: real, b: real, c: real, d: real)
    requires b > 0.0 && d > 0.0 && a * d <= c * b
    ensures a / b <= c / d
  {
    var x, y := a / b, c / d;
    assert x * b == a && y * d == c;
    assert x * (b * d) == a * d && y * (b * d) == c * b;
    RealCancel(x, y, b * d);
  }

  lemma QuotientBetween(notional: nat, p: nat, decimals: nat)
    requires p > 0
    ensures var most := LotsWithin(notional, p, decimals);
      SizeOf(most, decimals) <= Quotient(notional, p) <= SizeOf(most + 1, decimals)
  {
    var t, most := Pow10(decimals), LotsWithin(notional, p, decimals);
    FloorBounds(notional * t, p);
    Successor(most, p);
    assert most as real * p as real <= notional as real * t as real <= (most + 1) as real * p as real;
    FractionOrder(most as real, t as real, notional as real, p as real);
    FractionOrder(notional as real, p as real, (most + 1) as real, t as real);
  }

  /** A size cut to whole lots. */
  function Cut(x: real, decimals: nat): int {
    (x * Pow10(decimals) as real).Floor
  }

  lemma RealMonotone(a: real, b: real, u: real)
    requires a <= b && u >= 0.0
    ensures a * u <= b * u
  {
    assert (b - a) * u >= 0.0;
  }

  lemma SizeTimesLots(lots: nat, decimals: nat)
    ensures SizeOf(lots, decimals) * Pow10(decimals) as real == lots as real
  {
    hide Pow10;
  }

  lemma FloorBetween(y: real, most: nat)
    requires most as real <= y <= (most + 1) as real
    ensures most <= y.Floor <= most + 1
  {
  }

  lemma CutBetween(x: real, decimals: nat, most: nat)
    requires SizeOf(most, decimals) <= x <= SizeOf(most + 1, decimals)
    ensures most <= Cut(x, decimals) <= most + 1
  {
    hide SizeOf, Pow10;
    var u := Pow10(decimals) as real;
    SizeTimesLots(most, decimals);
    SizeTimesLots(most + 1, decimals);
    RealMonotone(SizeOf(most, decimals), x, u);
    RealMonotone(x, SizeOf(most + 1, decimals), u);
    FloorBetween(x * u, most);
  }

  /** Rounding the quotient before it is cut to whole lots overshoots by at most one lot. */
  lemma RoundedQuotient(round: real -> real, notional: nat, p: nat, decimals: nat)
    requires p > 0 && RoundsTo(round, decimals, LotsWithin(notional, p, decimals) + 1)
    ensures LotsWithin(notional, p, decimals) <= Cut(round(Quotient(notional, p)), decimals)
      <= LotsWithin(notional, p, decimals) + 1
  {
    var most := LotsWithin(notional, p, decimals);
    QuotientBetween(notional, p, decimals);
    RoundedBetween(round, Quotient(notional, p), decimals, most);
    CutBetween(round(Quotient(notional, p)), decimals, most);
  }

  lemma RoundedBetween(round: real -> real, x: real, decimals: nat, most: nat)
    requires RoundsTo(round, decimals, most + 1) && SizeOf(most, decimals) <= x <= SizeOf(most + 1, decimals)
    ensures SizeOf(most, decimals) <= round(x) <= SizeOf(most + 1, decimals)
  {
    assert round(SizeOf(most, decimals)) <= round(x) <= round(SizeOf(most + 1, decimals));
  }

  /** With amounts inside the shared bounds every size in question fits 28 decimal digits. */
  lemma SizesFitContext(notional: nat, p: nat, decimals: nat)
    requires p > 0 && decimals <= 8 && ValidSpotPrice(p, decimals) && notional < MAX_AMOUNT
    ensures LotsWithin(notional, p, decimals) + 1 <= MAX_AMOUNT < Pow10(28)
  {
    LotValueIsWhole(p, decimals);
    NotionalExact(LotsWithin(notional, p, decimals), p, decimals);
    LargestSize(notional, p, decimals, LotsWithin(notional, p, decimals));
    var lots, u := LotsWithin(notional, p, decimals), p / Pow10(decimals);
    assert lots <= lots * u;
    ContextHolds();
  }

  lemma ContextHolds()
    ensures MAX_AMOUNT < Pow10(28)
  {
    assert Pow10(8) == UNITS;
    assert Pow10(14) == 1_000_000 * Pow10(8);
    assert Pow10(20) == 1_000_000 * Pow10(14);
    assert Pow10(26) == 1_000_000 * Pow10(20);
    assert Pow10(28) == 100 * Pow10(26);
  }

  datatype Market = Market(decimals: nat, minNotional: int)

  datatype Code =
    | VenueMismatch | PrincipalMismatch | BuyOnly | TargetMismatch | LimitOrderRequired | IocRequired
      | AbsoluteLimitOnly
    | OneNotionalRequired | NotionalInvalid | LimitPriceInvalid | MarketNotPinned | LimitPricePrecisionInvalid
    | SizeRoundsToZero | OrderNotionalInvalid | OrderBelowVenueMinimum

  /** The request as the adapter reads it: fields are None where the parser refuses them. */
  datatype Request = Request(
    venueMatches: bool, principalMatches: bool, primitive: Primitive, targetMatches: bool, limitOrder: bool, ioc: bool,
    slippageBound: bool, notionalFields: nat, notional: Option<int>, limitPrice: Option<int>, market: Option<Market>)

  datatype Sized = Order(lots: nat, price: nat, authorized: nat) | Refused(code: Code)

  predicate Readable(request: Request) {
    && (request.notional.Some? ==> -MAX_AMOUNT < request.notional.value < MAX_AMOUNT)
    && (request.limitPrice.Some? ==> -MAX_AMOUNT < request.limitPrice.value < MAX_AMOUNT)
    && (request.market.Some? ==> request.market.value.decimals <= 8 && request.market.value.minNotional > 0)
  }

  /** First objection to a request before any size is computed. */
  function Objection(request: Request): Option<Code>
    requires Readable(request)
  {
    if !request.venueMatches then Some(VenueMismatch)
    else if !request.principalMatches then Some(PrincipalMismatch)
    else if request.primitive != Buy then Some(BuyOnly)
    else if !request.targetMatches then Some(TargetMismatch)
    else if !request.limitOrder then Some(LimitOrderRequired)
    else if !request.ioc then Some(IocRequired)
    else if request.slippageBound then Some(AbsoluteLimitOnly)
    else if request.notionalFields != 1 then Some(OneNotionalRequired)
    else if request.notional.None? || request.notional.value <= 0 then Some(NotionalInvalid)
    else if request.limitPrice.None? || request.limitPrice.value <= 0 then Some(LimitPriceInvalid)
    else if request.market.None? then Some(MarketNotPinned)
    else if !ValidSpotPrice(request.limitPrice.value, request.market.value.decimals) then
      Some(LimitPricePrecisionInvalid)
    else None
  }

  /** Sizes the order. `quotient` is the context-rounded quotient cut to whole lots. */
  method RequestOrder(request: Request, quotient: nat) returns (sized: Sized)
    requires Readable(request)
    requires Objection(request).None? ==>
      var most := LotsWithin(request.notional.value, request.limitPrice.value, request.market.value.decimals);
      most <= quotient <= most + 1
    ensures Objection(request).Some? ==> sized == Refused(Objection(request).value)
    ensures Objection(request).None? ==>
      var n, p, d := request.notional.value, request.limitPrice.value, request.market.value.decimals;
      var most := LotsWithin(n, p, d);
      if most == 0 then sized == Refused(SizeRoundsToZero)
      else if NotionalCeiling(most, p, d) < request.market.value.minNotional then
        sized == Refused(OrderBelowVenueMinimum)
      else sized == Order(most, p, n)
  {
    var objection := Objection(request);
    if objection.Some? {
      return Refused(objection.value);
    }
    var n, p, market := request.notional.value, request.limitPrice.value, request.market.value;
    ghost var most := LotsWithin(n, p, market.decimals);
    LargestSize(n, p, market.decimals, quotient);
    var size := quotient;
    if size == 0 {
      return Refused(SizeRoundsToZero);
    }
    var bounded := NotionalCeiling(size, p, market.decimals);
    if bounded > n {
      size := size - 1;
      LargestSize(n, p, market.decimals, size);
      if size == 0 {
        return Refused(SizeRoundsToZero);
      }
      bounded := NotionalCeiling(size, p, market.decimals);
    }
    if bounded > n {
      return Refused(OrderNotionalInvalid);
    }
    if bounded < market.minNotional {
      return Refused(OrderBelowVenueMinimum);
    }
    sized := Order(size, p, n);
  }

  // ---- fills ----

  /** One reported fill; None where a decimal or an id is malformed. */
  datatype Fill = Fill(ours: bool, coinMatches: bool, buySide: bool, size: Option<real>, price: Option<real>,
                       tid: Option<string>)

  datatype Fact = Fact(tid: string, size: real, price: real)

  datatype FillError =
    | CoinMismatch | SideMismatch | DecimalMalformed | PriceExceedsLimit | IdMalformed | IdContradiction
    | AmountUnbounded

  datatype Filled = Totals(size: real, amount: real) | Rejected(error: FillError)

  predicate WellFormed(fill: Fill, limit: real) {
    && fill.coinMatches && fill.buySide
    && fill.size.Some? && fill.size.value > 0.0 && fill.price.Some? && 0.0 < fill.price.value <= limit
    && fill.tid.Some?
  }

  function FactOf(fill: Fill): Fact
    requires fill.size.Some? && fill.price.Some? && fill.tid.Some?
  {
    Fact(fill.tid.value, fill.size.value, fill.price.value)
  }

  /** Distinct trades of the order. */
  function Facts(fills: seq<Fill>): set<Fact> {
    set f | f in fills && f.ours && f.size.Some? && f.price.Some? && f.tid.Some? :: FactOf(f)
  }

  /** Every fill of the order is well formed, and a trade id always means the same trade. */
  ghost predicate Consistent(fills: seq<Fill>, limit: real) {
    && (forall f :: f in fills && f.ours ==> WellFormed(f, limit))
    && (forall a, b :: a in Facts(fills) && b in Facts(fills) && a.tid == b.tid ==> a == b)
  }

  ghost function Sum(facts: set<Fact>, weight: Fact -> real): real {
    if facts == {} then 0.0
    else
      var f :| f in facts;
      weight(f) + Sum(facts - {f}, weight)
  }

  lemma {:induction false} SumWithout(facts: set<Fact>, weight: Fact -> real, f: Fact)
    requires f in facts
    ensures Sum(facts, weight) == weight(f) + Sum(facts - {f}, weight)
    decreases |facts|
  {
    var g :| g in facts && Sum(facts, weight) == weight(g) + Sum(facts - {g}, weight);
    if g != f {
      SumWithout(facts - {g}, weight, f);
      SumWithout(facts - {f}, weight, g);
      assert facts - {g} - {f} == facts - {f} - {g};
    }
  }

  lemma {:induction false} SumOrder(facts: set<Fact>, low: Fact -> real, high: Fact -> real)
    requires forall f :: f in facts ==> low(f) <= high(f)
    ensures Sum(facts, low) <= Sum(facts, high)
    decreases |facts|
  {
    if facts != {} {
      var f :| f in facts;
      SumOrder(facts - {f}, low, high);
      SumWithout(facts, low, f);
      SumWithout(facts, high, f);
    }
  }

  lemma {:induction false} SumPositive(facts: set<Fact>, weight: Fact -> real)
    requires forall f :: f in facts ==> weight(f) > 0.0
    ensures Sum(facts, weight) >= 0.0 && (Sum(facts, weight) > 0.0 <==> facts != {})
    decreases |facts|
  {
    if facts != {} {
      var f :| f in facts;
      SumPositive(facts - {f}, weight);
      SumWithout(facts, weight, f);
    }
  }

  const BySize: Fact -> real := (f: Fact) => f.size
  const ByAmount: Fact -> real := (f: Fact) => f.size * f.price

  function AtLimit(limit: real): Fact -> real {
    (f: Fact) => Cost(f.size, limit)
  }

  /** What a size costs at the limit. */
  function Cost(size: real, limit: real): real {
    size * limit
  }

  lemma CostAdds(a: real, b: real, limit: real)
    ensures Cost(a + b, limit) == Cost(a, limit) + Cost(b, limit)
  {
  }

  lemma {:induction false} SumAtLimit(facts: set<Fact>, limit: real)
    ensures Sum(facts, AtLimit(limit)) == Cost(Sum(facts, BySize), limit)
    decreases |facts|
  {
    hide Cost;
    if facts == {} {
      CostAdds(0.0, 0.0, limit);
    } else {
      var f :| f in facts;
      SumAtLimit(facts - {f}, limit);
      SumWithout(facts, AtLimit(limit), f);
      SumWithout(facts, BySize, f);
      CostAdds(f.size, Sum(facts - {f}, BySize), limit);
    }
  }

  lemma AmountAtLimit(facts: set<Fact>, limit: real)
    requires forall f :: f in facts ==> f.size > 0.0 && 0.0 < f.price <= limit
    ensures Sum(facts, ByAmount) <= Sum(facts, AtLimit(limit))
    ensures Sum(facts, ByAmount) >= 0.0 && (Sum(facts, ByAmount) > 0.0 <==> facts != {})
  {
    forall f | f in facts ensures 0.0 < ByAmount(f) <= AtLimit(limit)(f) {
      MulReal(f.size, f.price, limit);
    }
    SumOrder(facts, ByAmount, AtLimit(limit));
    SumPositive(facts, ByAmount);
  }

  lemma MulReal(size: real, price: real, limit: real)
    requires size > 0.0 && 0.0 < price <= limit
    ensures 0.0 < size * price <= size * limit
  {
    assert size * (limit - price) >= 0.0;
  }

  /** No set of trades at or below the limit costs more than their total size at the limit. */
  lemma AmountBounded(facts: set<Fact>, limit: real)
    requires forall f :: f in facts ==> f.size > 0.0 && 0.0 < f.price <= limit
    ensures Sum(facts, ByAmount) <= Cost(Sum(facts, BySize), limit)
    ensures Sum(facts, ByAmount) > 0.0 <==> facts != {}
    ensures Sum(facts, BySize) > 0.0 <==> facts != {}
    ensures Sum(facts, BySize) >= 0.0 && Sum(facts, ByAmount) >= 0.0
  {
    AmountAtLimit(facts, limit);
    SumAtLimit(facts, limit);
    SumPositive(facts, BySize);
  }

  /** What is wrong with a fill of the order, given the trades already read. */
  predicate Contradicts(known: set<Fact>, f: Fact) {
    exists g :: g in known && g.tid == f.tid && g != f
  }

  function Offence(known: set<Fact>, fill: Fill, limit: real): Option<FillError> {
    if !fill.ours then None
    else if !fill.coinMatches then Some(CoinMismatch)
    else if !fill.buySide then Some(SideMismatch)
    else if fill.size.None? || fill.size.value <= 0.0 || fill.price.None? || fill.price.value <= 0.0 then
      Some(DecimalMalformed)
    else if fill.price.value > limit then Some(PriceExceedsLimit)
    else if fill.tid.None? then Some(IdMalformed)
    else if Contradicts(known, FactOf(fill)) then Some(IdContradiction)
    else None
  }

  /** The first offending fill decides the error. */
  ghost predicate FirstOffence(fills: seq<Fill>, k: nat, limit: real, error: FillError) {
    && k < |fills| && Offence(Facts(fills[..k]), fills[k], limit) == Some(error)
    && forall j :: 0 <= j < k ==> Offence(Facts(fills[..j]), fills[j], limit) == None
  }

  function Adds(fill: Fill): set<Fact> {
    if fill.ours && fill.size.Some? && fill.price.Some? && fill.tid.Some? then {FactOf(fill)} else {}
  }

  lemma FactsGrow(fills: seq<Fill>, n: nat)
    requires n < |fills|
    ensures Facts(fills[..n + 1]) == Facts(fills[..n]) + Adds(fills[n])
  {
    assert fills[..n + 1] == fills[..n] + [fills[n]];
    forall x ensures (x in Facts(fills[..n + 1])) == (x in Facts(fills[..n]) + Adds(fills[n])) {
      if x in Facts(fills[..n + 1]) {
        var f :| f in fills[..n + 1] && f.ours && f.size.Some? && f.price.Some? && f.tid.Some? && x == FactOf(f);
        assert f in fills[..n] || f == fills[n];
      }
    }
  }

  /** The dictionary of trades holds exactly the facts read so far. */
  ghost predicate Indexes(byTid: map<string, Fact>, facts: set<Fact>) {
    && (forall t :: t in byTid ==> byTid[t].tid == t && byTid[t] in facts)
    && (forall f :: f in facts ==> f.tid in byTid && byTid[f.tid] == f)
  }

  /** What distinct trades add up to. An amount whose units do not fit 28 digits is refused. */
  ghost function TotalsOf(facts: set<Fact>): Filled {
    if CeilUnits(Sum(facts, ByAmount)) < Pow10(28) then Totals(Sum(facts, BySize), Sum(facts, ByAmount))
    else Rejected(AmountUnbounded)
  }

  /** Reads the fills of the order into trades and totals them. */
  method ReadFills(fills: seq<Fill>, limit: real) returns (result: Filled)
    ensures Consistent(fills, limit) ==> result == TotalsOf(Facts(fills))
    ensures !Consistent(fills, limit) ==> result.Rejected? && exists k :: FirstOffence(fills, k, limit, result.error)
  {
    var byTid: map<string, Fact> := map[];
    for n := 0 to |fills|
      invariant Indexes(byTid, Facts(fills[..n]))
      invariant forall j :: 0 <= j < n ==> Offence(Facts(fills[..j]), fills[j], limit) == None
      invariant forall j :: 0 <= j < n && fills[j].ours ==> WellFormed(fills[j], limit)
    {
      var fill := fills[n];
      FactsGrow(fills, n);
      if fill.ours {
        var error := Examine(byTid, fill, limit);
        OffenceByIndex(byTid, Facts(fills[..n]), fill, limit);
        if error.Some? {
          assert FirstOffence(fills, n, limit, error.value);
          OffenceIsInconsistent(fills, n, limit, error.value);
          return Rejected(error.value);
        }
        byTid := byTid[fill.tid.value := FactOf(fill)];
      }
    }
    assert fills[..|fills|] == fills;
    var size, amount := Total(byTid);
    ValuesAreFacts(byTid, Facts(fills));
    result := if CeilUnits(amount) < Pow10(28) then Totals(size, amount) else Rejected(AmountUnbounded);
  }

  function ExamineFill(byTid: map<string, Fact>, fill: Fill, limit: real): Option<FillError> {
    if !fill.coinMatches then Some(CoinMismatch)
    else if !fill.buySide then Some(SideMismatch)
    else if fill.size.None? || fill.size.value <= 0.0 || fill.price.None? || fill.price.value <= 0.0 then
      Some(DecimalMalformed)
    else if fill.price.value > limit then Some(PriceExceedsLimit)
    else if fill.tid.None? then Some(IdMalformed)
    else if fill.tid.value in byTid && byTid[fill.tid.value] != FactOf(fill) then Some(IdContradiction)
    else None
  }

  method Examine(byTid: map<string, Fact>, fill: Fill, limit: real) returns (error: Option<FillError>)
    ensures error == ExamineFill(byTid, fill, limit)
  {
    error := ExamineFill(byTid, fill, limit);
  }

  lemma OffenceByIndex(byTid: map<string, Fact>, known: set<Fact>, fill: Fill, limit: real)
    requires Indexes(byTid, known) && fill.ours
    ensures Offence(known, fill, limit) == ExamineFill(byTid, fill, limit)
  {
    if fill.size.Some? && fill.price.Some? && fill.tid.Some? && fill.tid.value in byTid {
      assert byTid[fill.tid.value] in known;
    }
  }

  lemma OffenceIsInconsistent(fills: seq<Fill>, k: nat, limit: real, error: FillError)
    requires FirstOffence(fills, k, limit, error)
    ensures !Consistent(fills, limit)
  {
    assert fills[k] in fills;
    if error == IdContradiction {
      var g :| g in Facts(fills[..k]) && g.tid == FactOf(fills[k]).tid && g != FactOf(fills[k]);
      assert g in Facts(fills);
      assert FactOf(fills[k]) in Facts(fills);
    }
  }

  lemma ValuesAreFacts(byTid: map<string, Fact>, facts: set<Fact>)
    requires Indexes(byTid, facts)
    ensures byTid.Values == facts
    ensures forall a, b :: a in facts && b in facts && a.tid == b.tid ==> a == b
  {
    forall f ensures f in byTid.Values <==> f in facts {
      if f in facts {
        assert byTid[f.tid] == f;
      }
    }
  }

  method Total(byTid: map<string, Fact>) returns (size: real, amount: real)
    ensures size == Sum(byTid.Values, BySize) && amount == Sum(byTid.Values, ByAmount)
  {
    var rest := byTid.Values;
    size, amount := 0.0, 0.0;
    while rest != {}
      invariant rest <= byTid.Values
      invariant size + Sum(rest, BySize) == Sum(byTid.Values, BySize)
      invariant amount + Sum(rest, ByAmount) == Sum(byTid.Values, ByAmount)
      decreases |rest|
    {
      var f :| f in rest;
      SumWithout(rest, BySize, f);
      SumWithout(rest, ByAmount, f);
      size, amount := size + BySize(f), amount + ByAmount(f);
      rest := rest - {f};
    }
  }

  /** Neither the order of the fills nor repetitions of a trade matter. */
  lemma FillOrderIrrelevant(a: seq<Fill>, b: seq<Fill>, limit: real)
    requires forall f :: f in a <==> f in b
    ensures Facts(a) == Facts(b)
    ensures Consistent(a, limit) <==> Consistent(b, limit)
  {
  }

  // ---- settlement of the order ----

  /** A sized order at a valid price, as RequestOrder makes it. */
  predicate ValidOrder(order: Sized, decimals: nat) {
    && order.Order? && decimals <= 8 && order.price > 0 && ValidSpotPrice(order.price, decimals)
    && order.lots > 0 && NotionalCeiling(order.lots, order.price, decimals) <= order.authorized < MAX_AMOUNT
  }

  function PriceOf(p: nat): real {
    p as real / UNITS as real
  }

  /** Least number of 10^-8 units not below the amount. */
  function CeilUnits(amount: real): int {
    -((-amount * UNITS as real).Floor)
  }

  lemma CeilFits(amount: real, n: nat)
    requires amount * UNITS as real <= n as real
    ensures CeilUnits(amount) <= n
  {
    assert -amount * UNITS as real >= -(n as real);
  }

  lemma RealAtLimit(size: real, s: real, p: nat, t: nat, lots: nat, n: nat)
    requires t > 0 && size <= s && s * t as real == lots as real && n * t == lots * p
    ensures size * p as real <= n as real
  {
    CastProduct(n, t, lots, p);
    Rearranged(s, p as real, t as real, lots as real, n as real);
    Dominated(size, s, p as real);
  }

  lemma Rearranged(s: real, r: real, t: real, worth: real, n: real)
    requires t > 0.0 && s * t == worth && n * t == worth * r
    ensures s * r == n
  {
    assert (s * r) * t == (s * t) * r;
    RealCancel(s * r, n, t);
    RealCancel(n, s * r, t);
  }

  lemma Dominated(a: real, b: real, r: real)
    requires a <= b && r >= 0.0
    ensures a * r <= b * r
  {
  }

  lemma PriceInUnits(size: real, p: nat)
    ensures Cost(size, PriceOf(p)) * UNITS as real == size * p as real
  {
    assert PriceOf(p) * UNITS as real == p as real;
    assert size * PriceOf(p) * UNITS as real == size * (PriceOf(p) * UNITS as real);
  }

  lemma CastProduct(a: nat, b: nat, c: nat, d: nat)
    requires a * b == c * d
    ensures a as real * b as real == c as real * d as real
  {
    assert (a * b) as real == a as real * b as real;
    assert (c * d) as real == c as real * d as real;
  }

  lemma UnitsAtLimit(size: real, lots: nat, p: nat, decimals: nat)
    requires p > 0 && decimals <= 8 && ValidSpotPrice(p, decimals) && size <= SizeOf(lots, decimals)
    ensures size * p as real <= NotionalCeiling(lots, p, decimals) as real
  {
    NotionalExact(lots, p, decimals);
    SizeTimesLots(lots, decimals);
    RealAtLimit(size, SizeOf(lots, decimals), p, Pow10(decimals), lots, NotionalCeiling(lots, p, decimals));
  }

  /** No more than the order's size, at its limit, costs at most the order's notional. */
  lemma NotionalAtLimit(size: real, lots: nat, p: nat, decimals: nat)
    requires p > 0 && decimals <= 8 && ValidSpotPrice(p, decimals) && size <= SizeOf(lots, decimals)
    ensures Cost(size, PriceOf(p)) * UNITS as real <= NotionalCeiling(lots, p, decimals) as real
  {
    UnitsAtLimit(size, lots, p, decimals);
    PriceInUnits(size, p);
  }

  /** What a size costs at the limit is an upper bound on what it settled. */
  lemma AmountFits(amount: real, size: real, order: Sized, decimals: nat)
    requires ValidOrder(order, decimals) && size <= SizeOf(order.lots, decimals)
    requires amount <= Cost(size, PriceOf(order.price))
    ensures CeilUnits(amount) <= order.authorized
  {
    var n := NotionalCeiling(order.lots, order.price, decimals);
    NotionalAtLimit(size, order.lots, order.price, decimals);
    BelowLimit(amount, Cost(size, PriceOf(order.price)), n);
  }

  lemma BelowLimit(amount: real, atLimit: real, n: nat)
    requires amount <= atLimit && atLimit * UNITS as real <= n as real
    ensures CeilUnits(amount) <= n
  {
    CeilFits(amount, n);
  }

  lemma CostBounded(fills: seq<Fill>, limit: real)
    requires Consistent(fills, limit)
    ensures Sum(Facts(fills), ByAmount) <= Cost(Sum(Facts(fills), BySize), limit)
  {
    TradesPositive(fills, limit);
    AmountBounded(Facts(fills), limit);
  }

  /** Any consistent fill list of a valid order that fills no more than its size settles, rounded up, at
      most the authorised notional. */
  lemma FillsStayAuthorized(order: Sized, decimals: nat, fills: seq<Fill>)
    requires ValidOrder(order, decimals) && Consistent(fills, PriceOf(order.price))
    requires Sum(Facts(fills), BySize) <= SizeOf(order.lots, decimals)
    ensures CeilUnits(Sum(Facts(fills), ByAmount)) <= order.authorized
  {
    CostBounded(fills, PriceOf(order.price));
    AmountFits(Sum(Facts(fills), ByAmount), Sum(Facts(fills), BySize), order, decimals);
  }

  lemma TradesPositive(fills: seq<Fill>, limit: real)
    requires Consistent(fills, limit)
    ensures forall f :: f in Facts(fills) ==> f.size > 0.0 && 0.0 < f.price <= limit
  {
  }

  datatype VenueStatus = OpenOrder | FilledOrder | CancelledOrder | RejectedOrder | OtherStatus

  datatype Settled = Contradiction(reason: string) | Undecided(reason: string) | Settles(amount: int)
    | CancelledAt(amount: int)

  /** The verifier's verdict on an order found at the venue, its identity already checked. */
  function Settle(order: Sized, decimals: nat, remaining: real, status: VenueStatus, timestampValid: bool,
                  pageFull: bool,
                  filled: Filled): Settled
    requires order.Order?
  {
    var original := SizeOf(order.lots, decimals);
    if remaining < 0.0 || remaining > original then Contradiction("HL_REMAINING_SIZE_INVALID")
    else if status == OpenOrder then Contradiction("HL_IOC_NONTERMINAL_STATUS")
    else if status == OtherStatus then Undecided("HL_STATUS_UNRECOGNIZED")
    else if !timestampValid then Contradiction("HL_ORDER_TIMESTAMP_INVALID")
    else if pageFull then Undecided("HL_FILL_PAGE_MAY_BE_TRUNCATED")
    else if filled.Rejected? then Contradiction("HL_FILL")
    else if filled.size > original - remaining then Contradiction("HL_FILL_TOTAL_EXCEEDS_ORDER")
    else if filled.size < original - remaining then Undecided("HL_FILL_HISTORY_INCOMPLETE")
    else if CeilUnits(filled.amount) > order.authorized then Contradiction("HL_FILL_EXCEEDS_AUTHORIZED_NOTIONAL")
    else if status == FilledOrder then
      if remaining != 0.0 || filled.size != original || CeilUnits(filled.amount) <= 0 then
        Contradiction("HL_FILLED_STATUS_INCONSISTENT")
      else Settles(CeilUnits(filled.amount))
    else if status == RejectedOrder && filled.size != 0.0 then Contradiction("HL_REJECTION_HAS_FILL")
    else CancelledAt(CeilUnits(filled.amount))
  }

  /** What the trades of a valid order add up to, as far as its settlement asks. */
  lemma ValidTotals(order: Sized, decimals: nat, fills: seq<Fill>)
    requires ValidOrder(order, decimals) && Consistent(fills, PriceOf(order.price))
    ensures var facts := Facts(fills);
      var size, units := Sum(facts, BySize), CeilUnits(Sum(facts, ByAmount));
      && SizeOf(order.lots, decimals) > 0.0 && units >= 0 && (units > 0 <==> facts != {})
         && (size > 0.0 <==> facts != {})
      && size >= 0.0
      && (size <= SizeOf(order.lots, decimals) ==> units <= order.authorized && TotalsOf(facts).Totals?)
  {
    var facts := Facts(fills);
    TradesPositive(fills, PriceOf(order.price));
    AmountBounded(facts, PriceOf(order.price));
    CeilSign(Sum(facts, ByAmount));
    PositiveSize(order.lots, decimals);
    hide Sum, CeilUnits, SizeOf, Pow10, Consistent, NotionalCeiling, ValidSpotPrice;
    if Sum(facts, BySize) <= SizeOf(order.lots, decimals) {
      FillsStayAuthorized(order, decimals, fills);
      ContextHolds();
    }
  }

  /** The verdict is final exactly for a filled order whose trades add up to the whole size, and then it
      settles a positive amount inside the authorisation; the overdraft check never fires. */
  lemma FilledOrderFinalizes(order: Sized, decimals: nat, remaining: real, status: VenueStatus, fills: seq<Fill>)
    requires ValidOrder(order, decimals) && Consistent(fills, PriceOf(order.price))
    requires 0.0 <= remaining <= SizeOf(order.lots, decimals)
    ensures var verdict := Settle(order, decimals, remaining, status, true, false, TotalsOf(Facts(fills)));
      && verdict != Contradiction("HL_FILL_EXCEEDS_AUTHORIZED_NOTIONAL")
      && (verdict.Settles? <==>
            status == FilledOrder && remaining == 0.0 && Sum(Facts(fills), BySize) == SizeOf(order.lots, decimals))
      && (verdict.Settles? ==> 0 < verdict.amount <= order.authorized)
      && (verdict.CancelledAt? ==>
            && 0 <= verdict.amount <= order.authorized
            && (verdict.amount == 0 <==> Facts(fills) == {})
            && (status == RejectedOrder ==> Facts(fills) == {}))
  {
    hide Sum, CeilUnits, SizeOf, Pow10, Consistent, ValidOrder;
    ValidTotals(order, decimals, fills);
  }

  lemma CeilSign(amount: real)
    requires amount >= 0.0
    ensures CeilUnits(amount) >= 0 && (CeilUnits(amount) > 0 <==> amount > 0.0)
  {
    var x := -amount * UNITS as real;
    assert x <= 0.0 && (amount > 0.0 <==> x < 0.0);
  }

  lemma PositiveSize(lots: nat, decimals: nat)
    requires lots > 0
    ensures SizeOf(lots, decimals) > 0.0
  {
    assert SizeOf(lots, decimals) * Pow10(decimals) as real == lots as real;
  }
}
