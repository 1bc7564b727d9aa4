/** The spot adapter's checks and verdicts once more, in numbers. */
module HyperliquidLaws {
  import opened Types
  import opened Hyperliquid

  // ---- numbers ----

  lemma PowersOfTen()
    ensures Pow10(0) == 1 && Pow10(1) == 10 && Pow10(8) == 100_000_000
  {
  }

  /** A price is its significant digits followed by its trailing zeros. */
  lemma {:induction false} Normalised(p: nat)
    requires p > 0
    ensures Significant(p) > 0 && p == Significant(p) * Pow10(TrailingZeros(p))
    decreases p
  {
    if p % 10 == 0 {
      var q := p / 10;
      Normalised(q);
      assert p == 10 * q;
      Tenfold(q, Significant(q), TrailingZeros(q));
    }
  }

  lemma Tenfold(q: nat, m: nat, k: nat)
    requires q == m * Pow10(k)
    ensures 10 * q == m * Pow10(k + 1)
  {
  }

  /** No way to write a price has more zeros or fewer digits than the normalised one. */
  lemma {:induction false} NormalisedIsLeast(p: nat, m: nat, k: nat)
    requires p > 0 && p == m * Pow10(k)
    ensures k <= TrailingZeros(p) && Significant(p) <= m
    decreases k, p
  {
    if k == 0 {
      SignificantBelow(p);
    } else {
      var q := m * Pow10(k - 1);
      Tenfold(q, m, k - 1);
      assert p == 10 * q && p / 10 == q;
      NormalisedIsLeast(q, m, k - 1);
    }
  }

  lemma {:induction false} SignificantBelow(p: nat)
    requires p > 0
    ensures Significant(p) <= p
    decreases p
  {
    if p % 10 == 0 {
      SignificantBelow(p / 10);
    }
  }

  lemma {:induction false} ZerosReach(p: nat, n: nat)
    requires p > 0 && p % Pow10(n) == 0
    ensures n <= TrailingZeros(p)
  {
    WholeQuotient(p, Pow10(n));
    NormalisedIsLeast(p, p / Pow10(n), n);
  }

  /** The price is `m` followed by `k` zeros. */
  predicate Written(p: nat, m: nat, k: nat) {
    p == m * Pow10(k)
  }

  /** A spot price is valid exactly when it is a whole number, or has at most five significant digits with
      no more decimals than the asset's size leaves of eight. */
  lemma SpotPrices(p: nat, decimals: nat)
    requires p > 0 && decimals <= 8
    ensures ValidSpotPrice(p, decimals) <==>
      p % 100_000_000 == 0 || exists m: nat, k: nat :: m < 100_000 && k >= decimals && Written(p, m, k)
  {
    PowersOfTen();
    Normalised(p);
    assert Written(p, Significant(p), TrailingZeros(p));
    if TrailingZeros(p) >= 8 {
      ZerosDivide(p, 8);
    }
    if p % 100_000_000 == 0 {
      ZerosReach(p, 8);
    }
    if m: nat, k: nat :| m < 100_000 && k >= decimals && Written(p, m, k) {
      NormalisedIsLeast(p, m, k);
    }
  }

  /** The notional of a size is the least amount not below its exact worth. */
  lemma CeilingIsLeast(lots: nat, p: nat, decimals: nat, n: nat)
    ensures NotionalCeiling(lots, p, decimals) <= n <==> lots * p <= n * Pow10(decimals)
  {
    var t, a := Pow10(decimals), lots * p + Pow10(decimals) - 1;
    FloorBounds(a, t);
    Successor(n, t);
    Successor(a / t, t);
    if a / t <= n {
      MulMonotone(a / t, n, t);
    } else {
      MulMonotone(n + 1, a / t, t);
    }
  }

  /** The least number of units of 10^-8 not below the amount. */
  predicate RoundsUp(units: int, amount: real) {
    (units - 1) as real < amount * 100_000_000.0 <= units as real
  }

  lemma UnitsRoundUp(amount: real, units: int)
    ensures CeilUnits(amount) == units <==> RoundsUp(units, amount)
  {
    assert -amount * UNITS as real == -(amount * 100_000_000.0);
  }

  // ---- the request ----

  /** The checks of a request in order, with what each refusal is called. */
  function Checks(request: Request): (checks: seq<(bool, Code)>)
    requires Readable(request)
  {
    [ (request.venueMatches, VenueMismatch),
      (request.principalMatches, PrincipalMismatch),
      (request.primitive == Buy, BuyOnly),
      (request.targetMatches, TargetMismatch),
      (request.limitOrder, LimitOrderRequired),
      (request.ioc, IocRequired),
      (!request.slippageBound, AbsoluteLimitOnly),
      (request.notionalFields == 1, OneNotionalRequired),
      (request.notional.Some? && request.notional.value > 0, NotionalInvalid),
      (request.limitPrice.Some? && request.limitPrice.value > 0, LimitPriceInvalid),
      (request.market.Some?, MarketNotPinned),
      (request.limitPrice.Some? && request.limitPrice.value > 0 && request.market.Some?
       && ValidSpotPrice(request.limitPrice.value, request.market.value.decimals), LimitPricePrecisionInvalid)]
  }

  /** A request is refused by the first check it fails, and goes on to sizing exactly when it fails none. */
  lemma FirstFailedCheck(request: Request, k: nat)
    requires Readable(request) && k < |Checks(request)|
    ensures Objection(request) == None <==> forall j :: 0 <= j < |Checks(request)| ==> Checks(request)[j].0
    ensures !Checks(request)[k].0 && (forall j :: 0 <= j < k ==> Checks(request)[j].0) ==>
      Objection(request) == Some(Checks(request)[k].1)
  {
    hide ValidSpotPrice;
    var c := Checks(request);
    assert |c| == 12;
    if Objection(request) == None {
      assert c[0].0 && c[1].0 && c[2].0 && c[3].0 && c[4].0 && c[5].0;
      assert c[6].0 && c[7].0 && c[8].0 && c[9].0 && c[10].0 && c[11].0;
    }
    if forall j :: 0 <= j < |c| ==> c[j].0 {
      assert c[0].0 && c[1].0 && c[2].0 && c[3].0 && c[4].0 && c[5].0;
      assert c[6].0 && c[7].0 && c[8].0 && c[9].0 && c[10].0 && c[11].0;
    }
    if !c[k].0 && forall j :: 0 <= j < k ==> c[j].0 {
      assert (k > 0 ==> c[0].0) && (k > 1 ==> c[1].0) && (k > 2 ==> c[2].0) && (k > 3 ==> c[3].0);
      assert (k > 4 ==> c[4].0) && (k > 5 ==> c[5].0) && (k > 6 ==> c[6].0) && (k > 7 ==> c[7].0);
      assert (k > 8 ==> c[8].0) && (k > 9 ==> c[9].0) && (k > 10 ==> c[10].0);
    }
  }

  /** The size of an order is worth at most the authorisation and one lot more would be worth more; it is
      below the venue's minimum exactly when its exact worth is. */
  lemma SizedOrder(n: nat, p: nat, decimals: nat, minNotional: nat, lots: nat)
    requires p > 0 && decimals <= 8 && ValidSpotPrice(p, decimals)
    ensures lots == LotsWithin(n, p, decimals) <==>
      lots * p <= n * Pow10(decimals) && (lots + 1) * p > n * Pow10(decimals)
    ensures NotionalCeiling(lots, p, decimals) < minNotional <==> !(minNotional * Pow10(decimals) <= lots * p)
  {
    LargestSize(n, p, decimals, lots);
    LargestSize(n, p, decimals, lots + 1);
    CeilingIsLeast(lots, p, decimals, n);
    CeilingIsLeast(lots + 1, p, decimals, n);
    NotionalExact(lots, p, decimals);
    var value := NotionalCeiling(lots, p, decimals);
    if value < minNotional {
      MulMonotone(value + 1, minNotional, Pow10(decimals));
      Successor(value, Pow10(decimals));
    } else {
      MulMonotone(minNotional, value, Pow10(decimals));
    }
  }

  // ---- fills ----

  /** The checks of one fill of the order in turn, given the trades already read. */
  ghost function FillChecks(known: set<Fact>, fill: Fill, limit: real): (checks: seq<(bool, FillError)>) {
    [ (fill.coinMatches, CoinMismatch),
      (fill.buySide, SideMismatch),
      (fill.size.Some? && fill.size.value > 0.0 && fill.price.Some? && fill.price.value > 0.0, DecimalMalformed),
      (fill.price.Some? && fill.price.value <= limit, PriceExceedsLimit),
      (fill.tid.Some?, IdMalformed),
      (fill.size.Some? && fill.price.Some? && fill.tid.Some?
       && forall g :: g in known && g.tid == fill.tid.value ==>
                        g.size == fill.size.value && g.price == fill.price.value, IdContradiction)]
  }

  /** Fills of other orders are passed over; one of this order is rejected by the first check it fails. */
  lemma FirstFailedFillCheck(known: set<Fact>, fill: Fill, limit: real, k: nat)
    requires k < |FillChecks(known, fill, limit)|
    ensures var checks := FillChecks(known, fill, limit);
      && (Offence(known, fill, limit) == None <==> !fill.ours || forall j :: 0 <= j < |checks| ==> checks[j].0)
      && (fill.ours && !checks[k].0 && (forall j :: 0 <= j < k ==> checks[j].0) ==>
            Offence(known, fill, limit) == Some(checks[k].1))
  {
    var c := FillChecks(known, fill, limit);
    assert |c| == 6;
    if forall j :: 0 <= j < |c| ==> c[j].0 {
      assert c[0].0 && c[1].0 && c[2].0 && c[3].0 && c[4].0 && c[5].0;
    }
    if !c[k].0 && forall j :: 0 <= j < k ==> c[j].0 {
      assert (k > 0 ==> c[0].0) && (k > 1 ==> c[1].0) && (k > 2 ==> c[2].0) && (k > 3 ==> c[3].0);
      assert k > 4 ==> c[4].0;
    }
  }

  // ---- the verdict ----

  /** The verdict on an order found at the venue, for every report of its fills: it settles or is cancelled
      at exactly what its trades cost, rounded up to a unit; it is undecided exactly while more may be
      learned; anything else is a contradiction. */
  lemma Verdicts(order: Sized, decimals: nat, remaining: real, status: VenueStatus, timestampValid: bool,
                 pageFull: bool, filled: Filled)
    requires order.Order?
    ensures var v := Settle(order, decimals, remaining, status, timestampValid, pageFull, filled);
      var original := order.lots as real / Pow10(decimals) as real;
      var sane := 0.0 <= remaining <= original;
      var closed := status == FilledOrder || status == CancelledOrder || status == RejectedOrder;
      var read := sane && closed && timestampValid && !pageFull && filled.Totals?;
      && (v.Settles? <==>
            read && status == FilledOrder && remaining == 0.0 && filled.size == original && filled.amount > 0.0
            && filled.amount * 100_000_000.0 <= order.authorized as real)
      && (v.CancelledAt? <==>
            read && status != FilledOrder && filled.size == original - remaining
            && filled.amount * 100_000_000.0 <= order.authorized as real
            && (status == RejectedOrder ==> filled.size == 0.0))
      && (v.Settles? || v.CancelledAt? ==> RoundsUp(v.amount, filled.amount))
      && (v.Undecided? <==>
            sane && (status == OtherStatus
                     || (closed && timestampValid
                         && (pageFull || (filled.Totals? && filled.size < original - remaining)))))
  {
    hide CeilUnits, RoundsUp;
    if filled.Totals? {
      UnitsRoundUp(filled.amount, CeilUnits(filled.amount));
      UnitsFit(filled.amount, order.authorized);
      UnitsFit(filled.amount, 0);
    }
  }

  lemma UnitsFit(amount: real, n: int)
    ensures CeilUnits(amount) <= n <==> amount * 100_000_000.0 <= n as real
  {
    assert -amount * UNITS as real == -(amount * 100_000_000.0);
  }
}
