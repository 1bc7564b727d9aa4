/** The paper venue's order book: admission, fills, cancellations and settlement lookups. Quantities are
    exact; how the venue divides and which balances it can represent are parameters of the venue. */
module PaperBook {
  import opened Types
  import Settlement

  type Key = string
  type Asset = string

  const QUOTE: Asset := "USDC"
  const STABLE_ASSETS: set<Asset> := {"USD", "USDC", "USDT"}

  datatype Side = Buying | Selling

  datatype TimeInForce = Ioc | Gtc

  /** A limit order as the venue reads it from the request. */
  datatype Plan = Plan(notional: real, limit: real, side: Side, base: Asset, timeInForce: TimeInForce)

  datatype Action = Trade(plan: Plan) | Cancel(target: string) | Unreadable

  /** An execution request; `key` is its client order id, fixed by principal and intent. */
  datatype Request = Request(key: Key, principal: PrincipalId, inScope: bool, action: Action)

  datatype OrderState = Pending | Filled | Cancelled | Rejected

  datatype Fill = Fill(baseQuantity: real, quoteQuantity: real, price: real)

  /** One book row. A cancellation is recorded as a row without a plan. */
  datatype Order = Order(id: string, request: Request, plan: Option<Plan>, state: OrderState, fill: Option<Fill>,
                         amount: Option<real>)

  datatype Book = Book(
    orders: map<Key, Order>,
    keysById: map<string, Key>,
    balances: map<Asset, real>,
    prices: map<Asset, real>,
    fillPrices: map<Asset, real>,
    arrivals: seq<Key>)

  /** Decimal division, the balances the ledger can represent, and order ids. */
  datatype Venue = Venue(
    divide: (real, real) -> real,
    admissible: real -> bool,
    idOf: (Key, string) -> string)

  datatype Answer = Receipt(order: Order) | Refused(reason: string)

  /** The new book, the answer, and whether the request's permit was consumed. */
  datatype Outcome = Outcome(book: Book, answer: Answer, admitted: bool)

  datatype Try<T> = Done(value: T) | Failed(reason: string)

  // ---- prices and balances ----

  function PriceIn(table: map<Asset, real>, asset: Asset): Option<real> {
    if asset in STABLE_ASSETS then Some(1.0)
    else if asset in table && table[asset] > 0.0 then Some(table[asset])
    else None
  }

  /** The executable price. The reference price must exist as well before a permit is consumed. */
  function FillPrice(book: Book, asset: Asset): Option<real> {
    PriceIn(book.fillPrices, asset)
  }

  function Balance(balances: map<Asset, real>, asset: Asset): real {
    if asset in balances then balances[asset] else 0.0
  }

  /** The venue would fill at or inside the limit right now. */
  predicate Marketable(book: Book, plan: Plan) {
    var price := FillPrice(book, plan.base);
    price.Some? && if plan.side == Selling then price.value >= plan.limit else price.value <= plan.limit
  }

  /** Both legs, or neither. */
  function Transferred(venue: Venue, balances: map<Asset, real>, debit: Asset, debitQuantity: real, credit: Asset,
                       creditQuantity: real)
    : Try<map<Asset, real>>
  {
    if debit == credit then Failed("PAPER_TRANSFER_ASSETS_IDENTICAL")
    else if debitQuantity <= 0.0 || creditQuantity <= 0.0 then Failed("PAPER_FILL_QUANTITY_INVALID")
    else if Balance(balances, debit) < debitQuantity then Failed("INSUFFICIENT_BALANCE")
    else
      var nextDebit, nextCredit := Balance(balances, debit) - debitQuantity, Balance(balances, credit) + creditQuantity;
      if !venue.admissible(nextDebit) || !venue.admissible(nextCredit) then Failed("PAPER_BALANCE_OUT_OF_BOUNDS")
      else Done(balances[debit := nextDebit][credit := nextCredit])
  }

  // ---- one order ----

  function FillOf(venue: Venue, plan: Plan, price: real, quotePrice: real): Fill {
    Fill(venue.divide(plan.notional, price), venue.divide(plan.notional, quotePrice), price)
  }

  /** Fills a pending order at the current price. */
  function FilledBook(venue: Venue, book: Book, key: Key): Try<Book>
    requires key in book.orders
  {
    var order := book.orders[key];
    if order.state == Cancelled then Failed("ORDER_ALREADY_CANCELLED")
    else if order.state == Filled then Done(book)
    else if order.state == Rejected then Failed("ORDER_ALREADY_REJECTED")
    else if order.plan.None? then Failed("PAPER_ORDER_MALFORMED")
    else
      var plan := order.plan.value;
      var price, quotePrice := FillPrice(book, plan.base), FillPrice(book, QUOTE);
      if !Marketable(book, plan) then Failed("LIMIT_PRICE_EXCEEDED")
      else if quotePrice.None? then Failed("NO_PAPER_PRICE")
      else
        var fill := FillOf(venue, plan, price.value, quotePrice.value);
        var balances := if plan.side == Selling
          then Transferred(venue, book.balances, plan.base, fill.baseQuantity, QUOTE, fill.quoteQuantity)
          else Transferred(venue, book.balances, QUOTE, fill.quoteQuantity, plan.base, fill.baseQuantity);
        if balances.Failed? then Failed(balances.reason)
        else
          var order' := order.(state := Filled, fill := Some(fill), amount := Some(plan.notional));
          Done(book.(orders := book.orders[key := order'], balances := balances.value,
                     keysById := book.keysById[order.id := key]))
  }

  /** An admitted order that cannot trade ends cancelled, under the id it already has. */
  function Unfilled(book: Book, key: Key): Book
    requires key in book.orders
  {
    book.(orders := book.orders[key := book.orders[key].(state := Cancelled, amount := Some(0.0))])
  }

  function Recorded(book: Book, key: Key, order: Order): Book {
    book.(orders := book.orders[key := order], keysById := book.keysById[order.id := key],
          arrivals := if key in book.orders then book.arrivals else book.arrivals + [key])
  }

  // ---- the venue's operations ----

  /** What an admitted order becomes. */
  function Settled(venue: Venue, book: Book, key: Key, plan: Plan): Outcome
    requires key in book.orders
  {
    if Marketable(book, plan) then
      var filled := FilledBook(venue, book, key);
      if filled.Done? && key in filled.value.orders then Outcome(filled.value, Receipt(filled.value.orders[key]), true)
      else Outcome(Unfilled(book, key), Refused(if filled.Failed? then filled.reason else ""), true)
    else if plan.timeInForce == Gtc then Outcome(book, Receipt(book.orders[key]), true)
    else Outcome(Unfilled(book, key), Refused("LIMIT_PRICE_EXCEEDED"), true)
  }

  function CancelTarget(book: Book, target: string): Option<Key> {
    if target in book.keysById && book.keysById[target] in book.orders then Some(book.keysById[target])
    else if target in book.orders then Some(target)
    else None
  }

  function CancelRow(venue: Venue, request: Request): Order {
    Order(venue.idOf(request.key, "cancel"), request, None, Filled, None, None)
  }

  /** `consumes` says whether the permit authority would consume the presented permit now. */
  function CancelOutcome(venue: Venue, book: Book, request: Request, target: string, consumes: bool): Outcome {
    var key := CancelTarget(book, target);
    if target == "" then Outcome(book, Refused("ORDER_ID_INVALID"), false)
    else if key.None? then Outcome(book, Refused("ORDER_NOT_FOUND"), false)
    else
      var order := book.orders[key.value];
      if order.request.principal != request.principal then Outcome(book, Refused("ORDER_NOT_OWNED"), false)
      else if order.state == Filled then Outcome(book, Refused("ORDER_ALREADY_FILLED"), false)
      else if order.state == Rejected then Outcome(book, Refused("ORDER_ALREADY_REJECTED"), false)
      else if !consumes then Outcome(book, Refused("PERMIT_REJECTED"), false)
      else Outcome(Recorded(Unfilled(book, key.value), request.key, CancelRow(venue, request)),
                   Receipt(CancelRow(venue, request)), true)
  }

  function SubmitOutcome(venue: Venue, book: Book, request: Request, consumes: bool): Outcome {
    if !request.inScope then Outcome(book, Refused("OUT_OF_SCOPE"), false)
    else if request.key in book.orders then
      var existing := book.orders[request.key];
      if existing.state == Cancelled then Outcome(book, Refused("ORDER_ALREADY_CANCELLED"), false)
      else if existing.state == Rejected then Outcome(book, Refused("ORDER_ALREADY_REJECTED"), false)
      else if existing.request != request then Outcome(book, Refused("ORDER_REQUEST_BINDING_MISMATCH"), false)
      else Outcome(book, Receipt(existing), false)
    else match request.action
      case Unreadable => Outcome(book, Refused("UNREADABLE"), false)
      case Cancel(target) => CancelOutcome(venue, book, request, target, consumes)
      case Trade(plan) =>
        if plan.notional <= 0.0 || plan.limit <= 0.0 || plan.base == QUOTE then
          Outcome(book, Refused("PAPER_ORDER_INVALID"), false)
        else if PriceIn(book.prices, plan.base).None? || FillPrice(book, plan.base).None? then
          Outcome(book, Refused("NO_PAPER_PRICE"), false)
        else if !consumes then Outcome(book, Refused("PERMIT_REJECTED"), false)
        else
          var order := Order(venue.idOf(request.key, "order"), request, Some(plan), Pending, None, Some(0.0));
          Settled(venue, Recorded(book, request.key, order), request.key, plan)
  }

  /** Matching looks at one resting order. */
  function MatchedOne(venue: Venue, book: Book, key: Key): Book {
    if key !in book.orders || book.orders[key].state != Pending || book.orders[key].plan.None?
       || !Marketable(book, book.orders[key].plan.value) then book
    else
      var filled := FilledBook(venue, book, key);
      if filled.Done? then filled.value else Unfilled(book, key)
  }

  function Matched(venue: Venue, book: Book, keys: seq<Key>): Book
    decreases |keys|
  {
    if keys == [] then book else MatchedOne(venue, Matched(venue, book, keys[..|keys| - 1]), keys[|keys| - 1])
  }

  function Quoted(book: Book, asset: Asset, price: real, fillPrice: real): Book {
    book.(prices := book.prices[asset := price], fillPrices := book.fillPrices[asset := fillPrice])
  }

  datatype LookUp = LookUp(status: Settlement.Status, effect: Option<string>, amount: Option<real>)

  /** The settlement record of a request. */
  function Lookup(book: Book, request: Request): LookUp {
    if request.key !in book.orders then LookUp(Settlement.NoEffect, None, None)
    else
      var order := book.orders[request.key];
      if order.request != request then LookUp(Settlement.Contradictory, None, None)
      else match order.state
        case Filled => LookUp(Settlement.FinalEffect, Some(order.id), order.amount)
        case Pending => LookUp(Settlement.PartiallyFilled, Some(order.id), Some(0.0))
        case _ => LookUp(Settlement.Cancelled, Some(order.id), Some(0.0))
  }

  // ---- the service ----

  class PaperVenueService {
    const venue: Venue
    var orders: map<Key, Order>
    var keysById: map<string, Key>
    var balances: map<Asset, real>
    var prices: map<Asset, real>
    var fillPrices: map<Asset, real>
    var arrivals: seq<Key>

    constructor (venue: Venue, balances: map<Asset, real>, prices: map<Asset, real>, fillPrices: map<Asset, real>)
      ensures this.venue == venue && Contents() == Book(map[], map[], balances, prices, fillPrices, [])
    {
      this.venue, this.balances, this.prices, this.fillPrices := venue, balances, prices, fillPrices;
      orders, keysById, arrivals := map[], map[], [];
    }

    function Contents(): Book
      reads this
    {
      Book(orders, keysById, balances, prices, fillPrices, arrivals)
    }

    method Transfer(debit: Asset, debitQuantity: real, credit: Asset, creditQuantity: real)
      returns (reason: Option<string>)
      modifies this`balances
      ensures match Transferred(venue, old(balances), debit, debitQuantity, credit, creditQuantity)
        case Done(next) => reason == None && balances == next
        case Failed(why) => reason == Some(why) && balances == old(balances)
    {
      if debit == credit {
        return Some("PAPER_TRANSFER_ASSETS_IDENTICAL");
      }
      if debitQuantity <= 0.0 || creditQuantity <= 0.0 {
        return Some("PAPER_FILL_QUANTITY_INVALID");
      }
      var debitBalance, creditBalance := Balance(balances, debit), Balance(balances, credit);
      if debitBalance < debitQuantity {
        return Some("INSUFFICIENT_BALANCE");
      }
      var nextDebit, nextCredit := debitBalance - debitQuantity, creditBalance + creditQuantity;
      if !venue.admissible(nextDebit) || !venue.admissible(nextCredit) {
        return Some("PAPER_BALANCE_OUT_OF_BOUNDS");
      }
      balances := balances[debit := nextDebit];
      balances := balances[credit := nextCredit];
      reason := None;
    }

    method FillOrder(key: Key) returns (reason: Option<string>)
      requires key in orders
      modifies this`orders, this`balances, this`keysById
      ensures match FilledBook(venue, old(Contents()), key)
        case Done(book) => reason == None && Contents() == book
        case Failed(why) => reason == Some(why) && Contents() == old(Contents())
    {
      var order := orders[key];
      if order.state == Cancelled {
        return Some("ORDER_ALREADY_CANCELLED");
      }
      if order.state == Filled {
        return None;
      }
      if order.state == Rejected {
        return Some("ORDER_ALREADY_REJECTED");
      }
      if order.plan.None? {
        return Some("PAPER_ORDER_MALFORMED");
      }
      var plan := order.plan.value;
      if !Marketable(Contents(), plan) {
        return Some("LIMIT_PRICE_EXCEEDED");
      }
      var price, quotePrice := FillPrice(Contents(), plan.base), FillPrice(Contents(), QUOTE);
      if quotePrice.None? {
        return Some("NO_PAPER_PRICE");
      }
      var fill := FillOf(venue, plan, price.value, quotePrice.value);
      if plan.side == Selling {
        reason := Transfer(plan.base, fill.baseQuantity, QUOTE, fill.quoteQuantity);
      } else {
        reason := Transfer(QUOTE, fill.quoteQuantity, plan.base, fill.baseQuantity);
      }
      if reason.Some? {
        return;
      }
      orders := orders[key := order.(state := Filled, fill := Some(fill), amount := Some(plan.notional))];
      keysById := keysById[order.id := key];
    }

    method MarkUnfilledCancel(key: Key)
      requires key in orders
      modifies this`orders
      ensures Contents() == Unfilled(old(Contents()), key)
    {
      orders := orders[key := orders[key].(state := Cancelled, amount := Some(0.0))];
    }

    method Record(key: Key, order: Order)
      modifies this`orders, this`keysById, this`arrivals
      ensures Contents() == Recorded(old(Contents()), key, order)
    {
      if key !in orders {
        arrivals := arrivals + [key];
      }
      orders := orders[key := order];
      keysById := keysById[order.id := key];
    }

    method Submit(request: Request, consumes: bool) returns (answer: Answer, admitted: bool)
      modifies this
      ensures Outcome(Contents(), answer, admitted) == SubmitOutcome(venue, old(Contents()), request, consumes)
    {
      if !request.inScope {
        return Refused("OUT_OF_SCOPE"), false;
      }
      if request.key in orders {
        var existing := orders[request.key];
        if existing.state == Cancelled {
          return Refused("ORDER_ALREADY_CANCELLED"), false;
        }
        if existing.state == Rejected {
          return Refused("ORDER_ALREADY_REJECTED"), false;
        }
        if existing.request != request {
          return Refused("ORDER_REQUEST_BINDING_MISMATCH"), false;
        }
        return Receipt(existing), false;
      }
      if request.action.Unreadable? {
        return Refused("UNREADABLE"), false;
      }
      if request.action.Cancel? {
        answer, admitted := CancelOrder(request, request.action.target, consumes);
        return;
      }
      var plan := request.action.plan;
      if plan.notional <= 0.0 || plan.limit <= 0.0 || plan.base == QUOTE {
        return Refused("PAPER_ORDER_INVALID"), false;
      }
      if PriceIn(prices, plan.base).None? || FillPrice(Contents(), plan.base).None? {
        return Refused("NO_PAPER_PRICE"), false;
      }
      if !consumes {
        return Refused("PERMIT_REJECTED"), false;
      }
      Record(request.key, Order(venue.idOf(request.key, "order"), request, Some(plan), Pending, None, Some(0.0)));
      admitted := true;
      if Marketable(Contents(), plan) {
        var reason := FillOrder(request.key);
        if reason.Some? {
          MarkUnfilledCancel(request.key);
          return Refused(reason.value), true;
        }
        return Receipt(orders[request.key]), true;
      }
      if plan.timeInForce == Gtc {
        return Receipt(orders[request.key]), true;
      }
      MarkUnfilledCancel(request.key);
      answer := Refused("LIMIT_PRICE_EXCEEDED");
    }

    method CancelOrder(request: Request, target: string, consumes: bool) returns (answer: Answer, admitted: bool)
      modifies this
      ensures Outcome(Contents(), answer, admitted) == CancelOutcome(venue, old(Contents()), request, target, consumes)
    {
      admitted := false;
      if target == "" {
        return Refused("ORDER_ID_INVALID"), false;
      }
      var key := CancelTarget(Contents(), target);
      if key.None? {
        return Refused("ORDER_NOT_FOUND"), false;
      }
      var order := orders[key.value];
      if order.request.principal != request.principal {
        return Refused("ORDER_NOT_OWNED"), false;
      }
      if order.state == Filled {
        return Refused("ORDER_ALREADY_FILLED"), false;
      }
      if order.state == Rejected {
        return Refused("ORDER_ALREADY_REJECTED"), false;
      }
      if !consumes {
        return Refused("PERMIT_REJECTED"), false;
      }
      MarkUnfilledCancel(key.value);
      Record(request.key, CancelRow(venue, request));
      answer, admitted := Receipt(CancelRow(venue, request)), true;
    }

    /** Fills resting orders that became marketable, in order of arrival. */
    method MatchPending()
      modifies this`orders, this`balances, this`keysById
      ensures Contents() == Matched(venue, old(Contents()), old(arrivals))
    {
      var keys := arrivals;
      for n := 0 to |keys|
        invariant Contents() == Matched(venue, old(Contents()), keys[..n])
      {
        assert keys[..n + 1][..n] == keys[..n];
        var key := keys[n];
        if key in orders && orders[key].state == Pending && orders[key].plan.Some?
          && Marketable(Contents(), orders[key].plan.value) {
          var reason := FillOrder(key);
          if reason.Some? {
            MarkUnfilledCancel(key);
          }
        }
      }
      assert keys[..|keys|] == keys;
    }

    method SetQuote(asset: Asset, price: real, fillPrice: real)
      modifies this`prices, this`fillPrices
      ensures Contents() == Quoted(old(Contents()), asset, price, fillPrice)
    {
      prices := prices[asset := price];
      fillPrices := fillPrices[asset := fillPrice];
    }
  }

  // ---- conservation ----

  /** What a filled trade moved on one asset. */
  function Leg(order: Order, asset: Asset): real {
    if order.state != Filled || order.plan.None? || order.fill.None? then 0.0
    else
      var plan, fill := order.plan.value, order.fill.value;
      var sign := if plan.side == Selling then -1.0 else 1.0;
      if asset == plan.base then sign * fill.baseQuantity
      else if asset == QUOTE then -sign * fill.quoteQuantity
      else 0.0
  }

  function LegOn(asset: Asset): Order -> real {
    order => Leg(order, asset)
  }

  ghost function Sum(orders: map<Key, Order>, keys: set<Key>, f: Order -> real): real
    requires keys <= orders.Keys
  {
    if keys == {} then 0.0
    else
      var k :| k in keys;
      f(orders[k]) + Sum(orders, keys - {k}, f)
  }

  ghost function LegSum(orders: map<Key, Order>, asset: Asset): real {
    Sum(orders, orders.Keys, LegOn(asset))
  }

  lemma {:induction false} SumWithout(orders: map<Key, Order>, keys: set<Key>, k: Key, f: Order -> real)
    requires keys <= orders.Keys && k in keys
    ensures Sum(orders, keys, f) == f(orders[k]) + Sum(orders, keys - {k}, f)
    decreases |keys|
  {
    var j :| j in keys && Sum(orders, keys, f) == f(orders[j]) + Sum(orders, keys - {j}, f);
    if j != k {
      SumWithout(orders, keys - {j}, k, f);
      SumWithout(orders, keys - {k}, j, f);
      assert keys - {j} - {k} == keys - {k} - {j};
    }
  }

  lemma {:induction false} SumSame(before: map<Key, Order>, after: map<Key, Order>, keys: set<Key>, f: Order -> real)
    requires keys <= before.Keys && keys <= after.Keys
    requires forall k :: k in keys ==> f(after[k]) == f(before[k])
    ensures Sum(after, keys, f) == Sum(before, keys, f)
    decreases |keys|
  {
    if keys != {} {
      var k :| k in keys;
      SumWithout(before, keys, k, f);
      SumWithout(after, keys, k, f);
      SumSame(before, after, keys - {k}, f);
    }
  }

  /** Writing one row changes the sum by the difference of its legs. */
  lemma LegSumUpdate(orders: map<Key, Order>, k: Key, order: Order, asset: Asset)
    ensures LegSum(orders[k := order], asset)
      == LegSum(orders, asset) - (if k in orders then Leg(orders[k], asset) else 0.0) + Leg(order, asset)
  {
    var orders', f := orders[k := order], LegOn(asset);
    SumWithout(orders', orders'.Keys, k, f);
    if k in orders {
      SumWithout(orders, orders.Keys, k, f);
    } else {
      assert orders.Keys - {k} == orders.Keys;
    }
    assert orders'.Keys - {k} == orders.Keys - {k};
    SumSame(orders, orders', orders.Keys - {k}, f);
  }

  // ---- the invariant of the book ----

  predicate WithinLimit(plan: Plan, price: real) {
    if plan.side == Selling then price >= plan.limit else price <= plan.limit
  }

  /** Filled inside its limit, at a price, with the quantities the venue's division yields. */
  predicate FilledAt(venue: Venue, plan: Plan, fill: Fill) {
    WithinLimit(plan, fill.price) && fill.price > 0.0 && fill == FillOf(venue, plan, fill.price, 1.0)
  }

  predicate OrderOk(venue: Venue, key: Key, order: Order) {
    && order.request.key == key
    && order.id == venue.idOf(key, if order.plan.Some? then "order" else "cancel")
    && (match order.request.action
        case Trade(plan) => order.plan == Some(plan)
        case Cancel(_) => order.plan == None && order.state == Filled && order.amount == None
        case Unreadable => false)
    && (order.plan.Some? ==> order.plan.value.base != QUOTE && order.plan.value.notional > 0.0)
    && match order.state
       case Pending => order.plan.Some? && order.fill.None?
       case Filled => order.plan.Some? ==>
         && order.fill.Some? && FilledAt(venue, order.plan.value, order.fill.value)
         && order.amount == Some(order.plan.value.notional)
       case Cancelled => order.plan.Some? && order.fill.None? && order.amount == Some(0.0)
       case Rejected => false
  }

  ghost predicate Conserved(initial: map<Asset, real>, book: Book, asset: Asset) {
    && Balance(book.balances, asset) == Balance(initial, asset) + LegSum(book.orders, asset)
    && Balance(book.balances, asset) >= 0.0
  }

  ghost predicate BookInv(venue: Venue, initial: map<Asset, real>, book: Book) {
    && (forall a :: Conserved(initial, book, a))
    && (forall k :: k in book.orders ==> OrderOk(venue, k, book.orders[k]))
  }

  /** Rows stay, keep their request, and never leave FILLED or CANCELLED. */
  ghost predicate Advances(before: map<Key, Order>, after: map<Key, Order>) {
    forall k :: k in before ==>
      && k in after && after[k].request == before[k].request
      && (before[k].state != Pending ==> after[k] == before[k])
  }

  lemma RowWithoutLeg(venue: Venue, initial: map<Asset, real>, book: Book, book': Book, k: Key, order: Order)
    requires BookInv(venue, initial, book) && OrderOk(venue, k, order)
    requires book'.orders == book.orders[k := order] && book'.balances == book.balances
    requires forall a :: Leg(order, a) == 0.0 && (k in book.orders ==> Leg(book.orders[k], a) == 0.0)
    ensures BookInv(venue, initial, book')
  {
    forall a ensures Conserved(initial, book', a) {
      assert Conserved(initial, book, a);
      LegSumUpdate(book.orders, k, order, a);
    }
  }

  lemma UnfilledKeeps(venue: Venue, initial: map<Asset, real>, book: Book, key: Key)
    requires BookInv(venue, initial, book) && key in book.orders && book.orders[key].state != Filled
    ensures BookInv(venue, initial, Unfilled(book, key)) && Advances(book.orders, Unfilled(book, key).orders)
  {
    RowWithoutLeg(venue, initial, book, Unfilled(book, key), key, Unfilled(book, key).orders[key]);
  }

  /** A fill moves both balances by exactly the legs the row then shows. */
  lemma FillKeeps(venue: Venue, initial: map<Asset, real>, book: Book, key: Key)
    requires BookInv(venue, initial, book) && key in book.orders && book.orders[key].state == Pending
    requires FilledBook(venue, book, key).Done?
    ensures var book' := FilledBook(venue, book, key).value;
      BookInv(venue, initial, book') && Advances(book.orders, book'.orders) && key in book'.orders
  {
    var book', order := FilledBook(venue, book, key).value, book.orders[key];
    var plan := order.plan.value;
    forall a ensures Conserved(initial, book', a) {
      assert Conserved(initial, book, a);
      LegSumUpdate(book.orders, key, book'.orders[key], a);
      FillMoves(venue, book, key, a);
    }
  }

  lemma FillMoves(venue: Venue, book: Book, key: Key, a: Asset)
    requires key in book.orders && book.orders[key].state == Pending && OrderOk(venue, key, book.orders[key])
    requires FilledBook(venue, book, key).Done?
    ensures var book' := FilledBook(venue, book, key).value;
      && book'.orders == book.orders[key := book'.orders[key]]
      && Balance(book'.balances, a) == Balance(book.balances, a) + Leg(book'.orders[key], a)
      && (Balance(book.balances, a) >= 0.0 ==> Balance(book'.balances, a) >= 0.0)
      && OrderOk(venue, key, book'.orders[key])
  {
  }

  lemma MatchOneKeeps(venue: Venue, initial: map<Asset, real>, book: Book, key: Key)
    requires BookInv(venue, initial, book)
    ensures BookInv(venue, initial, MatchedOne(venue, book, key))
      && Advances(book.orders, MatchedOne(venue, book, key).orders)
  {
    if key in book.orders && book.orders[key].state == Pending {
      if FilledBook(venue, book, key).Done? {
        FillKeeps(venue, initial, book, key);
      }
      UnfilledKeeps(venue, initial, book, key);
    }
  }

  lemma {:induction false} MatchKeeps(venue: Venue, initial: map<Asset, real>, book: Book, keys: seq<Key>)
    requires BookInv(venue, initial, book)
    ensures BookInv(venue, initial, Matched(venue, book, keys))
      && Advances(book.orders, Matched(venue, book, keys).orders)
    decreases |keys|
  {
    if keys != [] {
      MatchKeeps(venue, initial, book, keys[..|keys| - 1]);
      MatchOneKeeps(venue, initial, Matched(venue, book, keys[..|keys| - 1]), keys[|keys| - 1]);
    }
  }

  /** The row of an admitted request exists from the consumption of its permit on. */
  ghost predicate Admits(book: Book, request: Request) {
    request.key in book.orders && book.orders[request.key].request == request
  }

  lemma RecordKeeps(venue: Venue, initial: map<Asset, real>, book: Book, key: Key, order: Order)
    requires BookInv(venue, initial, book) && key !in book.orders && OrderOk(venue, key, order)
    requires forall a :: Leg(order, a) == 0.0
    ensures BookInv(venue, initial, Recorded(book, key, order))
      && Advances(book.orders, Recorded(book, key, order).orders)
  {
    RowWithoutLeg(venue, initial, book, Recorded(book, key, order), key, order);
  }

  lemma SettleKeeps(venue: Venue, initial: map<Asset, real>, book: Book, key: Key, plan: Plan)
    requires BookInv(venue, initial, book) && key in book.orders && book.orders[key].state == Pending
    ensures var o := Settled(venue, book, key, plan);
      BookInv(venue, initial, o.book) && Advances(book.orders, o.book.orders)
  {
    UnfilledKeeps(venue, initial, book, key);
    if FilledBook(venue, book, key).Done? {
      FillKeeps(venue, initial, book, key);
    }
  }

  lemma TradeKeeps(venue: Venue, initial: map<Asset, real>, book: Book, request: Request, consumes: bool)
    requires BookInv(venue, initial, book) && request.action.Trade?
      && SubmitOutcome(venue, book, request, consumes).admitted
    ensures var o := SubmitOutcome(venue, book, request, consumes);
      && consumes && request.key !in book.orders
      && BookInv(venue, initial, o.book) && Advances(book.orders, o.book.orders) && Admits(o.book, request)
  {
    var order := Order(venue.idOf(request.key, "order"), request, Some(request.action.plan), Pending, None, Some(0.0));
    RecordKeeps(venue, initial, book, request.key, order);
    SettleKeeps(venue, initial, Recorded(book, request.key, order), request.key, request.action.plan);
  }

  lemma CancelKeeps(venue: Venue, initial: map<Asset, real>, book: Book, request: Request, consumes: bool)
    requires BookInv(venue, initial, book) && request.action.Cancel?
      && SubmitOutcome(venue, book, request, consumes).admitted
    ensures var o := SubmitOutcome(venue, book, request, consumes);
      && consumes && request.key !in book.orders
      && BookInv(venue, initial, o.book) && Advances(book.orders, o.book.orders) && Admits(o.book, request)
  {
    var key := CancelTarget(book, request.action.target).value;
    UnfilledKeeps(venue, initial, book, key);
    RecordKeeps(venue, initial, Unfilled(book, key), request.key, CancelRow(venue, request));
  }

  lemma SubmitKeeps(venue: Venue, initial: map<Asset, real>, book: Book, request: Request, consumes: bool)
    requires BookInv(venue, initial, book)
    ensures var o := SubmitOutcome(venue, book, request, consumes);
      && BookInv(venue, initial, o.book) && Advances(book.orders, o.book.orders)
      && (o.admitted ==> consumes && request.key !in book.orders && Admits(o.book, request))
  {
    if SubmitOutcome(venue, book, request, consumes).admitted {
      if request.action.Trade? {
        TradeKeeps(venue, initial, book, request, consumes);
      } else {
        CancelKeeps(venue, initial, book, request, consumes);
      }
    }
  }

  // ---- runs of the venue ----

  datatype Event = Submitted(request: Request, consumes: bool) | QuoteSet(asset: Asset, price: real, fillPrice: real)
    | PendingMatched

  /** The book and the requests whose permits were consumed so far. */
  datatype Market = Market(book: Book, admitted: set<Request>)

  function After(venue: Venue, m: Market, e: Event): Market {
    match e
    case Submitted(request, consumes) =>
      var o := SubmitOutcome(venue, m.book, request, consumes);
      Market(o.book, if o.admitted then m.admitted + {request} else m.admitted)
    case QuoteSet(asset, price, fillPrice) => m.(book := Quoted(m.book, asset, price, fillPrice))
    case PendingMatched => m.(book := Matched(venue, m.book, m.book.arrivals))
  }

  function Run(venue: Venue, m: Market, events: seq<Event>): Market
    decreases |events|
  {
    if events == [] then m else Run(venue, After(venue, m, events[0]), events[1..])
  }

  ghost predicate MarketInv(venue: Venue, initial: map<Asset, real>, m: Market) {
    BookInv(venue, initial, m.book) && forall r :: r in m.admitted ==> Admits(m.book, r)
  }

  lemma EventKeeps(venue: Venue, initial: map<Asset, real>, m: Market, e: Event)
    requires MarketInv(venue, initial, m)
    ensures MarketInv(venue, initial, After(venue, m, e)) && Advances(m.book.orders, After(venue, m, e).book.orders)
    ensures m.admitted <= After(venue, m, e).admitted
  {
    match e
    case Submitted(request, consumes) => SubmitKeeps(venue, initial, m.book, request, consumes);
    case QuoteSet(asset, price, fillPrice) =>
      forall a ensures Conserved(initial, Quoted(m.book, asset, price, fillPrice), a) {
        assert Conserved(initial, m.book, a);
      }
    case PendingMatched => MatchKeeps(venue, initial, m.book, m.book.arrivals);
  }

  lemma {:induction false} RunKeeps(venue: Venue, initial: map<Asset, real>, m: Market, events: seq<Event>)
    requires MarketInv(venue, initial, m)
    ensures MarketInv(venue, initial, Run(venue, m, events))
      && Advances(m.book.orders, Run(venue, m, events).book.orders)
    ensures m.admitted <= Run(venue, m, events).admitted
    decreases |events|
  {
    if events != [] {
      EventKeeps(venue, initial, m, events[0]);
      RunKeeps(venue, initial, After(venue, m, events[0]), events[1..]);
    }
  }

  predicate Opened(m: Market) {
    m.book.orders == map[] && m.admitted == {} && forall a :: a in m.book.balances ==> m.book.balances[a] >= 0.0
  }

  /** In every run each balance is the initial one plus the legs of exactly the filled trades, no balance
      is ever negative, and every filled trade respects its limit price. */
  lemma BalancesAreFilledLegs(venue: Venue, m: Market, events: seq<Event>, asset: Asset, key: Key)
    requires Opened(m)
    ensures var book := Run(venue, m, events).book;
      && Balance(book.balances, asset) == Balance(m.book.balances, asset) + LegSum(book.orders, asset)
      && Balance(book.balances, asset) >= 0.0
      && (key in book.orders && book.orders[key].state == Filled && book.orders[key].plan.Some? ==>
            book.orders[key].fill.Some? && WithinLimit(book.orders[key].plan.value, book.orders[key].fill.value.price))
  {
    OpenedInv(venue, m);
    RunKeeps(venue, m.book.balances, m, events);
    assert Conserved(m.book.balances, Run(venue, m, events).book, asset);
  }

  // ---- how far division takes the legs from the exact quotients ----

  function Abs(x: real): real {
    if x < 0.0 then -x else x
  }

  /** The venue's division is off by at most `eps` of the quotient, as rounding to a number of significant
      digits is. */
  ghost predicate Accurate(venue: Venue, eps: real) {
    forall n, d :: n > 0.0 && d > 0.0 ==> Abs(venue.divide(n, d) - n / d) <= eps * (n / d)
  }

  /** The leg of a filled trade had the venue divided exactly. */
  function ExactLeg(order: Order, asset: Asset): real {
    if order.state != Filled || order.plan.None? || order.fill.None? || order.fill.value.price <= 0.0 then 0.0
    else
      var plan := order.plan.value;
      var sign := if plan.side == Selling then -1.0 else 1.0;
      if asset == plan.base then sign * (plan.notional / order.fill.value.price)
      else if asset == QUOTE then -sign * plan.notional
      else 0.0
  }

  function ExactLegOn(asset: Asset): Order -> real {
    order => ExactLeg(order, asset)
  }

  function LegSizeOn(asset: Asset): Order -> real {
    order => Abs(ExactLeg(order, asset))
  }

  lemma QuotientPositive(n: real, d: real)
    requires n > 0.0 && d > 0.0
    ensures n / d > 0.0
  {
  }

  /** `a` is within `eps` of `b`, relative to `size`. */
  predicate Near(a: real, b: real, eps: real, size: real) {
    Abs(a - b) <= eps * size
  }

  lemma QuotientNear(venue: Venue, eps: real, n: real, d: real, sign: real)
    requires Accurate(venue, eps) && n > 0.0 && d > 0.0 && (sign == 1.0 || sign == -1.0)
    ensures Near(sign * venue.divide(n, d), sign * (n / d), eps, Abs(sign * (n / d)))
  {
    QuotientPositive(n, d);
    assert Abs(venue.divide(n, d) - n / d) <= eps * (n / d);
  }

  lemma NothingMoved(eps: real)
    ensures Near(0.0, 0.0, eps, 0.0) && Abs(0.0) == 0.0
  {
  }

  lemma LegNearExact(venue: Venue, eps: real, key: Key, order: Order, asset: Asset)
    requires Accurate(venue, eps) && OrderOk(venue, key, order)
    ensures Near(Leg(order, asset), ExactLeg(order, asset), eps, Abs(ExactLeg(order, asset)))
  {
    hide Accurate, Near, Abs;
    NothingMoved(eps);
    if order.state == Filled && order.plan.Some? {
      var plan, price := order.plan.value, order.fill.value.price;
      var sign := if plan.side == Selling then -1.0 else 1.0;
      QuotientNear(venue, eps, plan.notional, price, sign);
      QuotientNear(venue, eps, plan.notional, 1.0, -sign);
      assert plan.notional / 1.0 == plan.notional;
    }
  }

  lemma ErrorsAdd(eps: real, a: real, b: real, x: real, a': real, b': real, x': real)
    requires Near(a, b, eps, x) && Near(a', b', eps, x')
    ensures Near(a + a', b + b', eps, x + x')
  {
    assert eps * (x + x') == eps * x + eps * x';
  }

  lemma {:induction false} SumNear(venue: Venue, eps: real, orders: map<Key, Order>, keys: set<Key>, asset: Asset)
    requires Accurate(venue, eps) && keys <= orders.Keys
    requires forall k :: k in keys ==> OrderOk(venue, k, orders[k])
    ensures Near(Sum(orders, keys, LegOn(asset)), Sum(orders, keys, ExactLegOn(asset)), eps,
                 Sum(orders, keys, LegSizeOn(asset)))
    decreases |keys|
  {
    hide Accurate, Leg, ExactLeg, Abs, OrderOk, Near;
    if keys == {} {
      NothingMoved(eps);
    } else {
      var k :| k in keys;
      var rest := keys - {k};
      SumWithout(orders, keys, k, LegOn(asset));
      SumWithout(orders, keys, k, ExactLegOn(asset));
      SumWithout(orders, keys, k, LegSizeOn(asset));
      LegNearExact(venue, eps, k, orders[k], asset);
      SumNear(venue, eps, orders, rest, asset);
      ErrorsAdd(eps, Leg(orders[k], asset), ExactLeg(orders[k], asset), Abs(ExactLeg(orders[k], asset)),
                Sum(orders, rest, LegOn(asset)), Sum(orders, rest, ExactLegOn(asset)),
                Sum(orders, rest, LegSizeOn(asset)));
    }
  }

  lemma NearShifts(a: real, b: real, eps: real, size: real, shift: real)
    requires Near(a, b, eps, size)
    ensures Near(shift + a, shift + b, eps, size)
  {
    assert (shift + a) - (shift + b) == a - b;
  }

  /** In every run a balance is within `eps` of the one exact quotients would give, relative to what moved
      on it. */
  lemma BalancesNearExact(venue: Venue, eps: real, m: Market, events: seq<Event>, asset: Asset)
    requires Opened(m) && Accurate(venue, eps)
    ensures var book := Run(venue, m, events).book;
      Near(Balance(book.balances, asset),
           Balance(m.book.balances, asset) + Sum(book.orders, book.orders.Keys, ExactLegOn(asset)),
           eps, Sum(book.orders, book.orders.Keys, LegSizeOn(asset)))
  {
    hide Accurate, Near, Sum, OrderOk, Run;
    OpenedInv(venue, m);
    RunKeeps(venue, m.book.balances, m, events);
    var book := Run(venue, m, events).book;
    assert Conserved(m.book.balances, book, asset);
    SumNear(venue, eps, book.orders, book.orders.Keys, asset);
    NearShifts(LegSum(book.orders, asset), Sum(book.orders, book.orders.Keys, ExactLegOn(asset)), eps,
               Sum(book.orders, book.orders.Keys, LegSizeOn(asset)), Balance(m.book.balances, asset));
  }

  lemma OpenedInv(venue: Venue, m: Market)
    requires Opened(m)
    ensures MarketInv(venue, m.book.balances, m)
  {
    forall a ensures Conserved(m.book.balances, m.book, a) {
    }
  }

  /** A filled or cancelled order never changes again, whatever is submitted, quoted or matched later. */
  lemma FilledAndCancelledAbsorb(venue: Venue, m: Market, before: seq<Event>, after: seq<Event>, key: Key)
    requires Opened(m)
    requires var book := Run(venue, m, before).book; key in book.orders && book.orders[key].state != Pending
    ensures var now, later := Run(venue, m, before), Run(venue, Run(venue, m, before), after);
      key in later.book.orders && later.book.orders[key] == now.book.orders[key]
  {
    OpenedInv(venue, m);
    RunKeeps(venue, m.book.balances, m, before);
    RunKeeps(venue, m.book.balances, Run(venue, m, before), after);
  }

  /** A request whose permit was consumed never looks up as absent or as somebody else's, from the
      consumption on. */
  lemma AdmittedIsNeverAbsent(venue: Venue, m: Market, before: seq<Event>, after: seq<Event>, request: Request)
    requires Opened(m) && request in Run(venue, m, before).admitted
    ensures var status := Lookup(Run(venue, Run(venue, m, before), after).book, request).status;
      status != Settlement.NoEffect && status != Settlement.Contradictory
  {
    OpenedInv(venue, m);
    RunKeeps(venue, m.book.balances, m, before);
    RunKeeps(venue, m.book.balances, Run(venue, m, before), after);
    assert Admits(Run(venue, Run(venue, m, before), after).book, request);
  }

  /** Under one client order id no second permit is ever consumed. */
  lemma ConsumedAtMostOncePerKey(venue: Venue, m: Market, before: seq<Event>, after: seq<Event>, first: Request,
                                 second: Request, consumes: bool)
    requires Opened(m) && first in Run(venue, m, before).admitted && second.key == first.key
    ensures !SubmitOutcome(venue, Run(venue, Run(venue, m, before), after).book, second, consumes).admitted
  {
    OpenedInv(venue, m);
    RunKeeps(venue, m.book.balances, m, before);
    RunKeeps(venue, m.book.balances, Run(venue, m, before), after);
    assert Admits(Run(venue, Run(venue, m, before), after).book, first);
  }
}
