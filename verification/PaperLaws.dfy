/** The paper venue's operations once more, in the book's own terms: what is admitted, what becomes of it,
    and what its settlement record says in every run. */
module PaperLaws {
  import opened Types
  import opened PaperBook
  import Settlement

  type Venue = PaperBook.Venue

  // ---- prices and payments ----

  predicate Priced(table: map<Asset, real>, asset: Asset) {
    asset == "USD" || asset == "USDC" || asset == "USDT" || (asset in table && table[asset] > 0.0)
  }

  function PriceAt(table: map<Asset, real>, asset: Asset): real
    requires Priced(table, asset)
  {
    if asset == "USD" || asset == "USDC" || asset == "USDT" then 1.0 else table[asset]
  }

  /** The price is at the limit or better for the order's side. */
  predicate Crosses(book: Book, plan: Plan) {
    && Priced(book.fillPrices, plan.base)
    && if plan.side == Selling then PriceAt(book.fillPrices, plan.base) >= plan.limit
       else PriceAt(book.fillPrices, plan.base) <= plan.limit
  }

  function Held(balances: map<Asset, real>, asset: Asset): real {
    if asset in balances then balances[asset] else 0.0
  }

  /** The account can give its leg, and both new balances can be represented. */
  predicate Payable(venue: Venue, balances: map<Asset, real>, plan: Plan, price: real)
  {
    var base, quote := venue.divide(plan.notional, price), venue.divide(plan.notional, 1.0);
    && base > 0.0 && quote > 0.0
    && if plan.side == Selling then
         && base <= Held(balances, plan.base)
         && venue.admissible(Held(balances, plan.base) - base)
         && venue.admissible(Held(balances, "USDC") + quote)
       else
         && quote <= Held(balances, "USDC")
         && venue.admissible(Held(balances, "USDC") - quote)
         && venue.admissible(Held(balances, plan.base) + base)
  }

  /** What a fill of the plan adds to a balance. */
  function Moved(venue: Venue, plan: Plan, price: real, asset: Asset): real {
    var sign := if plan.side == Selling then 1.0 else -1.0;
    if asset == "USDC" then sign * venue.divide(plan.notional, 1.0)
    else if asset == plan.base then -sign * venue.divide(plan.notional, price)
    else 0.0
  }

  /** The row is filled at the price, both legs have moved, and nothing else has changed. */
  ghost predicate Traded(venue: Venue, book: Book, book': Book, key: Key, plan: Plan, price: real)
    requires key in book.orders
  {
    var order := book.orders[key];
    var fill := Fill(venue.divide(plan.notional, price), venue.divide(plan.notional, 1.0), price);
    && book' == book.(
      orders := book.orders[key := order.(state := Filled, fill := Some(fill), amount := Some(plan.notional))],
      balances := book'.balances, keysById := book.keysById[order.id := key])
    && forall a :: Held(book'.balances, a) == Held(book.balances, a) + Moved(venue, plan, price, a)
  }

  /** The row is cancelled with nothing filled, and nothing else has changed. */
  predicate Dropped(book: Book, book': Book, key: Key)
    requires key in book.orders
  {
    book' == book.(orders := book.orders[key := book.orders[key].(state := Cancelled, amount := Some(0.0))])
  }

  /** A pending order that crosses is filled exactly when both legs can move. */
  lemma Fills(venue: Venue, book: Book, key: Key, plan: Plan)
    requires key in book.orders && book.orders[key].state == Pending && book.orders[key].plan == Some(plan)
    requires plan.base != "USDC" && Crosses(book, plan)
    ensures var price, filled := PriceAt(book.fillPrices, plan.base), FilledBook(venue, book, key);
      if Payable(venue, book.balances, plan, price) then
        filled.Done? && Traded(venue, book, filled.value, key, plan, price)
      else filled.Failed?
  {
    hide Crosses;
    assert Marketable(book, plan) by {
      CrossesIsMarketable(book, plan);
    }
    Pays(venue, book.balances, plan, PriceAt(book.fillPrices, plan.base));
  }

  lemma CrossesIsMarketable(book: Book, plan: Plan)
    ensures Crosses(book, plan) <==> Marketable(book, plan)
    ensures Crosses(book, plan) ==> FillPrice(book, plan.base) == Some(PriceAt(book.fillPrices, plan.base))
  {
  }

  lemma Pays(venue: Venue, balances: map<Asset, real>, plan: Plan, price: real)
    requires plan.base != "USDC"
    ensures var base, quote := venue.divide(plan.notional, price), venue.divide(plan.notional, 1.0);
      var moved := if plan.side == Selling then Transferred(venue, balances, plan.base, base, QUOTE, quote)
        else Transferred(venue, balances, QUOTE, quote, plan.base, base);
      if Payable(venue, balances, plan, price) then
        moved.Done? && forall a :: Held(moved.value, a) == Held(balances, a) + Moved(venue, plan, price, a)
      else moved.Failed?
  {
  }

  // ---- submissions ----

  /** The book once the order's permit is consumed. */
  function Booked(venue: Venue, book: Book, request: Request, plan: Plan): Book {
    var id := venue.idOf(request.key, "order");
    book.(orders := book.orders[request.key := Order(id, request, Some(plan), Pending, None, Some(0.0))],
          keysById := book.keysById[id := request.key], arrivals := book.arrivals + [request.key])
  }

  /** An order is admitted exactly when it is well formed, its asset priced and its permit consumed. It then
      trades at once if it crosses and can be paid, rests if it does not cross and may wait, and is cancelled
      otherwise; a refused one leaves no trace. */
  lemma Admissions(venue: Venue, book: Book, request: Request, consumes: bool)
    requires request.action.Trade? && request.inScope && request.key !in book.orders
    ensures var o, plan, key := SubmitOutcome(venue, book, request, consumes), request.action.plan, request.key;
      if plan.notional <= 0.0 || plan.limit <= 0.0 || plan.base == "USDC"
         || !Priced(book.prices, plan.base) || !Priced(book.fillPrices, plan.base) || !consumes
        then o.book == book && !o.admitted && o.answer.Refused?
      else
        var booked := Booked(venue, book, request, plan);
        && o.admitted && key in o.book.orders
        && if Crosses(book, plan) && Payable(venue, book.balances, plan, PriceAt(book.fillPrices, plan.base)) then
             && Traded(venue, booked, o.book, key, plan, PriceAt(book.fillPrices, plan.base))
             && o.answer == Receipt(o.book.orders[key])
           else if !Crosses(book, plan) && plan.timeInForce == Gtc then
             o.book == booked && o.answer == Receipt(booked.orders[key])
           else Dropped(booked, o.book, key) && o.answer.Refused?
  {
    var plan := request.action.plan;
    var booked := Booked(venue, book, request, plan);
    if plan.base != "USDC" && Crosses(book, plan) {
      Fills(venue, booked, request.key, plan);
    }
  }

  /** A client order id that is already on the book, or a request outside the account's scope, never changes
      the book; a receipt is given again exactly for the same request, unless it ended unfilled. */
  lemma Resubmissions(venue: Venue, book: Book, request: Request, consumes: bool)
    requires request.key in book.orders || !request.inScope
    ensures var o := SubmitOutcome(venue, book, request, consumes);
      && o.book == book && !o.admitted
      && (o.answer.Receipt? <==>
            request.inScope && book.orders[request.key].request == request
            && (book.orders[request.key].state == Pending || book.orders[request.key].state == Filled))
      && (o.answer.Receipt? ==> o.answer.order == book.orders[request.key])
  {
  }

  /** The order a cancellation names: by venue order id first, by client order id otherwise. */
  ghost predicate Names(book: Book, target: string, key: Key) {
    && key in book.orders
    && if target in book.keysById && book.keysById[target] in book.orders then key == book.keysById[target]
       else key == target
  }

  /** A cancellation is admitted exactly for an order of the same principal that has neither filled nor been
      rejected; it moves no balance, and refused it changes nothing. */
  lemma Cancellations(venue: Venue, book: Book, request: Request, consumes: bool, target: string)
    requires request.action == Cancel(target) && request.inScope && request.key !in book.orders
    ensures var o := SubmitOutcome(venue, book, request, consumes);
      && (o.admitted <==>
            consumes && target != ""
            && exists k :: Names(book, target, k) && book.orders[k].request.principal == request.principal
                           && (book.orders[k].state == Pending || book.orders[k].state == Cancelled))
      && (!o.admitted ==> o.book == book && o.answer.Refused?)
      && (o.admitted ==> forall k :: Names(book, target, k) ==>
            var id := venue.idOf(request.key, "cancel");
            var row := Order(id, request, None, Filled, None, None);
            && o.book == book.(
              orders := book.orders[k := book.orders[k].(state := Cancelled, amount := Some(0.0))][request.key := row],
              keysById := book.keysById[id := request.key], arrivals := book.arrivals + [request.key])
            && o.answer == Receipt(row))
  {
    if k :| Names(book, target, k) {
      assert CancelTarget(book, target) == Some(k);
      assert forall j :: Names(book, target, j) ==> j == k;
    } else if CancelTarget(book, target).Some? {
      assert Names(book, target, CancelTarget(book, target).value);
    }
  }

  // ---- matching ----

  /** Matching leaves an order alone unless it rests and crosses; such a one trades or is cancelled. */
  lemma Matching(venue: Venue, book: Book, key: Key)
    requires key in book.orders && book.orders[key].plan.Some? && book.orders[key].plan.value.base != "USDC"
    ensures var book', plan := MatchedOne(venue, book, key), book.orders[key].plan.value;
      if book.orders[key].state != Pending || !Crosses(book, plan) then book' == book
      else if Payable(venue, book.balances, plan, PriceAt(book.fillPrices, plan.base)) then
        Traded(venue, book, book', key, plan, PriceAt(book.fillPrices, plan.base))
      else Dropped(book, book', key)
  {
    var plan := book.orders[key].plan.value;
    if book.orders[key].state == Pending && Crosses(book, plan) {
      Fills(venue, book, key, plan);
    }
  }

  /** Every order on the book has arrived. */
  ghost predicate AllArrived(book: Book) {
    forall k :: k in book.orders ==> k in book.arrivals
  }

  lemma SubmitArrives(venue: Venue, book: Book, request: Request, consumes: bool)
    requires AllArrived(book)
    ensures AllArrived(SubmitOutcome(venue, book, request, consumes).book)
  {
    if request.inScope && request.key !in book.orders {
      match request.action
      case Trade(_) => TradeArrives(venue, book, request, consumes);
      case Cancel(target) => CancelArrives(venue, book, request, consumes, target);
      case Unreadable =>
    }
  }

  lemma TradeArrives(venue: Venue, book: Book, request: Request, consumes: bool)
    requires AllArrived(book) && request.action.Trade? && request.inScope && request.key !in book.orders
    ensures AllArrived(SubmitOutcome(venue, book, request, consumes).book)
  {
    hide SubmitOutcome, Crosses, Payable, PriceAt, Priced;
    Admissions(venue, book, request, consumes);
  }

  lemma CancelArrives(venue: Venue, book: Book, request: Request, consumes: bool, target: string)
    requires AllArrived(book) && request.action == Cancel(target) && request.inScope && request.key !in book.orders
    ensures AllArrived(SubmitOutcome(venue, book, request, consumes).book)
  {
    hide SubmitOutcome;
    Cancellations(venue, book, request, consumes, target);
  }

  lemma EventArrives(venue: Venue, m: Market, e: Event)
    requires AllArrived(m.book)
    ensures AllArrived(After(venue, m, e).book)
  {
    match e
    case PendingMatched => MatchedFrame(venue, m.book, m.book.arrivals);
    case QuoteSet(_, _, _) =>
    case Submitted(request, consumes) => SubmitArrives(venue, m.book, request, consumes);
  }

  /** Matching adds no order and moves no price. */
  lemma {:induction false} MatchedFrame(venue: Venue, book: Book, keys: seq<Key>)
    ensures var book' := Matched(venue, book, keys);
      book'.orders.Keys == book.orders.Keys && book'.arrivals == book.arrivals && book'.prices == book.prices
      && book'.fillPrices == book.fillPrices
    decreases |keys|
  {
    if keys != [] {
      MatchedFrame(venue, book, keys[..|keys| - 1]);
    }
  }

  lemma {:induction false} RunArrives(venue: Venue, m: Market, events: seq<Event>)
    requires AllArrived(m.book)
    ensures AllArrived(Run(venue, m, events).book)
    decreases |events|
  {
    if events != [] {
      EventArrives(venue, m, events[0]);
      RunArrives(venue, After(venue, m, events[0]), events[1..]);
    }
  }

  /** An order that rests after matching has kept its plan; if it was looked at, it does not cross. */
  lemma {:induction false} MatchedRests(venue: Venue, book: Book, keys: seq<Key>, key: Key)
    requires key in book.orders
    ensures var book' := Matched(venue, book, keys);
      && key in book'.orders && book'.orders[key].plan == book.orders[key].plan
      && (book'.orders[key].state == Pending ==> book'.orders[key] == book.orders[key])
      && (book'.orders[key].state == Pending && key in keys && book.orders[key].plan.Some? ==>
            !Crosses(book, book.orders[key].plan.value))
    decreases |keys|
  {
    if keys != [] {
      MatchedRests(venue, book, keys[..|keys| - 1], key);
      MatchedFrame(venue, book, keys[..|keys| - 1]);
    }
  }

  /** In every run, once resting orders have been matched none that still rests would trade at the venue's
      price, and all that rest are as they were. */
  lemma NoneLeftToMatch(venue: Venue, m: Market, events: seq<Event>, key: Key)
    requires Opened(m)
    ensures var before := Run(venue, m, events);
      var after := After(venue, before, PendingMatched);
      key in after.book.orders && after.book.orders[key].state == Pending ==>
        && key in before.book.orders && after.book.orders[key] == before.book.orders[key]
        && after.book.orders[key].plan.Some? && !Crosses(after.book, after.book.orders[key].plan.value)
  {
    hide Run, Crosses, OrderOk;
    var before := Run(venue, m, events);
    RunArrives(venue, m, events);
    MatchedFrame(venue, before.book, before.book.arrivals);
    if key in before.book.orders {
      MatchedRests(venue, before.book, before.book.arrivals, key);
      PlansKept(venue, m, events, key);
      if before.book.orders[key].plan.Some? {
        SameCross(before.book, After(venue, before, PendingMatched).book, key);
      }
    }
  }

  lemma SameCross(book: Book, book': Book, key: Key)
    requires key in book.orders && book.orders[key].plan.Some? && book.fillPrices == book'.fillPrices
    ensures Crosses(book, book.orders[key].plan.value) <==> Crosses(book', book.orders[key].plan.value)
  {
  }

  lemma PlansKept(venue: Venue, m: Market, events: seq<Event>, key: Key)
    requires Opened(m)
    ensures var book := Run(venue, m, events).book;
      key in book.orders && book.orders[key].state == Pending ==> book.orders[key].plan.Some?
  {
    OpenedInv(venue, m);
    RunKeeps(venue, m.book.balances, m, events);
  }

  // ---- settlement records ----

  /** In every run the record of an order whose permit was consumed is one of three: final, with the order's
      id and its whole notional, exactly when it has traded; partially filled with nothing yet, while it
      rests; cancelled with nothing. A cancellation's record is final, with an id of its own and no amount. */
  lemma RecordOfAdmitted(venue: Venue, m: Market, before: seq<Event>, after: seq<Event>, request: Request)
    requires Opened(m) && request in Run(venue, m, before).admitted
    ensures var book := Run(venue, Run(venue, m, before), after).book;
      && request.key in book.orders
      && match request.action
         case Trade(plan) =>
           var id := Some(venue.idOf(request.key, "order"));
           var order := book.orders[request.key];
           && order.plan == Some(plan)
           && Lookup(book, request) == (match order.state
              case Filled => LookUp(Settlement.FinalEffect, id, Some(plan.notional))
              case Pending => LookUp(Settlement.PartiallyFilled, id, Some(0.0))
              case _ => LookUp(Settlement.Cancelled, id, Some(0.0)))
           && (order.state == Filled ==> order.fill.Some?)
         case Cancel(_) =>
           Lookup(book, request) == LookUp(Settlement.FinalEffect, Some(venue.idOf(request.key, "cancel")), None)
         case Unreadable => false
  {
    OpenedInv(venue, m);
    RunKeeps(venue, m.book.balances, m, before);
    RunKeeps(venue, m.book.balances, Run(venue, m, before), after);
    assert Admits(Run(venue, Run(venue, m, before), after).book, request);
  }

  /** A request that is not on the book looks up as absent; one whose client order id carries another request
      as contradictory; nothing else does in any run. */
  lemma AbsentOrContradictory(venue: Venue, m: Market, events: seq<Event>, request: Request)
    requires Opened(m)
    ensures var book := Run(venue, m, events).book;
      var status := Lookup(book, request).status;
      && (status == Settlement.NoEffect <==> request.key !in book.orders)
      && (status == Settlement.Contradictory <==>
            request.key in book.orders && book.orders[request.key].request != request)
  {
  }
}
