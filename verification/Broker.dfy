// The broker as the engine sees it. Everything the broker decides (what happens to orders
// between two calls, whether a call raises, what it echoes) is read from a script of ticks,
// so a claim for every script is a claim for every broker.
module Broker {
  import opened Options
  import opened OrderIds
  import opened Trading

  datatype OrderStatus =
    | New | PartiallyFilled | PendingNew | AcceptedAtBroker | Held | PendingCancel
    | FilledAtBroker | Canceled | ExpiredAtBroker | RejectedAtBroker | DoneForDay | Replaced

  predicate IsLive(st: OrderStatus) {
    st in {New, PartiallyFilled, PendingNew, AcceptedAtBroker, Held, PendingCancel}
  }

  // Closed without being filled.
  predicate IsTerminal(st: OrderStatus) {
    st in {Canceled, ExpiredAtBroker, RejectedAtBroker, DoneForDay, Replaced}
  }

  // The engine submission an order came from; None for an order placed by hand.
  datatype Origin = Origin(sug: nat, retry: nat)

  datatype BrokerOrder = BrokerOrder(
    account: Account, ticker: Ticker, side: Side, qty: real, limit: Option<real>,
    clientId: Option<string>, origin: Option<Origin>, status: OrderStatus, cancelAcknowledged: bool)

  // Orders by their (globally unique) broker id; ids from nextId on are unused.
  datatype Book = Book(orders: map<nat, BrokerOrder>, nextId: nat)

  // An engine order that can still trade: open, and no cancel of it has been acknowledged.
  predicate Working(o: BrokerOrder) {
    o.origin.Some? && IsLive(o.status) && !o.cancelAcknowledged
  }

  predicate NotEngineId(id: Option<string>) {
    id.Some? ==> ParseSuggestionId(id.value) == None
  }

  // What may happen to the book between two calls: open orders fill, close or change
  // status, closed orders stay as they are, and people place orders of their own.
  predicate Evolves(b: Book, c: Book) {
    && b.nextId <= c.nextId
    && (forall o :: o in b.orders ==>
          && o in c.orders
          && c.orders[o] == b.orders[o].(status := c.orders[o].status)
          && (!IsLive(b.orders[o].status) ==> c.orders[o].status == b.orders[o].status))
    && (forall o :: o in c.orders && o !in b.orders ==>
          b.nextId <= o < c.nextId && c.orders[o].origin == None && NotEngineId(c.orders[o].clientId))
  }

  datatype Fault = Fine | Raises | RaisesAfterAccepting | Rejects

  // One broker interaction: how the book has moved on, and how the call goes.
  datatype Tick = Tick(next: Book, fault: Fault, echo: Option<Option<string>>, power: real, visible: set<nat>)

  datatype Call =
    | GetOrderCall(a: Account, order: nat)
    | CancelCall(a: Account, order: nat)
    | SubmitCall(a: Account, clientId: string)
    | AccountCall(a: Account)
    | ListCall(a: Account)

  // `unrecorded` holds the accepted submissions that no execution row records (yet).
  datatype World = World(book: Book, ticks: seq<Tick>, calls: seq<Call>, unrecorded: set<nat>)

  // A missing tick reads as a call that raises with nothing changed.
  function Now(w: World): Tick {
    if w.ticks == [] then Tick(w.book, Raises, None, 0.0, {}) else w.ticks[0]
  }

  // The call history went on without a submission (for account a).
  ghost predicate NoSubmits(calls: seq<Call>, calls': seq<Call>) {
    calls <= calls' && forall k :: |calls| <= k < |calls'| ==> !calls'[k].SubmitCall?
  }

  ghost predicate NoSubmitsOf(calls: seq<Call>, calls': seq<Call>, a: Account) {
    calls <= calls' && forall k :: |calls| <= k < |calls'| && calls'[k].SubmitCall? ==> calls'[k].a != a
  }

  // No order was submitted between the two worlds.
  ghost predicate Quiet(w: World, w': World) {
    w'.unrecorded == w.unrecorded && NoSubmits(w.calls, w'.calls) && w.book.nextId <= w'.book.nextId
  }

  function Begin(w: World, c: Call): (w': World)
    ensures w'.unrecorded == w.unrecorded
    ensures w'.calls == w.calls + [c]
    ensures w.book.nextId <= w'.book.nextId
  {
    w.(book := if Evolves(w.book, Now(w).next) then Now(w).next else w.book,
       ticks := if w.ticks == [] then [] else w.ticks[1..],
       calls := w.calls + [c])
  }

  predicate Holds(b: Book, a: Account, o: nat) {
    o in b.orders && b.orders[o].account == a
  }

  datatype Confirmation = Confirmation(status: OrderStatus, clientId: Option<string>)

  // Reads an order; None when the call raises. The status is true, the echoed client id may not be.
  function GetOrder(w: World, a: Account, o: nat): (r: (World, Option<Confirmation>))
    ensures Quiet(w, r.0) && r.0.calls == w.calls + [GetOrderCall(a, o)]
  {
    var w1 := Begin(w, GetOrderCall(a, o));
    if Now(w).fault != Fine || !Holds(w1.book, a, o) then (w1, None)
    else
      var order := w1.book.orders[o];
      (w1, Some(Confirmation(order.status, if Now(w).echo.Some? then Now(w).echo.value else order.clientId)))
  }

  function Acknowledge(b: Book, o: nat): Book
    requires o in b.orders
  {
    b.(orders := b.orders[o := b.orders[o].(cancelAcknowledged := true)])
  }

  // Asks for a cancel; false when the call raises. A call that returns is an acknowledgement.
  function CancelOrder(w: World, a: Account, o: nat): (r: (World, bool))
    ensures Quiet(w, r.0) && r.0.calls == w.calls + [CancelCall(a, o)]
  {
    var w1 := Begin(w, CancelCall(a, o));
    if Now(w).fault != Fine || !Holds(w1.book, a, o) then (w1, false)
    else (w1.(book := Acknowledge(w1.book, o)), true)
  }

  datatype Submission = Confirmed(order: nat) | Invalid | Failed

  // The order of this account that already carries this client id, if any.
  function HolderFrom(b: Book, a: Account, id: string, o: nat): (r: Option<nat>)
    ensures r.Some? ==> r.value in b.orders && b.orders[r.value].account == a && b.orders[r.value].clientId == Some(id)
    ensures r == None ==> forall p :: o <= p < b.nextId && p in b.orders && b.orders[p].account == a ==>
            b.orders[p].clientId != Some(id)
    decreases b.nextId - o
  {
    if o >= b.nextId then None
    else if o in b.orders && b.orders[o].account == a && b.orders[o].clientId == Some(id) then Some(o)
    else HolderFrom(b, a, id, o + 1)
  }

  function Create(b: Book, a: Account, order: Draft, origin: Origin): Book {
    Book(b.orders[b.nextId := BrokerOrder(a, order.ticker, order.side, order.qty, Some(order.limit),
                                          Some(Print(origin.sug, origin.retry)), Some(origin), New, false)],
         b.nextId + 1)
  }

  // Submits an order under a client id. An id the broker has seen is never accepted twice:
  // an open order is returned as it is, a closed one makes the submission invalid. A call
  // may also raise after the broker has accepted the order.
  function SubmitOrder(w: World, a: Account, order: Draft, origin: Origin): (r: (World, Submission))
    ensures r.0.calls == w.calls + [SubmitCall(a, Print(origin.sug, origin.retry))]
    ensures w.book.nextId <= r.0.book.nextId
  {
    var id := Print(origin.sug, origin.retry);
    var w1 := Begin(w, SubmitCall(a, id));
    var fault := Now(w).fault;
    var holder := HolderFrom(w1.book, a, id, 0);
    if fault == Rejects then (w1, Invalid)
    else if fault == Raises then (w1, Failed)
    else if holder.Some? then
      var st := w1.book.orders[holder.value].status;
      if !IsLive(st) || st == PendingCancel then (w1, Invalid)
      else (w1, if fault == Fine then Confirmed(holder.value) else Failed)
    else
      var o := w1.book.nextId;
      (w1.(book := Create(w1.book, a, order, origin), unrecorded := w1.unrecorded + {o}),
       if fault == Fine then Confirmed(o) else Failed)
  }

  // Reads the account's buying power; None when the call raises.
  function BuyingPower(w: World, a: Account): (r: (World, Option<real>))
    ensures Quiet(w, r.0)
  {
    (Begin(w, AccountCall(a)), if Now(w).fault != Fine then None else Some(Now(w).power))
  }

  // Lists closed orders of the account (possibly not all: the broker caps the list).
  function ClosedOrders(w: World, a: Account): (r: (World, Option<map<nat, OrderStatus>>))
    ensures Quiet(w, r.0)
  {
    var w1 := Begin(w, ListCall(a));
    if Now(w).fault != Fine then (w1, None)
    else
      (w1, Some(map o | o in w1.book.orders && o in Now(w).visible && w1.book.orders[o].account == a
                        && !IsLive(w1.book.orders[o].status) :: w1.book.orders[o].status))
  }
}
