// The invariant that makes the ledger a sound view of the broker's open orders, and the
// elementary changes that keep it.
module Consistency {
  import opened Options
  import opened OrderIds
  import opened Trading
  import opened Broker
  import opened AutoTrade

  // Row r claims that order o is working.
  predicate Covers(r: Row, o: nat) {
    !r.dryRun && r.status == AcceptedForRouting && r.orderId == Some(o)
  }

  predicate Claims(r: Row, a: Account, ticker: Ticker) {
    !r.dryRun && r.status == AcceptedForRouting && r.account == a && r.ticker == ticker
  }

  // Two engine orders of one account under one client id.
  predicate SameId(x: BrokerOrder, y: BrokerOrder) {
    x.origin.Some? && y.origin.Some? && x.account == y.account && x.clientId == y.clientId
  }

  ghost predicate BookOK(b: Book) {
    && (forall o :: o in b.orders ==> o < b.nextId)
    && (forall o, p :: o in b.orders && p in b.orders && SameId(b.orders[o], b.orders[p]) ==> o == p)
  }

  // Every working engine order that was ever recorded has a row claiming it.
  ghost predicate Tracked(rows: seq<Row>, b: Book, unrecorded: set<nat>) {
    forall o :: o in b.orders && Working(b.orders[o]) && o !in unrecorded ==>
      exists i :: 0 <= i < |rows| && Covers(rows[i], o)
  }

  predicate Names(r: Row, o: nat) {
    !r.dryRun && r.orderId == Some(o)
  }

  // Every engine order the broker ever accepted has a real row, or is known to have none.
  ghost predicate Recorded(rows: seq<Row>, b: Book, unrecorded: set<nat>) {
    forall o :: o in b.orders && b.orders[o].origin.Some? && o !in unrecorded ==>
      exists i :: 0 <= i < |rows| && Names(rows[i], o)
  }

  // A real row of a suggestion is on that suggestion's account.
  ghost predicate OwnerOK(r: Row, sugs: seq<Suggestion>) {
    !r.dryRun && r.sug.Some? ==> Known(sugs, r.sug.value) && sugs[r.sug.value - 1].account == r.account
  }

  // At most one claim per account and ticker.
  ghost predicate OneClaim(rows: seq<Row>) {
    forall i, j :: 0 <= i < j < |rows| && Claims(rows[i], rows[i].account, rows[i].ticker) ==>
      !Claims(rows[j], rows[i].account, rows[i].ticker)
  }

  // A real row names an order of its own account and client id; while that order is open it is
  // the engine's order for the row's own suggestion and ticker.
  ghost predicate RowOK(r: Row, b: Book) {
    && (r.dryRun ==> r.orderId == None && r.status == Simulated)
    && (!r.dryRun && r.status == AcceptedForRouting ==> r.sug.Some?)
    && (!r.dryRun && r.orderId.Some? ==>
          && r.orderId.value in b.orders
          && var order := b.orders[r.orderId.value];
          && order.account == r.account && order.clientId == r.clientId
          && (IsLive(order.status) ==>
                order.origin.Some? && r.sug == Some(order.origin.value.sug) && r.ticker == order.ticker))
  }

  // An open order that a real row names counts as recorded, and the row is no older than its
  // suggestion's week.
  ghost predicate OpenRowOK(r: Row, sugs: seq<Suggestion>, b: Book, unrecorded: set<nat>) {
    !r.dryRun && r.orderId.Some? && r.orderId.value in b.orders && IsLive(b.orders[r.orderId.value].status) ==>
      && r.orderId.value !in unrecorded
      && (r.sug.Some? && Known(sugs, r.sug.value) ==> r.createdAt >= sugs[r.sug.value - 1].weekOf * DAY)
  }

  // An engine order belongs to its suggestion's account and ticker and carries its printed id;
  // its retry number never exceeds the number of real rows of the suggestion.
  ghost predicate OrderOK(o: BrokerOrder, sugs: seq<Suggestion>, rows: seq<Row>) {
    match o.origin
    case None => NotEngineId(o.clientId)
    case Some(g) =>
      && Known(sugs, g.sug)
      && sugs[g.sug - 1].account == o.account && sugs[g.sug - 1].order.ticker == o.ticker
      && o.clientId == Some(Print(g.sug, g.retry))
      && g.retry <= Count(rows, RealOf(g.sug))
  }

  // A real row with a printed id belongs to that suggestion, and at least `retry` real rows
  // of the suggestion came before it.
  ghost predicate RetriesOK(rows: seq<Row>) {
    forall i: int, n: nat, k: nat {:trigger rows[i], Print(n, k)} ::
      0 <= i < |rows| && !rows[i].dryRun && rows[i].clientId == Some(Print(n, k)) ==>
        rows[i].sug == Some(n) && k <= Count(rows[..i], RealOf(n))
  }

  ghost predicate RowsOK(rows: seq<Row>, b: Book) {
    forall i :: 0 <= i < |rows| ==> RowOK(rows[i], b)
  }

  ghost predicate OpenRowsOK(sugs: seq<Suggestion>, rows: seq<Row>, b: Book, unrecorded: set<nat>) {
    forall i :: 0 <= i < |rows| ==> OpenRowOK(rows[i], sugs, b, unrecorded)
  }

  ghost predicate OwnersOK(sugs: seq<Suggestion>, rows: seq<Row>) {
    forall i :: 0 <= i < |rows| ==> OwnerOK(rows[i], sugs)
  }

  ghost predicate OrdersOK(sugs: seq<Suggestion>, rows: seq<Row>, b: Book) {
    forall o :: o in b.orders ==> OrderOK(b.orders[o], sugs, rows)
  }

  ghost predicate Consistent(sugs: seq<Suggestion>, rows: seq<Row>, b: Book, unrecorded: set<nat>) {
    && BookOK(b)
    && Tracked(rows, b, unrecorded)
    && OneClaim(rows)
    && RowsOK(rows, b)
    && OpenRowsOK(sugs, rows, b, unrecorded)
    && Recorded(rows, b, unrecorded)
    && OwnersOK(sugs, rows)
    && OrdersOK(sugs, rows, b)
    && RetriesOK(rows)
  }

  ghost predicate Inv(s: State) {
    Consistent(s.sugs, s.rows, s.world.book, s.world.unrecorded)
  }

  // ---- Broker side ------------------------------------------------------------------------

  lemma BeginKeeps(s: State, c: Call)
    requires Inv(s)
    ensures Inv(s.(world := Begin(s.world, c)))
  {
  }

  lemma GetOrderKeeps(s: State, a: Account, o: nat)
    requires Inv(s)
    ensures var (w1, conf) := GetOrder(s.world, a, o);
            && Inv(s.(world := w1))
            && w1.unrecorded == s.world.unrecorded
            && (conf.Some? ==> Holds(w1.book, a, o) && w1.book.orders[o].status == conf.value.status)
  {
    BeginKeeps(s, GetOrderCall(a, o));
  }

  lemma CancelOrderKeeps(s: State, a: Account, o: nat)
    requires Inv(s)
    ensures var (w1, ok) := CancelOrder(s.world, a, o);
            && Inv(s.(world := w1))
            && w1.unrecorded == s.world.unrecorded
            && (ok ==> Holds(w1.book, a, o) && !Working(w1.book.orders[o]))
  {
    BeginKeeps(s, CancelCall(a, o));
    var w1 := Begin(s.world, CancelCall(a, o));
    hide Begin, Consistent;
    if o in w1.book.orders {
      AcknowledgeKeeps(s.sugs, s.rows, w1.book, w1.unrecorded, o);
    }
  }

  lemma AcknowledgeKeeps(sugs: seq<Suggestion>, rows: seq<Row>, b: Book, u: set<nat>, o: nat)
    requires Consistent(sugs, rows, b, u) && o in b.orders
    ensures Consistent(sugs, rows, Acknowledge(b, o), u)
  {
    assert OrderOK(b.orders[o], sugs, rows);
    hide Count;
  }

  lemma CreateKeeps(sugs: seq<Suggestion>, rows: seq<Row>, b: Book, u: set<nat>, a: Account, d: Draft, g: Origin)
    requires Consistent(sugs, rows, b, u)
    requires Known(sugs, g.sug) && sugs[g.sug - 1].account == a && sugs[g.sug - 1].order.ticker == d.ticker
    requires g.retry <= Count(rows, RealOf(g.sug))
    requires HolderFrom(b, a, Print(g.sug, g.retry), 0) == None
    ensures Consistent(sugs, rows, Create(b, a, d, g), u + {b.nextId})
  {
    var c := Create(b, a, d, g);
    forall p | p in c.orders
      ensures OrderOK(c.orders[p], sugs, rows)
      ensures p != b.nextId ==> p in b.orders && c.orders[p] == b.orders[p]
    {
      if p != b.nextId {
        assert OrderOK(b.orders[p], sugs, rows);
      }
    }
    forall i | 0 <= i < |rows|
      ensures RowOK(rows[i], c) && OpenRowOK(rows[i], sugs, c, u + {b.nextId})
    {
      assert RowOK(rows[i], b) && OpenRowOK(rows[i], sugs, b, u);
    }
  }

  // A confirmed submission names an open engine order for the submitted suggestion and ticker.
  lemma SubmitKeeps(s: State, a: Account, d: Draft, g: Origin)
    requires Inv(s)
    requires Known(s.sugs, g.sug) && Sug(s, g.sug).account == a && Sug(s, g.sug).order.ticker == d.ticker
    requires g.retry <= Count(s.rows, RealOf(g.sug))
    ensures var (w1, sent) := SubmitOrder(s.world, a, d, g);
            && Inv(s.(world := w1))
            && s.world.unrecorded <= w1.unrecorded
            && (sent.Confirmed? ==>
                  && Holds(w1.book, a, sent.order) && w1.book.orders[sent.order].ticker == d.ticker
                  && w1.book.orders[sent.order].origin == Some(g))
  {
    var c := SubmitCall(a, Print(g.sug, g.retry));
    BeginKeeps(s, c);
    var w1 := Begin(s.world, c);
    var holder := HolderFrom(w1.book, a, Print(g.sug, g.retry), 0);
    if holder.Some? {
      IdNamesOrigin(w1.book.orders[holder.value], s.sugs, s.rows, g);
    } else {
      CreateKeeps(s.sugs, s.rows, w1.book, w1.unrecorded, a, d, g);
    }
  }

  // An order under a printed id came from the submission that id was printed for.
  lemma IdNamesOrigin(order: BrokerOrder, sugs: seq<Suggestion>, rows: seq<Row>, g: Origin)
    requires OrderOK(order, sugs, rows) && order.clientId == Some(Print(g.sug, g.retry))
    ensures order.origin == Some(g)
  {
    ParsePrint(g.sug, g.retry);
    assert order.origin.Some?;
    PrintInjective(order.origin.value.sug, order.origin.value.retry, g.sug, g.retry);
  }

  // ---- Ledger side ---------------------------------------------------------------------------

  predicate SameIdentity(r: Row, q: Row) {
    && r.account == q.account && r.sug == q.sug && r.ticker == q.ticker
    && r.orderId == q.orderId && r.clientId == q.clientId && r.dryRun == q.dryRun
  }

  lemma CountsUnderUpdate(rows: seq<Row>, i: nat, q: Row, p: Row -> bool, j: nat)
    requires i < |rows| && j <= |rows| && p(rows[i]) == p(q)
    ensures Count(rows[i := q][..j], p) == Count(rows[..j], p)
  {
    if j <= i {
      assert rows[i := q][..j] == rows[..j];
    } else {
      assert rows[i := q][..j] == rows[..j][i := q];
      CountUpdate(rows[..j], i, q, p);
    }
  }

  lemma RetriesUnderUpdate(rows: seq<Row>, i: nat, q: Row)
    requires RetriesOK(rows) && i < |rows| && SameIdentity(rows[i], q)
    ensures RetriesOK(rows[i := q])
    ensures forall n: nat :: Count(rows[i := q], RealOf(n)) == Count(rows, RealOf(n))
  {
    var rows' := rows[i := q];
    forall j: int, n: nat, k: nat {:trigger rows'[j], Print(n, k)} | 0 <= j < |rows'| && !rows'[j].dryRun
        && rows'[j].clientId == Some(Print(n, k))
      ensures rows'[j].sug == Some(n) && k <= Count(rows'[..j], RealOf(n))
    {
      assert !rows[j].dryRun && rows[j].clientId == Some(Print(n, k));
      CountsUnderUpdate(rows, i, q, RealOf(n), j);
    }
    forall n: nat
      ensures Count(rows', RealOf(n)) == Count(rows, RealOf(n))
    {
      CountUpdate(rows, i, q, RealOf(n));
    }
  }

  lemma OrdersUnderRows(sugs: seq<Suggestion>, rows: seq<Row>, rows': seq<Row>, b: Book)
    requires OrdersOK(sugs, rows, b)
    requires forall n: nat :: Count(rows', RealOf(n)) >= Count(rows, RealOf(n))
    ensures OrdersOK(sugs, rows', b)
  {
    forall o | o in b.orders
      ensures OrderOK(b.orders[o], sugs, rows')
    {
      assert OrderOK(b.orders[o], sugs, rows);
    }
  }

  // A row whose order is not working may take any status but accepted_for_routing.
  lemma SettleKeeps(s: State, i: nat, q: Row)
    requires Inv(s) && i < |s.rows| && !q.dryRun && SameIdentity(s.rows[i], q) && q.createdAt == s.rows[i].createdAt
    requires q.status != AcceptedForRouting
    requires q.orderId.Some? && q.orderId.value in s.world.book.orders ==>
             !Working(s.world.book.orders[q.orderId.value])
    ensures Inv(s.(rows := s.rows[i := q]))
  {
    var rows := s.rows[i := q];
    RetriesUnderUpdate(s.rows, i, q);
    OrdersUnderRows(s.sugs, s.rows, rows, s.world.book);
    assert RowOK(s.rows[i], s.world.book);
    assert OpenRowOK(s.rows[i], s.sugs, s.world.book, s.world.unrecorded);
    TrackedUnderUpdate(s, i, q);
    RecordedUnderUpdate(s, i, q);
    hide Tracked, Recorded, RetriesOK, OrdersOK, OwnersOK, Working;
  }

  // A row that stops claiming, or starts to, leaves the other claims alone.
  lemma TrackedUnderUpdate(s: State, i: nat, q: Row)
    requires Inv(s) && i < |s.rows| && SameIdentity(s.rows[i], q)
    requires q.status == AcceptedForRouting ||
             (q.orderId.Some? && q.orderId.value in s.world.book.orders ==>
                !Working(s.world.book.orders[q.orderId.value]))
    ensures Tracked(s.rows[i := q], s.world.book, s.world.unrecorded)
  {
    var rows := s.rows[i := q];
    forall o | o in s.world.book.orders && Working(s.world.book.orders[o]) && o !in s.world.unrecorded
      ensures exists j :: 0 <= j < |rows| && Covers(rows[j], o)
    {
      var j :| 0 <= j < |s.rows| && Covers(s.rows[j], o);
      assert Covers(rows[j], o);
    }
  }

  lemma RecordedUnderUpdate(s: State, i: nat, q: Row)
    requires Inv(s) && i < |s.rows| && SameIdentity(s.rows[i], q)
    ensures Recorded(s.rows[i := q], s.world.book, s.world.unrecorded)
    ensures OwnersOK(s.sugs, s.rows[i := q])
  {
    var rows := s.rows[i := q];
    assert OwnerOK(s.rows[i], s.sugs);
    forall o | o in s.world.book.orders && s.world.book.orders[o].origin.Some? && o !in s.world.unrecorded
      ensures exists j :: 0 <= j < |rows| && Names(rows[j], o)
    {
      var j :| 0 <= j < |s.rows| && Names(s.rows[j], o);
      assert Names(rows[j], o);
    }
  }

  // The order of row i is live and nothing claims its ticker: the row may claim it.
  lemma ReadoptKeeps(s: State, i: nat, now: Time)
    requires Inv(s) && i < |s.rows| && !s.rows[i].dryRun && s.rows[i].orderId.Some? && s.rows[i].sug.Some?
    requires forall j :: 0 <= j < |s.rows| ==> !Claims(s.rows[j], s.rows[i].account, s.rows[i].ticker)
    requires Known(s.sugs, s.rows[i].sug.value) ==> Sug(s, s.rows[i].sug.value).weekOf * DAY <= now
    ensures Inv(AutoTrade.Readopt(s, i, now))
  {
    var q := s.rows[i].(status := AcceptedForRouting, createdAt := now);
    var rows := s.rows[i := q];
    RetriesUnderUpdate(s.rows, i, q);
    OrdersUnderRows(s.sugs, s.rows, rows, s.world.book);
    assert RowOK(s.rows[i], s.world.book);
    assert OpenRowOK(s.rows[i], s.sugs, s.world.book, s.world.unrecorded);
    TrackedUnderUpdate(s, i, q);
    RecordedUnderUpdate(s, i, q);
    hide Tracked, Recorded, RetriesOK, OrdersOK, OwnersOK, Working;
  }

  ghost predicate IdFits(r: Row, rows: seq<Row>) {
    forall n: nat, k: nat {:trigger Print(n, k)} :: !r.dryRun && r.clientId == Some(Print(n, k)) ==>
      r.sug == Some(n) && k <= Count(rows, RealOf(n))
  }

  lemma AddKeepsTracking(rows: seq<Row>, r: Row, b: Book, u: set<nat>, u': set<nat>)
    requires Tracked(rows, b, u) && Recorded(rows, b, u)
    requires forall o :: o in u && o !in u' ==> Covers(r, o)
    ensures Tracked(rows + [r], b, u') && Recorded(rows + [r], b, u')
  {
    var rows' := rows + [r];
    assert rows'[|rows|] == r;
    forall o | o in b.orders && b.orders[o].origin.Some? && o !in u'
      ensures exists j :: 0 <= j < |rows'| && Names(rows'[j], o)
      ensures Working(b.orders[o]) ==> exists j :: 0 <= j < |rows'| && Covers(rows'[j], o)
    {
      if o !in u {
        var j :| 0 <= j < |rows| && Names(rows[j], o);
        assert Names(rows'[j], o);
        if Working(b.orders[o]) {
          var k :| 0 <= k < |rows| && Covers(rows[k], o);
          assert Covers(rows'[k], o);
        }
      } else {
        assert Names(rows'[|rows|], o) && Covers(rows'[|rows|], o);
      }
    }
  }

  lemma AddKeepsRetries(rows: seq<Row>, r: Row)
    requires RetriesOK(rows) && IdFits(r, rows)
    ensures RetriesOK(rows + [r])
    ensures forall n: nat :: Count(rows + [r], RealOf(n)) >= Count(rows, RealOf(n))
  {
    var rows' := rows + [r];
    forall j: int, n: nat, k: nat {:trigger rows'[j], Print(n, k)} | 0 <= j < |rows'| && !rows'[j].dryRun
        && rows'[j].clientId == Some(Print(n, k))
      ensures rows'[j].sug == Some(n) && k <= Count(rows'[..j], RealOf(n))
    {
      assert rows'[..j] == rows[..j];
      if j == |rows| {
        assert rows[..j] == rows;
      } else {
        assert rows'[j] == rows[j];
      }
    }
  }

  // Adding a row: it must be a true row, claim a free ticker if it claims one, and carry a
  // client id no later than its place. An order it covers counts as recorded from then on.
  lemma AddKeeps(s: State, r: Row, u: set<nat>)
    requires Inv(s) && RowOK(r, s.world.book) && IdFits(r, s.rows) && OwnerOK(r, s.sugs)
    requires OpenRowOK(r, s.sugs, s.world.book, u) && u <= s.world.unrecorded
    requires !r.dryRun && r.status == AcceptedForRouting ==>
               forall j :: 0 <= j < |s.rows| ==> !Claims(s.rows[j], r.account, r.ticker)
    requires forall o :: o in s.world.unrecorded && o !in u ==> Covers(r, o)
    ensures Inv(s.(rows := s.rows + [r], world := s.world.(unrecorded := u)))
  {
    hide Tracked, Recorded, RetriesOK, IdFits, OrderOK;
    AddKeepsTracking(s.rows, r, s.world.book, s.world.unrecorded, u);
    AddKeepsRetries(s.rows, r);
    OrdersUnderRows(s.sugs, s.rows, s.rows + [r], s.world.book);
  }

  // Suggestions may change in anything but account, week and ticker, and new ones may appear.
  ghost predicate SameOwners(sugs: seq<Suggestion>, sugs': seq<Suggestion>) {
    && |sugs| <= |sugs'|
    && forall n :: 0 <= n < |sugs| ==>
         && sugs[n].account == sugs'[n].account && sugs[n].weekOf == sugs'[n].weekOf
         && sugs[n].order.ticker == sugs'[n].order.ticker
  }

  lemma SugsKeep(s: State, sugs: seq<Suggestion>)
    requires Inv(s) && SameOwners(s.sugs, sugs)
    ensures Inv(s.(sugs := sugs))
  {
    forall o | o in s.world.book.orders
      ensures OrderOK(s.world.book.orders[o], sugs, s.rows)
    {
      assert OrderOK(s.world.book.orders[o], s.sugs, s.rows);
    }
    forall i | 0 <= i < |s.rows|
      ensures OwnerOK(s.rows[i], sugs) && OpenRowOK(s.rows[i], sugs, s.world.book, s.world.unrecorded)
    {
      assert OwnerOK(s.rows[i], s.sugs) && OpenRowOK(s.rows[i], s.sugs, s.world.book, s.world.unrecorded);
    }
  }

  // ---- Two orders for one ticker ----------------------------------------------------------------

  // At most one working, recorded engine order per account and ticker.
  lemma OneWorkingOrder(s: State, o: nat, p: nat)
    requires Inv(s) && o in s.world.book.orders && p in s.world.book.orders
    requires Working(s.world.book.orders[o]) && Working(s.world.book.orders[p])
    requires o !in s.world.unrecorded && p !in s.world.unrecorded
    requires s.world.book.orders[o].account == s.world.book.orders[p].account
    requires s.world.book.orders[o].ticker == s.world.book.orders[p].ticker
    ensures o == p
  {
    var i :| 0 <= i < |s.rows| && Covers(s.rows[i], o);
    var j :| 0 <= j < |s.rows| && Covers(s.rows[j], p);
    assert RowOK(s.rows[i], s.world.book) && RowOK(s.rows[j], s.world.book);
    var a, t := s.rows[i].account, s.rows[i].ticker;
    assert Claims(s.rows[i], a, t) && Claims(s.rows[j], a, t);
  }
}
