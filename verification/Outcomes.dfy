// What cancelling an order came to at the broker.
module Outcomes {
  import opened Options
  import opened Trading
  import opened Broker
  import opened AutoTrade
  import opened OrderIds
  import opened Ledger
  import opened Reconciliation
  import opened Consistency
  import opened PassSafety
  import opened Runs

  // ---- One order ----------------------------------------------------------------------------

  // The book at the last look a cancel attempt for order o takes: at the reading, if that
  // says the order is closed, otherwise at the cancel call. Read off the broker's script.
  function LastLook(w: World, a: Account, o: nat): Book {
    var (w1, conf) := GetOrder(w, a, o);
    if conf.Some? && !IsLive(conf.value.status) then w1.book else Begin(w1, CancelCall(a, o)).book
  }

  // The cancel call gets through to order o. (An adapter does not reach another's orders.)
  predicate GetsThrough(w: World, a: Account, o: nat)
    requires o in w.book.orders
  {
    w.book.orders[o].account == a && Now(GetOrder(w, a, o).0).fault == Fine
  }

  // Engine order p outlives a cancel attempt for order o: the script still has it open at the
  // last look, no cancel of it was acknowledged before, and this one is not for it or fails.
  predicate Survives(w: World, a: Account, o: nat, p: nat)
    requires p in w.book.orders
  {
    var look := LastLook(w, a, o);
    && p in look.orders && IsLive(look.orders[p].status) && !w.book.orders[p].cancelAcknowledged
    && !(p == o && GetsThrough(w, a, o))
  }

  // The attempt acknowledges a cancel of order o.
  predicate Acknowledges(w: World, a: Account, o: nat) {
    var (w1, conf) := GetOrder(w, a, o);
    !(conf.Some? && !IsLive(conf.value.status)) && Now(w1).fault == Fine && Holds(LastLook(w, a, o), a, o)
  }

  lemma BookAfterCancel(s: State, i: nat, a: Account)
    requires i < |s.rows| && s.rows[i].orderId.Some?
    ensures var o := s.rows[i].orderId.value;
            CancelWorking(s, i, a).0.world.book ==
              if Acknowledges(s.world, a, o) then Acknowledge(LastLook(s.world, a, o), o) else LastLook(s.world, a, o)
  {
    hide Begin;
  }

  lemma BeginMoves(w: World, c: Call)
    ensures Evolves(w.book, Begin(w, c).book)
  {
  }

  lemma EvolvesTransitive(b: Book, c: Book, d: Book)
    requires Evolves(b, c) && Evolves(c, d)
    ensures Evolves(b, d)
  {
  }

  lemma LookMoves(w: World, a: Account, o: nat)
    ensures Evolves(w.book, LastLook(w, a, o))
  {
    BeginMoves(w, GetOrderCall(a, o));
    var w1 := Begin(w, GetOrderCall(a, o));
    BeginMoves(w1, CancelCall(a, o));
    hide Begin;
    EvolvesTransitive(w.book, w1.book, Begin(w1, CancelCall(a, o)).book);
  }

  // An order still open at the last look was not read as closed.
  lemma OpenWasNotReadClosed(w: World, a: Account, o: nat)
    requires Holds(w.book, a, o)
    ensures var look := LastLook(w, a, o);
            && Holds(look, a, o)
            && (IsLive(look.orders[o].status) ==> (Acknowledges(w, a, o) <==> GetsThrough(w, a, o)))
  {
    LookMoves(w, a, o);
  }

  lemma CancelMoves(s: State, i: nat, a: Account, p: nat)
    requires i < |s.rows| && s.rows[i].orderId.Some? && p in s.world.book.orders
    ensures var o, after := s.rows[i].orderId.value, CancelWorking(s, i, a).0.world.book;
            && p in after.orders && p in LastLook(s.world, a, o).orders
            && var order, look := s.world.book.orders[p], LastLook(s.world, a, o).orders[p];
            && after.orders[p] == look.(cancelAcknowledged := after.orders[p].cancelAcknowledged)
            && look == order.(status := look.status) && (IsLive(look.status) ==> IsLive(order.status))
            && (IsLive(look.status) ==>
                  (after.orders[p].cancelAcknowledged <==>
                     order.cancelAcknowledged || (p == o && GetsThrough(s.world, a, o))))
  {
    var o := s.rows[i].orderId.value;
    BookAfterCancel(s, i, a);
    LookMoves(s.world, a, o);
    if Holds(s.world.book, a, o) {
      OpenWasNotReadClosed(s.world, a, o);
    }
    AcknowledgedIsHeld(s.world, a, o);
    hide CancelWorking, LastLook, GetOrder, Acknowledges;
  }

  lemma AcknowledgedIsHeld(w: World, a: Account, o: nat)
    ensures Acknowledges(w, a, o) ==> Holds(LastLook(w, a, o), a, o)
  {
  }

  // What a cancel attempt for the order of row i comes to, for that order and any other.
  lemma CancelStopsOrderIff(s: State, i: nat, a: Account, p: nat)
    requires i < |s.rows| && s.rows[i].orderId.Some?
    requires p in s.world.book.orders && s.world.book.orders[p].origin.Some?
    ensures var (s1, out) := CancelWorking(s, i, a);
            && p in s1.world.book.orders
            && (Working(s1.world.book.orders[p]) <==> Survives(s.world, a, s.rows[i].orderId.value, p))
            && (p == s.rows[i].orderId.value && (out == OrderCancelled || out == AlreadyFilled) ==>
                  !Working(s1.world.book.orders[p]))
  {
    CancelMoves(s, i, a, p);
    CancelAnswers(s, i, a);
    hide CancelWorking, GetOrder, Begin, LastLook;
  }

  // "Cancelled" and "already filled" are answered only for orders that have stopped.
  lemma CancelAnswers(s: State, i: nat, a: Account)
    requires i < |s.rows| && s.rows[i].orderId.Some?
    ensures var (s1, out) := CancelWorking(s, i, a);
            var o := s.rows[i].orderId.value;
            out == OrderCancelled || out == AlreadyFilled ==>
              o in s1.world.book.orders && !Working(s1.world.book.orders[o])
  {
  }

  // ---- The orders of a suggestion ---------------------------------------------------------------

  // A recorded order of suggestion n is working.
  ghost predicate HasWorking(s: State, n: nat) {
    exists o :: Works(s, n, o)
  }

  ghost predicate Works(s: State, n: nat, o: nat) {
    && o in s.world.book.orders && o !in s.world.unrecorded
    && Working(s.world.book.orders[o]) && s.world.book.orders[o].origin.value.sug == n
  }

  // Row i claims an order of suggestion n, and that order outlives a cancel attempt for the
  // order of row j through account a.
  ghost predicate MissedBy(s: State, n: nat, j: nat, a: Account, i: nat)
    requires j < |s.rows| && s.rows[j].orderId.Some?
  {
    && i < |s.rows| && s.rows[i].orderId.Some? && Covers(s.rows[i], s.rows[i].orderId.value)
    && s.rows[i].sug == Some(n)
    && s.rows[i].orderId.value in s.world.book.orders
    && Survives(s.world, a, s.rows[j].orderId.value, s.rows[i].orderId.value)
  }

  ghost predicate Missed(s: State, n: nat, j: nat, a: Account)
    requires j < |s.rows| && s.rows[j].orderId.Some?
  {
    exists i: nat :: MissedBy(s, n, j, a, i)
  }

  // A recorded working order of a suggestion has a row of that suggestion claiming it,
  lemma WorkingIsPlaced(s: State, n: nat, o: nat) returns (i: nat)
    requires Inv(s) && Works(s, n, o)
    ensures i < |s.rows| && Covers(s.rows[i], o) && s.rows[i].sug == Some(n)
    ensures s.rows[i].account == s.world.book.orders[o].account
    ensures Known(s.sugs, n) && Sug(s, n).account == s.rows[i].account
  {
    i :| 0 <= i < |s.rows| && Covers(s.rows[i], o);
    assert RowOK(s.rows[i], s.world.book) && OwnerOK(s.rows[i], s.sugs);
  }

  // and an open order that a row claims is a recorded one of the row's suggestion.
  lemma PlacedIsRecorded(s: State, i: nat)
    requires Inv(s) && i < |s.rows| && !s.rows[i].dryRun && s.rows[i].orderId.Some? && s.rows[i].sug.Some?
    requires s.rows[i].orderId.value in s.world.book.orders
             && IsLive(s.world.book.orders[s.rows[i].orderId.value].status)
    ensures s.rows[i].orderId.value !in s.world.unrecorded
    ensures s.world.book.orders[s.rows[i].orderId.value].origin == Some(Origin(s.rows[i].sug.value,
        s.world.book.orders[s.rows[i].orderId.value].origin.value.retry))
  {
    assert RowOK(s.rows[i], s.world.book);
    assert OpenRowOK(s.rows[i], s.sugs, s.world.book, s.world.unrecorded);
  }

  // A cancel attempt for the order of row j leaves suggestion n a working order exactly when
  // it misses one.
  lemma CancelStopsSuggestionIff(s: State, n: nat, j: nat, a: Account)
    requires Inv(s) && j < |s.rows| && s.rows[j].orderId.Some?
    ensures HasWorking(CancelWorking(s, j, a).0, n) <==> Missed(s, n, j, a)
  {
    var s1 := CancelWorking(s, j, a).0;
    var q := s.rows[j].orderId.value;
    NothingNewWorks(s, j, a);
    hide Inv, CancelWorking, Survives, LastLook;
    if o :| Works(s1, n, o) {
      CancelStopsOrderIff(s, j, a, o);
      CancelMoves(s, j, a, o);
      assert Works(s, n, o);
      var i := WorkingIsPlaced(s, n, o);
      assert MissedBy(s, n, j, a, i);
    }
    if i: nat :| MissedBy(s, n, j, a, i) {
      MissedWorks(s, n, j, a, i);
    }
  }

  lemma MissedWorks(s: State, n: nat, j: nat, a: Account, i: nat)
    requires Inv(s) && j < |s.rows| && s.rows[j].orderId.Some? && MissedBy(s, n, j, a, i)
    ensures Works(CancelWorking(s, j, a).0, n, s.rows[i].orderId.value)
  {
    hide Inv, CancelWorking, LastLook;
    CancelMoves(s, j, a, s.rows[i].orderId.value);
    PlacedIsRecorded(s, i);
    CancelStopsOrderIff(s, j, a, s.rows[i].orderId.value);
  }

  // Engine orders that work after a cancel attempt were there before it, working.
  lemma NothingNewWorks(s: State, j: nat, a: Account)
    requires j < |s.rows| && s.rows[j].orderId.Some?
    ensures var b := CancelWorking(s, j, a).0.world.book;
            forall o :: o in b.orders && Working(b.orders[o]) ==>
              o in s.world.book.orders && Working(s.world.book.orders[o])
                && s.world.book.orders[o].origin == b.orders[o].origin
  {
    BookAfterCancel(s, j, a);
    LookMoves(s.world, a, s.rows[j].orderId.value);
    hide CancelWorking, LastLook, Acknowledges;
  }

  lemma UnplacedDoesNotWork(s: State, n: nat)
    requires Inv(s) && Known(s.sugs, n)
    requires forall i :: 0 <= i < |s.rows| ==> !Placed(n, Sug(s, n).account)(s.rows[i])
    ensures !HasWorking(s, n)
  {
    if o :| Works(s, n, o) {
      var i := WorkingIsPlaced(s, n, o);
      assert false;
    }
  }

  // After un-accept the suggestion has a recorded working order exactly when the attempt for
  // its newest placed row missed one: that row's own order, when the script has it open at the
  // cancel call and the call raises, or the order of another row. The newest row's own order
  // never works on when the answer is "filled".
  lemma UnacceptStopsOrderIff(s: State, n: nat, a: Account, now: Time)
    requires Inv(s) && Known(s.sugs, n) && Sug(s, n).account == a && Sug(s, n).status == Accepted
    ensures var (s1, result) := Unaccept(s, n, a, now);
            var j := Newest(s.rows, Placed(n, a), |s.rows|);
            && (HasWorking(s1, n) <==> j < |s.rows| && Missed(s, n, j, a))
            && (j < |s.rows| && s.rows[j].orderId.value in s.world.book.orders
                && s.world.book.orders[s.rows[j].orderId.value].origin.Some? ==>
                  && s.rows[j].orderId.value in s1.world.book.orders
                  && var order := s1.world.book.orders[s.rows[j].orderId.value];
                  && (Working(order) <==> Survives(s.world, a, s.rows[j].orderId.value, s.rows[j].orderId.value))
                  && (result == UnacceptFilled ==> !Working(order)))
  {
    var j := Newest(s.rows, Placed(n, a), |s.rows|);
    hide Inv, CancelWorking, Working, Survives, Missed;
    if j < |s.rows| {
      CancelStopsSuggestionIff(s, n, j, a);
      OnlyTheWorldCounts(Unaccept(s, n, a, now).0, CancelWorking(s, j, a).0, n);
      if s.rows[j].orderId.value in s.world.book.orders
        && s.world.book.orders[s.rows[j].orderId.value].origin.Some? {
        CancelStopsOrderIff(s, j, a, s.rows[j].orderId.value);
      }
    } else {
      OnlyTheWorldCounts(Unaccept(s, n, a, now).0, s, n);
      UnplacedDoesNotWork(s, n);
    }
  }

  lemma OnlyTheWorldCounts(s: State, s1: State, n: nat)
    requires s.world == s1.world
    ensures HasWorking(s, n) <==> HasWorking(s1, n)
  {
    hide Working;
    if o :| Works(s, n, o) {
      assert Works(s1, n, o);
    }
    if o :| Works(s1, n, o) {
      assert Works(s, n, o);
    }
  }

  // With every broker call raising, un-accept answers "cancelled" and the order works on.
  lemma UnacceptCanMissTheOrder(s: State, n: nat, a: Account, now: Time)
    requires Inv(s) && Known(s.sugs, n) && Sug(s, n).account == a && Sug(s, n).status == Accepted && s.world.ticks == []
    requires var i := Newest(s.rows, Placed(n, a), |s.rows|);
             i < |s.rows| && s.rows[i].orderId.value in s.world.book.orders
             && Working(s.world.book.orders[s.rows[i].orderId.value])
    ensures var (s1, result) := Unaccept(s, n, a, now);
            && result == UnacceptCancelled && Sug(s1, n).status == SugStatus.Cancelled
            && s1.world.book == s.world.book
  {
    hide Inv, Newest, Working;
  }

  // The sweep expires the suggestion either way. Without an adapter its working orders are as
  // before; with one it has a working order afterwards exactly when the attempt for the row
  // the query returned missed one. An adapter never gets through to another account's order.
  lemma ExpiryStopsOrderIff(s: State, n: nat, adapter: Option<Account>, picks: map<nat, nat>, now: Time)
    requires Inv(s) && Known(s.sugs, n)
    ensures var s1 := ExpireAccepted(s, n, adapter, picks, now);
            var j := PlacedRow(s.rows, n, picks);
            && Sug(s1, n).status == Expired
            && (HasWorking(s1, n) <==>
                  if adapter == None then HasWorking(s, n) else j < |s.rows| && Missed(s, n, j, adapter.value))
  {
    var j := PlacedRow(s.rows, n, picks);
    var s1 := ExpireAccepted(s, n, adapter, picks, now);
    hide Inv, CancelWorking, PlacedRow, Missed;
    if adapter.Some? && j < |s.rows| {
      CancelStopsSuggestionIff(s, n, j, adapter.value);
      OnlyTheWorldCounts(s1, CancelWorking(s, j, adapter.value).0, n);
    } else {
      OnlyTheWorldCounts(s1, s, n);
      if adapter.Some? {
        assert forall i :: 0 <= i < |s.rows| ==> !PlacedAnywhere(n)(s.rows[i]);
        UnplacedDoesNotWork(s, n);
      }
    }
  }

  // ---- Un-accept and the older row -----------------------------------------------------------------

  const SELL := Draft("X", Sell, 1.0, 10.0, "", None, None, 1.0, Regular)
  // A hand trade of the same share, partly filled and then cancelled.
  const BY_HAND := Activity(1, None, "X", Sell, 1.0, 10.0, Some(50), ActCanceled)

  function BothOrders(): Book {
    var id := Some(Print(1, 0));
    Book(map[0 := BrokerOrder(0, "X", Sell, 1.0, Some(10.0), id, Some(Origin(1, 0)), New, false),
             1 := BrokerOrder(0, "X", Sell, 1.0, Some(10.0), None, None, Canceled, false)], 2)
  }

  // The engine's order for suggestion 1 is open and recorded; the hand trade is not recorded.
  function TwoOrders(): State {
    State([Suggestion(0, 0, SELL, Accepted, None, 0, Some(0), None)],
          [Row(0, Some(1), "X", Sell, Some(1.0), Some(10.0), 0.0, None, None, Some(0), Some(Print(1, 0)), false,
               AcceptedForRouting, None, AutoTradePlaced, 100, None)],
          map[0 := Live], World(BothOrders(), [Calm(), Calm()], [], {}))
  }

  function Calm(): Tick {
    Tick(BothOrders(), Fine, None, 0.0, {})
  }

  lemma TheRowIsFirst()
    ensures RetriesOK(TwoOrders().rows) && Count(TwoOrders().rows, RealOf(1)) == 1
  {
    var s := TwoOrders();
    forall n: nat, k: nat {:trigger Print(n, k)} | s.rows[0].clientId == Some(Print(n, k))
      ensures n == 1 && k == 0
    {
      PrintInjective(n, k, 1, 0);
    }
    hide Print;
    assert [s.rows[0]][..0] == [];
  }

  lemma TheRowIsSound()
    ensures var s := TwoOrders();
            && Tracked(s.rows, BothOrders(), {}) && OneClaim(s.rows) && RowsOK(s.rows, BothOrders())
            && OpenRowsOK(s.sugs, s.rows, BothOrders(), {}) && Recorded(s.rows, BothOrders(), {})
            && OwnersOK(s.sugs, s.rows)
  {
    hide Print;
    var s := TwoOrders();
    assert Covers(s.rows[0], 0) && Names(s.rows[0], 0);
  }

  lemma TwoOrdersAreSound()
    ensures Inv(TwoOrders()) && Enabled(TwoOrders(), Reconciles(0, [BY_HAND], 200))
  {
    TheRowIsFirst();
    TheRowIsSound();
    hide Print, Count, RetriesOK, Tracked, OneClaim, RowsOK, OpenRowsOK, Recorded, OwnersOK;
  }

  // Reconciliation takes the hand trade for the suggestion's.
  function Matched(): State {
    TwoOrders().(rows := TwoOrders().rows + [NewRow(MatchResult(Some(1), BY_HAND, AutoMatched), 0, None, 200)])
  }

  lemma TheHandTradeIsMatched()
    ensures Apply(TwoOrders(), Reconciles(0, [BY_HAND], 200)) == Matched()
  {
    var s := TwoOrders();
    hide Print;
    assert Candidate(s.sugs[0], 0, BY_HAND);
    assert Candidates(s.sugs, 0, BY_HAND, 0) == (0, 0);
    var m := MatchResult(Some(1), BY_HAND, AutoMatched);
    assert Match(s.sugs, 0, BY_HAND) == m;
    assert [BY_HAND][..0] == [];
    assert MatchAll(s.sugs, 0, [BY_HAND]) == [m];
    assert First(s.rows, Records(0, 1)) == 1;
    NoBuysYet(s.rows);
    assert PersistFrom(Matched(), [m], 1, 0, 200) == Matched();
  }

  lemma NoBuysYet(rows: seq<Row>)
    requires |rows| == 1 && rows[0].side == Sell
    ensures PriorBuys(rows, "X", 50) == []
  {
    assert rows[..0] == [];
  }

  // Un-accept then asks about the hand trade only, which is closed: with no call raising it
  // answers "cancelled", and the engine's order works on.
  lemma UnacceptCanAskForAnother()
    ensures Inv(TwoOrders()) && Enabled(TwoOrders(), Reconciles(0, [BY_HAND], 200))
    ensures var s := Apply(TwoOrders(), Reconciles(0, [BY_HAND], 200));
            var (s1, result) := Unaccept(s, 1, 0, 300);
            && Inv(s) && Now(s.world).fault == Fine && |s.world.ticks| == 2 && s.world.ticks[1].fault == Fine
            && result == UnacceptCancelled && HasWorking(s1, 1)
  {
    TwoOrdersAreSound();
    TheHandTradeIsMatched();
    StepKeeps(TwoOrders(), Reconciles(0, [BY_HAND], 200));
    TheHandTradeIsAskedFor();
    hide Inv, Print, Apply, Unaccept, HasWorking, Enabled;
  }

  lemma TheHandTradeIsNewest()
    ensures Newest(Matched().rows, Placed(1, 0), 2) == 1
  {
    hide Print;
    var rows := Matched().rows;
    assert Newest(rows, Placed(1, 0), 0) == 2 && Newest(rows, Placed(1, 0), 1) == 0;
  }

  lemma TheHandTradeIsAskedFor()
    ensures var (s1, result) := Unaccept(Matched(), 1, 0, 300); result == UnacceptCancelled && HasWorking(s1, 1)
  {
    hide Print, Newest;
    var s := Matched();
    TheHandTradeIsNewest();
    assert GetOrder(s.world, 0, 1).1 == Some(Confirmation(Canceled, None));
    assert CancelWorking(s, 1, 0).1 == Noop && CancelWorking(s, 1, 0).0.world.book == BothOrders();
    hide CancelWorking, GetOrder;
    assert Works(Unaccept(s, 1, 0, 300).0, 1, 0);
  }

  // ---- The kill switch ---------------------------------------------------------------------------------

  predicate CancelsRow(c: Call, r: Row, a: Account, cutoff: Time) {
    RecentlyPlaced(a, cutoff)(r) && c == CancelCall(a, r.orderId.value)
  }

  // The kill switch asks for the cancel of every recently placed row,
  lemma {:induction false} KillCancelsRecent(s: State, i: nat, a: Account, cutoff: Time)
    requires i <= |s.rows|
    ensures var calls := KillFrom(s, i, a, cutoff).world.calls;
            && s.world.calls <= calls
            && forall j :: i <= j < |s.rows| && RecentlyPlaced(a, cutoff)(s.rows[j]) ==>
                 exists k :: |s.world.calls| <= k < |calls| && CancelsRow(calls[k], s.rows[j], a, cutoff)
    decreases |s.rows| - i
  {
    if i < |s.rows| {
      if RecentlyPlaced(a, cutoff)(s.rows[i]) {
        var s1, calls := KillOne(s, i, a, cutoff), KillFrom(s, i, a, cutoff).world.calls;
        hide KillFrom, KillOne;
        KillCancelsRecent(s1, i + 1, a, cutoff);
        assert CancelsRow(calls[|s.world.calls|], s.rows[i], a, cutoff);
      } else {
        KillCancelsRecent(s, i + 1, a, cutoff);
      }
    }
  }

  // and for nothing else.
  lemma {:induction false} KillCancelsOnlyRecent(s: State, i: nat, a: Account, cutoff: Time, k: nat)
    requires i <= |s.rows| && |s.world.calls| <= k < |KillFrom(s, i, a, cutoff).world.calls|
    ensures exists j :: i <= j < |s.rows| && CancelsRow(KillFrom(s, i, a, cutoff).world.calls[k], s.rows[j], a, cutoff)
    decreases |s.rows| - i
  {
    if RecentlyPlaced(a, cutoff)(s.rows[i]) {
      var s1, calls := KillOne(s, i, a, cutoff), KillFrom(s, i, a, cutoff).world.calls;
      hide KillFrom, KillOne;
      if k == |s.world.calls| {
        KillCancelsRecent(s1, i + 1, a, cutoff);
        assert CancelsRow(calls[k], s.rows[i], a, cutoff);
      } else {
        KillCancelsOnlyRecent(s1, i + 1, a, cutoff, k);
      }
    } else {
      KillCancelsOnlyRecent(s, i + 1, a, cutoff, k);
    }
  }

  function KillOne(s: State, i: nat, a: Account, cutoff: Time): (r: State)
    requires i < |s.rows| && RecentlyPlaced(a, cutoff)(s.rows[i])
    ensures r.rows == s.rows && r.world.calls == s.world.calls + [CancelCall(a, s.rows[i].orderId.value)]
    ensures KillFrom(s, i, a, cutoff) == KillFrom(r, i + 1, a, cutoff)
  {
    s.(world := CancelOrder(s.world, a, s.rows[i].orderId.value).0)
  }
}
