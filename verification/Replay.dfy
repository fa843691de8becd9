// Storing the same match results again.
module Replay {
  import opened Options
  import opened Trading
  import Broker
  import opened AutoTrade
  import opened Reconciliation

  // One result per broker order.
  predicate Distinct(ms: seq<MatchResult>) {
    forall i, j :: 0 <= i < j < |ms| ==> ms[i].act.order != ms[j].act.order
  }

  // The row that stands for this result's order; |rows| if there is none.
  function RowFor(rows: seq<Row>, m: MatchResult, a: Account): (i: nat)
    ensures i <= |rows|
  {
    First(rows, Records(a, m.act.order))
  }

  // ---- Profit does not feed back into profit ------------------------------------------------

  function SansPnl(r: Row): Row {
    r.(pnl := None)
  }

  ghost predicate SameButPnl(rows: seq<Row>, rows': seq<Row>) {
    |rows| == |rows'| && forall i :: 0 <= i < |rows| ==> SansPnl(rows[i]) == SansPnl(rows'[i])
  }

  lemma {:induction false} PriorBuysSame(rows: seq<Row>, rows': seq<Row>, ticker: Ticker, until: Time)
    requires SameButPnl(rows, rows')
    ensures PriorBuys(rows, ticker, until) == PriorBuys(rows', ticker, until)
  {
    if rows != [] {
      var n := |rows| - 1;
      PriorBuysSame(rows[..n], rows'[..n], ticker, until);
      assert SansPnl(rows[n]) == SansPnl(rows'[n]);
    }
  }

  // ---- Settled results ----------------------------------------------------------------------

  // The row for the result carries its fill.
  predicate Carried(rows: seq<Row>, m: MatchResult, a: Account) {
    var i := RowFor(rows, m, a);
    i < |rows| && rows[i] == WithFill(rows[i], m.act)
  }

  // ... and, for a sell, the profit these very rows give.
  predicate Priced(rows: seq<Row>, m: MatchResult, a: Account)
    requires m.act.filledAt.Some?
  {
    var i := RowFor(rows, m, a);
    m.act.side == Sell ==> i < |rows| && rows[i].pnl == RealizedPnl(rows, m.act)
  }

  ghost predicate SettledTo(s: State, ms: seq<MatchResult>, k: nat, a: Account)
    requires k <= |ms|
  {
    forall j :: 0 <= j < k ==> Carried(s.rows, ms[j], a) && PersistSug(s.sugs, ms[j]) == s.sugs
  }

  ghost predicate PricedTo(s: State, ms: seq<MatchResult>, k: nat, a: Account)
    requires k <= |ms| && Timed(ms)
  {
    forall j :: 0 <= j < k ==> Priced(s.rows, ms[j], a)
  }

  function Stored(s: State, m: MatchResult, a: Account, now: Time): State
    requires m.act.filledAt.Some?
  {
    s.(rows := PersistRow(s.rows, m, a, now), sugs := PersistSug(s.sugs, m))
  }

  // Storing one result changes at most its own row, and leaves it carried.
  lemma StoredRow(rows: seq<Row>, m: MatchResult, a: Account, now: Time)
    requires m.act.filledAt.Some?
    ensures var rows' := PersistRow(rows, m, a, now);
            && |rows| <= |rows'| && Carried(rows', m, a)
            && (forall i :: 0 <= i < |rows| && i != RowFor(rows, m, a) ==> rows'[i] == rows[i])
            && (RowFor(rows, m, a) < |rows| ==> |rows'| == |rows|)
            && RowFor(rows', m, a) == RowFor(rows, m, a)
            && |rows'| <= |rows| + 1
            && (forall i :: |rows| <= i < |rows'| ==> i == RowFor(rows, m, a) && rows'[i].orderId == Some(m.act.order))
  {
    hide RealizedPnl;
    var i := RowFor(rows, m, a);
    var rows' := PersistRow(rows, m, a, now);
    assert Records(a, m.act.order)(rows'[i]);
    if i < |rows| {
      assert rows' == rows[i := rows'[i]];
    }
  }

  lemma OtherRowFor(rows: seq<Row>, m: MatchResult, m': MatchResult, a: Account, now: Time)
    requires m.act.filledAt.Some? && m'.act.order != m.act.order
    requires RowFor(rows, m', a) < |rows|
    ensures var rows' := PersistRow(rows, m, a, now);
            var i := RowFor(rows, m', a);
            && i < |rows'| && RowFor(rows', m', a) == i && rows'[i] == rows[i]
  {
    hide PersistRow;
    StoredRow(rows, m, a, now);
    var p := Records(a, m'.act.order);
    var rows' := PersistRow(rows, m, a, now);
    var i := RowFor(rows, m', a);
    assert p(rows[i]);
    forall j | 0 <= j < i
      ensures !p(rows'[j])
    {
      assert Carried(rows', m, a);
      assert j == RowFor(rows, m, a) ==> Records(a, m.act.order)(rows'[j]);
    }
  }

  // Flips happen once: a stored result leaves nothing to flip for itself or for earlier ones.
  lemma FlipsOnce(sugs: seq<Suggestion>, m: MatchResult, m': MatchResult)
    ensures PersistSug(PersistSug(sugs, m), m) == PersistSug(sugs, m)
    ensures PersistSug(sugs, m') == sugs ==> PersistSug(PersistSug(sugs, m), m') == PersistSug(sugs, m)
  {
  }

  lemma {:induction false} PersistSettles(s: State, ms: seq<MatchResult>, k: nat, a: Account, now: Time)
    requires Timed(ms) && Distinct(ms) && k <= |ms| && SettledTo(s, ms, k, a)
    ensures SettledTo(PersistFrom(s, ms, k, a, now), ms, |ms|, a)
    decreases |ms| - k
  {
    hide PersistRow, PersistSug, Carried;
    if k < |ms| {
      var s1 := Stored(s, ms[k], a, now);
      forall j | 0 <= j < k + 1
        ensures Carried(s1.rows, ms[j], a) && PersistSug(s1.sugs, ms[j]) == s1.sugs
      {
        FlipsOnce(s.sugs, ms[k], ms[j]);
        if j == k {
          StoredRow(s.rows, ms[k], a, now);
        } else {
          StaysCarried(s.rows, ms[k], ms[j], a, now);
        }
      }
      PersistSettles(s1, ms, k + 1, a, now);
    }
  }

  lemma StaysCarried(rows: seq<Row>, m: MatchResult, m': MatchResult, a: Account, now: Time)
    requires m.act.filledAt.Some? && m'.act.order != m.act.order && Carried(rows, m', a)
    ensures Carried(PersistRow(rows, m, a, now), m', a)
  {
    hide PersistRow;
    OtherRowFor(rows, m, m', a, now);
  }

  // On a settled result, storing it again can only renew its profit.
  lemma StoredAgain(rows: seq<Row>, m: MatchResult, a: Account, now: Time)
    requires m.act.filledAt.Some? && Carried(rows, m, a)
    ensures var i := RowFor(rows, m, a);
            PersistRow(rows, m, a, now) ==
              if m.act.side == Sell then rows[i := rows[i].(pnl := RealizedPnl(rows, m.act))] else rows
  {
    var i := RowFor(rows, m, a);
    assert rows[i := WithFill(rows[i], m.act)] == rows;
  }

  lemma PricedStays(rows: seq<Row>, m: MatchResult, m': MatchResult, a: Account, now: Time)
    requires m.act.filledAt.Some? && m'.act.filledAt.Some? && m'.act.order != m.act.order
    requires Carried(rows, m, a) && Carried(rows, m', a) && Priced(rows, m', a)
    ensures Priced(PersistRow(rows, m, a, now), m', a)
  {
    hide PersistRow, PriorBuys;
    StoredAgain(rows, m, a, now);
    OtherRowFor(rows, m, m', a, now);
    PriorBuysSame(rows, PersistRow(rows, m, a, now), m'.act.ticker, m'.act.filledAt.value);
  }

  lemma PricedItself(rows: seq<Row>, m: MatchResult, a: Account, now: Time)
    requires m.act.filledAt.Some? && Carried(rows, m, a)
    ensures Priced(PersistRow(rows, m, a, now), m, a) && SameButPnl(rows, PersistRow(rows, m, a, now))
    ensures Priced(rows, m, a) ==> PersistRow(rows, m, a, now) == rows
  {
    hide PersistRow, PriorBuys;
    StoredAgain(rows, m, a, now);
    StoredRow(rows, m, a, now);
    PriorBuysSame(rows, PersistRow(rows, m, a, now), m.act.ticker, m.act.filledAt.value);
  }

  lemma CarriedSame(rows: seq<Row>, rows': seq<Row>, m: MatchResult, a: Account)
    requires SameButPnl(rows, rows') && Carried(rows, m, a)
    ensures Carried(rows', m, a)
  {
    var i := RowFor(rows, m, a);
    assert SansPnl(rows[i]) == SansPnl(rows'[i]);
  }

  // Storing settled results again prices every sell from the rows as they are, and changes
  // nothing else.
  lemma {:induction false} PersistPrices(s: State, ms: seq<MatchResult>, k: nat, a: Account, now: Time)
    requires Timed(ms) && Distinct(ms) && k <= |ms| && SettledTo(s, ms, |ms|, a) && PricedTo(s, ms, k, a)
    ensures var r := PersistFrom(s, ms, k, a, now);
            && SettledTo(r, ms, |ms|, a) && PricedTo(r, ms, |ms|, a)
            && SameButPnl(s.rows, r.rows) && r.sugs == s.sugs
    decreases |ms| - k
  {
    hide PersistRow, PersistSug, Carried, Priced;
    if k < |ms| {
      var s1 := Stored(s, ms[k], a, now);
      PricedItself(s.rows, ms[k], a, now);
      forall j | 0 <= j < |ms|
        ensures Carried(s1.rows, ms[j], a) && PersistSug(s1.sugs, ms[j]) == s1.sugs
        ensures j <= k ==> Priced(s1.rows, ms[j], a)
      {
        CarriedSame(s.rows, s1.rows, ms[j], a);
        if j < k {
          PricedStays(s.rows, ms[k], ms[j], a, now);
        }
      }
      PersistPrices(s1, ms, k + 1, a, now);
      var r := PersistFrom(s1, ms, k + 1, a, now);
      forall i | 0 <= i < |s.rows|
        ensures SansPnl(s.rows[i]) == SansPnl(r.rows[i])
      {
        assert SansPnl(s.rows[i]) == SansPnl(s1.rows[i]) == SansPnl(r.rows[i]);
      }
    }
  }

  // Storing settled and priced results changes nothing at all.
  lemma {:induction false} PersistIdles(s: State, ms: seq<MatchResult>, k: nat, a: Account, now: Time)
    requires Timed(ms) && k <= |ms| && SettledTo(s, ms, |ms|, a) && PricedTo(s, ms, |ms|, a)
    ensures PersistFrom(s, ms, k, a, now) == s
    decreases |ms| - k
  {
    hide PersistRow, PersistSug, Carried, Priced;
    if k < |ms| {
      PricedItself(s.rows, ms[k], a, now);
      assert Stored(s, ms[k], a, now) == s;
      PersistIdles(s, ms, k + 1, a, now);
    }
  }

  // The same results stored twice leave what storing them once left, but for the profit on
  // sells; stored three times, exactly what twice left.
  lemma ReplayReachesFixedPoint(s: State, ms: seq<MatchResult>, a: Account, t1: Time, t2: Time, t3: Time)
    requires Timed(ms) && Distinct(ms)
    ensures var once := Persist(s, ms, a, t1);
            var twice := Persist(once, ms, a, t2);
            && SameButPnl(once.rows, twice.rows) && twice.sugs == once.sugs
            && Persist(twice, ms, a, t3) == twice
  {
    hide PersistFrom, SettledTo, PricedTo;
    assert SettledTo(s, ms, 0, a) by { NothingToSettle(s, ms, a); }
    PersistSettles(s, ms, 0, a, t1);
    var once := Persist(s, ms, a, t1);
    NothingToSettle(once, ms, a);
    PersistPrices(once, ms, 0, a, t2);
    PersistIdles(Persist(once, ms, a, t2), ms, 0, a, t3);
  }

  lemma NothingToSettle(s: State, ms: seq<MatchResult>, a: Account)
    requires Timed(ms)
    ensures SettledTo(s, ms, 0, a) && PricedTo(s, ms, 0, a)
  {
  }

  // ---- When twice equals once ------------------------------------------------------------------

  // Storing results again, once they are stored, changes nothing exactly when every sell among
  // them carries the profit the stored rows give. The rows can be asked before the second call.
  lemma ReplayIsIdleIff(s: State, ms: seq<MatchResult>, a: Account, t1: Time, t2: Time)
    requires Timed(ms) && Distinct(ms)
    ensures var once := Persist(s, ms, a, t1);
            Persist(once, ms, a, t2) == once <==> forall j :: 0 <= j < |ms| ==> Priced(once.rows, ms[j], a)
  {
    hide PersistFrom, SettledTo, Priced;
    NothingToSettle(s, ms, a);
    PersistSettles(s, ms, 0, a, t1);
    var once := Persist(s, ms, a, t1);
    NothingToSettle(once, ms, a);
    PersistPrices(once, ms, 0, a, t2);
    if PricedTo(once, ms, |ms|, a) {
      PersistIdles(once, ms, 0, a, t2);
    }
  }

  // The same lot, or none, for a sell of this ticker at this time.
  predicate SameLot(r: Row, q: Row, ticker: Ticker, until: Time) {
    && (IsLot(r, ticker, until) <==> IsLot(q, ticker, until))
    && (IsLot(r, ticker, until) ==> LotOf(r) == LotOf(q))
  }

  // Storing result m neither adds, takes away nor changes a lot that this sell can draw on.
  predicate LeavesLots(rows: seq<Row>, m: MatchResult, a: Account, ticker: Ticker, until: Time) {
    var i := RowFor(rows, m, a);
    if i < |rows| then SameLot(rows[i], WithFill(rows[i], m.act), ticker, until)
    else !IsLot(NewRow(m, a, None, 0), ticker, until)
  }

  // Every result that funds a sell comes before it, or is stored already.
  ghost predicate BuysComeFirst(rows: seq<Row>, ms: seq<MatchResult>, k: nat, a: Account)
    requires Timed(ms)
  {
    forall j, l :: k <= j < l < |ms| && ms[j].act.side == Sell ==>
      LeavesLots(rows, ms[l], a, ms[j].act.ticker, ms[j].act.filledAt.value)
  }

  lemma {:induction false} PriorBuysUpdate(rows: seq<Row>, i: nat, q: Row, ticker: Ticker, until: Time)
    requires i < |rows| && SameLot(rows[i], q, ticker, until)
    ensures PriorBuys(rows[i := q], ticker, until) == PriorBuys(rows, ticker, until)
  {
    var n := |rows| - 1;
    if i == n {
      assert rows[i := q][..n] == rows[..n];
    } else {
      assert rows[i := q][..n] == rows[..n][i := q];
      PriorBuysUpdate(rows[..n], i, q, ticker, until);
    }
  }

  lemma StoredLeavesLots(rows: seq<Row>, m: MatchResult, a: Account, now: Time, ticker: Ticker, until: Time)
    requires m.act.filledAt.Some? && LeavesLots(rows, m, a, ticker, until)
    ensures PriorBuys(PersistRow(rows, m, a, now), ticker, until) == PriorBuys(rows, ticker, until)
  {
    hide RealizedPnl;
    var rows' := PersistRow(rows, m, a, now);
    var i := RowFor(rows, m, a);
    if i < |rows| {
      PriorBuysUpdate(rows, i, rows'[i], ticker, until);
      assert rows' == rows[i := rows'[i]];
    } else {
      assert rows'[..|rows|] == rows;
    }
  }

  lemma LotsLeftLater(rows: seq<Row>, m: MatchResult, m': MatchResult, a: Account, now: Time, ticker: Ticker,
                      until: Time)
    requires m.act.filledAt.Some? && m.act.order != m'.act.order && LeavesLots(rows, m', a, ticker, until)
    ensures LeavesLots(PersistRow(rows, m, a, now), m', a, ticker, until)
  {
    hide PersistRow, IsLot, SameLot;
    var rows' := PersistRow(rows, m, a, now);
    StoredRow(rows, m, a, now);
    if RowFor(rows, m', a) < |rows| {
      OtherRowFor(rows, m, m', a, now);
    } else {
      var p := Records(a, m'.act.order);
      forall j | 0 <= j < |rows'|
        ensures !p(rows'[j])
      {
        assert j < |rows| ==> !p(rows[j]);
        assert j == RowFor(rows, m, a) ==> Records(a, m.act.order)(rows'[j]);
      }
    }
  }

  // The profit a sell was given on storing is still the profit its final rows give.
  lemma {:induction false} StaysPriced(s: State, ms: seq<MatchResult>, k: nat, a: Account, now: Time, m: MatchResult)
    requires Timed(ms) && Distinct(ms) && k <= |ms| && m.act.filledAt.Some?
    requires Carried(s.rows, m, a) && Priced(s.rows, m, a)
    requires forall l :: k <= l < |ms| ==> ms[l].act.order != m.act.order
    requires m.act.side == Sell ==>
               forall l :: k <= l < |ms| ==> LeavesLots(s.rows, ms[l], a, m.act.ticker, m.act.filledAt.value)
    ensures Priced(PersistFrom(s, ms, k, a, now).rows, m, a)
    decreases |ms| - k
  {
    hide PersistRow, PriorBuys, LeavesLots;
    if k < |ms| {
      var s1 := Stored(s, ms[k], a, now);
      StaysCarried(s.rows, ms[k], m, a, now);
      OtherRowFor(s.rows, ms[k], m, a, now);
      if m.act.side == Sell {
        StoredLeavesLots(s.rows, ms[k], a, now, m.act.ticker, m.act.filledAt.value);
        forall l | k + 1 <= l < |ms|
          ensures LeavesLots(s1.rows, ms[l], a, m.act.ticker, m.act.filledAt.value)
        {
          LotsLeftLater(s.rows, ms[k], ms[l], a, now, m.act.ticker, m.act.filledAt.value);
        }
      }
      StaysPriced(s1, ms, k + 1, a, now, m);
    }
  }

  // A sell is priced from rows that include its own stored row.
  lemma PricedOnStoring(rows: seq<Row>, m: MatchResult, a: Account, now: Time)
    requires m.act.filledAt.Some?
    ensures Priced(PersistRow(rows, m, a, now), m, a)
  {
    hide PriorBuys;
    StoredRow(rows, m, a, now);
    var i := RowFor(rows, m, a);
    var rows' := PersistRow(rows, m, a, now);
    if m.act.side == Sell {
      if i < |rows| {
        PriorBuysSame(rows[i := WithFill(rows[i], m.act)], rows', m.act.ticker, m.act.filledAt.value);
      } else {
        NewSellIsNoLot(rows, rows'[i], m.act.ticker, m.act.filledAt.value);
      }
    }
  }

  lemma NewSellIsNoLot(rows: seq<Row>, r: Row, ticker: Ticker, until: Time)
    requires r.side == Sell
    ensures PriorBuys(rows + [r], ticker, until) == PriorBuys(rows, ticker, until)
  {
    assert (rows + [r])[..|rows|] == rows;
  }

  lemma {:induction false} PersistPricesInOrder(s: State, ms: seq<MatchResult>, k: nat, a: Account, now: Time)
    requires Timed(ms) && Distinct(ms) && k <= |ms| && BuysComeFirst(s.rows, ms, k, a)
    ensures forall j :: k <= j < |ms| ==> Priced(PersistFrom(s, ms, k, a, now).rows, ms[j], a)
    decreases |ms| - k
  {
    hide PersistRow, Priced, LeavesLots;
    if k < |ms| {
      var s1 := Stored(s, ms[k], a, now);
      PricedOnStoring(s.rows, ms[k], a, now);
      StoredRow(s.rows, ms[k], a, now);
      forall j, l | k + 1 <= j < l < |ms| && ms[j].act.side == Sell
        ensures LeavesLots(s1.rows, ms[l], a, ms[j].act.ticker, ms[j].act.filledAt.value)
      {
        LotsLeftLater(s.rows, ms[k], ms[l], a, now, ms[j].act.ticker, ms[j].act.filledAt.value);
      }
      PersistPricesInOrder(s1, ms, k + 1, a, now);
      if ms[k].act.side == Sell {
        forall l | k + 1 <= l < |ms|
          ensures LeavesLots(s1.rows, ms[l], a, ms[k].act.ticker, ms[k].act.filledAt.value)
        {
          LotsLeftLater(s.rows, ms[k], ms[l], a, now, ms[k].act.ticker, ms[k].act.filledAt.value);
        }
      }
      StaysPriced(s1, ms, k + 1, a, now, ms[k]);
    }
  }

  // If every result that funds a sell comes before it or is stored already, storing twice is
  // storing once.
  lemma ReplayInOrderIsIdle(s: State, ms: seq<MatchResult>, a: Account, t1: Time, t2: Time)
    requires Timed(ms) && Distinct(ms) && BuysComeFirst(s.rows, ms, 0, a)
    ensures Persist(Persist(s, ms, a, t1), ms, a, t2) == Persist(s, ms, a, t1)
  {
    hide PersistFrom, Priced;
    PersistPricesInOrder(s, ms, 0, a, t1);
    ReplayIsIdleIff(s, ms, a, t1, t2);
  }

  // A fill that is stored already leaves every lot as it is.
  lemma StoredFillsLeaveLots(rows: seq<Row>, m: MatchResult, a: Account, ticker: Ticker, until: Time)
    requires Carried(rows, m, a)
    ensures LeavesLots(rows, m, a, ticker, until)
  {
  }

  // So fills that are all stored already come in order, whatever order they are in, and storing
  // them once more, or twice, is the same.
  lemma StoredFillsComeFirst(s: State, ms: seq<MatchResult>, a: Account, t1: Time, t2: Time)
    requires Timed(ms) && Distinct(ms) && forall j :: 0 <= j < |ms| ==> Carried(s.rows, ms[j], a)
    ensures BuysComeFirst(s.rows, ms, 0, a)
    ensures Persist(Persist(s, ms, a, t1), ms, a, t2) == Persist(s, ms, a, t1)
  {
    hide Carried, LeavesLots, Persist;
    forall j, l | 0 <= j < l < |ms| && ms[j].act.side == Sell
      ensures LeavesLots(s.rows, ms[l], a, ms[j].act.ticker, ms[j].act.filledAt.value)
    {
      StoredFillsLeaveLots(s.rows, ms[l], a, ms[j].act.ticker, ms[j].act.filledAt.value);
    }
    ReplayInOrderIsIdle(s, ms, a, t1, t2);
  }

  // A sell stored before the buy that funds it: stored once it has no profit, stored again
  // it has one.
  lemma ReplayOutOfOrderDiffers(world: Broker.World)
    ensures var sell := Activity(1, None, "X", Sell, 1.0, 3.0, Some(10), ActFilled);
            var buy := Activity(2, None, "X", Buy, 1.0, 2.0, Some(5), ActFilled);
            var ms := [MatchResult(None, sell, Untracked), MatchResult(None, buy, Untracked)];
            var s := State([], [], map[], world);
            && Timed(ms) && Distinct(ms)
            && Persist(Persist(s, ms, 0, 20), ms, 0, 30) != Persist(s, ms, 0, 20)
  {
    var sell := Activity(1, None, "X", Sell, 1.0, 3.0, Some(10), ActFilled);
    var buy := Activity(2, None, "X", Buy, 1.0, 2.0, Some(5), ActFilled);
    var m1, m2 := MatchResult(None, sell, Untracked), MatchResult(None, buy, Untracked);
    var ms := [m1, m2];
    var s := State([], [], map[], world);
    var s1 := Stored(s, m1, 0, 20);
    var once := Stored(s1, m2, 0, 20);
    assert PersistFrom(s, ms, 0, 0, 20) == PersistFrom(s1, ms, 1, 0, 20) == PersistFrom(once, ms, 2, 0, 20) == once;
    assert s1.rows == [NewRow(m1, 0, None, 20)];
    assert once.rows == [NewRow(m1, 0, None, 20), NewRow(m2, 0, None, 20)];
    NothingToSettle(s, ms, 0);
    PersistSettles(s, ms, 0, 0, 20);
    NothingToSettle(once, ms, 0);
    PersistPrices(once, ms, 0, 0, 30);
    var twice := PersistFrom(once, ms, 0, 0, 30);
    PriorBuysSame(once.rows, twice.rows, "X", 10);
    assert once.rows[..1] == s1.rows && s1.rows[..0] == [];
    assert IsLot(once.rows[1], "X", 10);
    assert Priced(twice.rows, m1, 0);
  }
}
