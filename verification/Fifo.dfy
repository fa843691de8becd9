// What the lot-by-lot cost of a sell means.
module Fifo {
  import opened Options
  import opened Trading
  import opened Reconciliation

  predicate Sorted(lots: seq<Lot>) {
    forall i, j :: 0 <= i < j < |lots| ==> lots[i].at <= lots[j].at
  }

  lemma {:induction false} InsertAdds(lots: seq<Lot>, l: Lot)
    ensures multiset(Insert(lots, l)) == multiset(lots) + multiset{l}
  {
    if lots != [] && lots[|lots| - 1].at > l.at {
      var n := |lots| - 1;
      InsertAdds(lots[..n], l);
      assert lots == lots[..n] + [lots[n]];
    }
  }

  lemma InsertMember(lots: seq<Lot>, l: Lot, x: Lot)
    requires x in Insert(lots, l)
    ensures x == l || x in lots
  {
    InsertAdds(lots, l);
    assert x in multiset(Insert(lots, l));
  }

  lemma {:induction false} InsertSorts(lots: seq<Lot>, l: Lot)
    requires Sorted(lots)
    ensures Sorted(Insert(lots, l))
  {
    if lots != [] && lots[|lots| - 1].at > l.at {
      var n := |lots| - 1;
      InsertSorts(lots[..n], l);
      var rest := Insert(lots[..n], l);
      forall i | 0 <= i < |rest|
        ensures rest[i].at <= lots[n].at
      {
        InsertMember(lots[..n], l, rest[i]);
      }
    }
  }

  // A real buy of the share, filled by then.
  predicate BoughtBy(r: Row, ticker: Ticker, until: Time) {
    && !r.dryRun && r.side == Buy && r.ticker == ticker
    && r.filledQty > 0.0 && r.filledAt.Some? && r.filledAt.value <= until
  }

  // The lots of the rows that are prior buys, in row order. A fill without a price costs nothing.
  function Lots(rows: seq<Row>, ticker: Ticker, until: Time): seq<Lot> {
    if rows == [] then []
    else
      var n := |rows| - 1;
      Lots(rows[..n], ticker, until)
      + if BoughtBy(rows[n], ticker, until)
        then [Lot(rows[n].filledQty, match rows[n].filledPrice case Some(x) => x case None => 0.0,
                  rows[n].filledAt.value)]
        else []
  }

  // The prior buys are exactly the qualifying rows, oldest first.
  lemma {:induction false} PriorBuysAreSorted(rows: seq<Row>, ticker: Ticker, until: Time)
    ensures Sorted(PriorBuys(rows, ticker, until))
    ensures multiset(PriorBuys(rows, ticker, until)) == multiset(Lots(rows, ticker, until))
    ensures forall l :: l in PriorBuys(rows, ticker, until) ==> l.qty > 0.0 && l.at <= until
  {
    if rows != [] {
      var n := |rows| - 1;
      PriorBuysAreSorted(rows[..n], ticker, until);
      if IsLot(rows[n], ticker, until) {
        var rest := PriorBuys(rows[..n], ticker, until);
        InsertSorts(rest, LotOf(rows[n]));
        InsertAdds(rest, LotOf(rows[n]));
        forall l | l in PriorBuys(rows, ticker, until)
          ensures l.qty > 0.0 && l.at <= until
        {
          InsertMember(rest, LotOf(rows[n]), l);
        }
      }
    }
  }

  // ---- The cost as a length on the line of shares ----------------------------------------

  function Shares(lots: seq<Lot>): real {
    if lots == [] then 0.0 else Shares(lots[..|lots| - 1]) + lots[|lots| - 1].qty
  }

  function Min(x: real, y: real): real {
    if x < y then x else y
  }

  // Lay the lots end to end from 0: lot k covers the stretch from the shares before it to the
  // shares up to it. Selling q shares takes the stretch below q.
  function TakenFrom(lots: seq<Lot>, k: nat, q: real): real
    requires k < |lots|
  {
    var before := Shares(lots[..k]);
    if q <= before then 0.0 else Min(q, before + lots[k].qty) - before
  }

  function LineCost(lots: seq<Lot>, q: real): real {
    if lots == [] then 0.0
    else
      var n := |lots| - 1;
      LineCost(lots[..n], q) + Charge(TakenFrom(lots, n, q), lots[n].price)
  }

  predicate Positive(lots: seq<Lot>) {
    forall i :: 0 <= i < |lots| ==> lots[i].qty > 0.0
  }

  // Dropping the first lot shifts the line.
  lemma {:induction false} SharesFront(lots: seq<Lot>)
    requires lots != [] && Positive(lots)
    ensures Shares(lots) == lots[0].qty + Shares(lots[1..])
    ensures Shares(lots) >= lots[0].qty && Shares(lots[1..]) >= 0.0
  {
    var n := |lots| - 1;
    if n > 0 {
      SharesFront(lots[..n]);
      assert lots[..n][1..] == lots[1..][..n - 1];
    }
  }

  // What the first lot gives to a sell of q shares.
  function Applied(lots: seq<Lot>, q: real): real
    requires lots != []
  {
    if q <= 0.0 then 0.0 else Min(q, lots[0].qty)
  }

  lemma TakenShifts(lots: seq<Lot>, q: real)
    requires |lots| > 1 && Positive(lots)
    ensures TakenFrom(lots, |lots| - 1, q) == TakenFrom(lots[1..], |lots| - 2, q - Applied(lots, q))
  {
    var n := |lots| - 1;
    assert lots[..n][1..] == lots[1..][..n - 1];
    SharesFront(lots[..n]);
  }

  lemma {:induction false} LineCostFront(lots: seq<Lot>, q: real)
    requires lots != [] && Positive(lots)
    ensures LineCost(lots, q) == Charge(Applied(lots, q), lots[0].price) + LineCost(lots[1..], q - Applied(lots, q))
  {
    hide Charge;
    var n := |lots| - 1;
    if n == 0 {
      assert lots[..0] == [] && lots[1..] == [];
      assert Shares(lots[..0]) == 0.0;
    } else {
      hide TakenFrom;
      LineCostFront(lots[..n], q);
      assert lots[..n][1..] == lots[1..][..n - 1];
      TakenShifts(lots, q);
    }
  }

  // The loop's cost is the cost of the stretch [0, q) of the line, for all real quantities;
  // shares beyond the last lot cost nothing.
  lemma {:induction false} FifoIsLineCost(lots: seq<Lot>, q: real)
    requires Positive(lots)
    ensures FifoCost(lots, q) == LineCost(lots, q)
  {
    hide Charge, TakenFrom;
    if lots == [] {
    } else if q <= 0.0 {
      NothingCostsNothing(lots, q);
    } else {
      LineCostFront(lots, q);
      FifoIsLineCost(lots[1..], q - Applied(lots, q));
    }
  }

  lemma {:induction false} NothingCostsNothing(lots: seq<Lot>, q: real)
    requires Positive(lots) && q <= 0.0
    ensures LineCost(lots, q) == 0.0 && Shares(lots) >= 0.0
  {
    if lots != [] {
      NothingCostsNothing(lots[..|lots| - 1], q);
    }
  }

  // ---- Share by share ------------------------------------------------------------------------

  function Repeat(price: real, n: nat): seq<real> {
    if n == 0 then [] else [price] + Repeat(price, n - 1)
  }

  function WholeShares(l: Lot): nat {
    if l.qty <= 0.0 then 0 else l.qty.Floor
  }

  // Whole lots flattened into unit shares, oldest first.
  function Flatten(lots: seq<Lot>): seq<real> {
    if lots == [] then [] else Repeat(lots[0].price, WholeShares(lots[0])) + Flatten(lots[1..])
  }

  // The prices of the first k shares, or of all of them.
  function CostOfFirst(shares: seq<real>, k: nat): real {
    if shares == [] || k == 0 then 0.0 else shares[0] + CostOfFirst(shares[1..], k - 1)
  }

  lemma ChargeOneMore(qty: real, price: real)
    ensures Charge(qty, price) == price + Charge(qty - 1.0, price)
    ensures Charge(0.0, price) == 0.0
  {
  }

  lemma {:induction false} CostOfRepeat(price: real, n: nat, rest: seq<real>, k: nat)
    ensures CostOfFirst(Repeat(price, n) + rest, k) ==
              if k <= n then Charge(k as real, price) else Charge(n as real, price) + CostOfFirst(rest, k - n)
  {
    hide Charge;
    ChargeOneMore(k as real, price);
    ChargeOneMore(n as real, price);
    if n == 0 {
      assert Repeat(price, n) + rest == rest;
    } else if k > 0 {
      assert (Repeat(price, n) + rest)[1..] == Repeat(price, n - 1) + rest;
      CostOfRepeat(price, n - 1, rest, k - 1);
    }
  }

  predicate Whole(lots: seq<Lot>) {
    forall i :: 0 <= i < |lots| ==> lots[i].qty == lots[i].qty.Floor as real
  }

  // For whole lots, the loop's cost of k shares is the sum of the first k unit shares.
  lemma {:induction false} FifoIsShareByShare(lots: seq<Lot>, k: nat)
    requires Positive(lots) && Whole(lots)
    ensures FifoCost(lots, k as real) == CostOfFirst(Flatten(lots), k)
  {
    hide Charge;
    if lots != [] && k > 0 {
      var n := WholeShares(lots[0]);
      assert lots[0].qty == n as real;
      CostOfRepeat(lots[0].price, n, Flatten(lots[1..]), k);
      if k > n {
        assert k as real - lots[0].qty == (k - n) as real;
        FifoIsShareByShare(lots[1..], k - n);
      } else {
        assert FifoCost(lots[1..], 0.0) == 0.0;
      }
    }
  }

  // Recording a sell does not use up lots: the next sell is costed as if it were the first.
  lemma SellsDoNotConsume(rows: seq<Row>, r: Row, sell: Activity)
    requires r.side == Sell && sell.filledAt.Some?
    ensures RealizedPnl(rows + [r], sell) == RealizedPnl(rows, sell)
  {
    assert (rows + [r])[..|rows|] == rows;
  }

  // Realised profit is proceeds minus the cost of the oldest shares sold.
  lemma PnlIsProceedsMinusOldest(rows: seq<Row>, sell: Activity)
    requires sell.filledAt.Some?
    ensures var lots := PriorBuys(rows, sell.ticker, sell.filledAt.value);
            && (RealizedPnl(rows, sell) == None <==> Lots(rows, sell.ticker, sell.filledAt.value) == [])
            && (RealizedPnl(rows, sell).Some? ==>
                  RealizedPnl(rows, sell).value == Charge(sell.qty, sell.price) - LineCost(lots, sell.qty))
  {
    hide Charge, LineCost, FifoCost;
    var lots := PriorBuys(rows, sell.ticker, sell.filledAt.value);
    PriorBuysAreSorted(rows, sell.ticker, sell.filledAt.value);
    forall i | 0 <= i < |lots|
      ensures lots[i].qty > 0.0
    {
      assert lots[i] in lots;
    }
    FifoIsLineCost(lots, sell.qty);
    assert |lots| == |multiset(lots)|;
    assert |Lots(rows, sell.ticker, sell.filledAt.value)| == |multiset(Lots(rows, sell.ticker, sell.filledAt.value))|;
  }
}
