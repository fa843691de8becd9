// Spending caps over a whole pass.
module CapSafety {
  import opened Options
  import opened OrderIds
  import opened Trading
  import opened Broker
  import opened AutoTrade
  import opened Consistency
  import opened PassSafety
  import opened Ledger
  import opened Storage
  import opened Runs

  function Larger(x: real, y: real): real {
    if x < y then y else x
  }

  // What the caps measure: today's spend, this week's spend on a ticker, today's order count.
  function DayTotal(rows: seq<Row>, a: Account, dry: bool, now: Time): real {
    Sum(rows, DaySpend(a, dry, DayStart(now)))
  }

  function TickerTotal(rows: seq<Row>, a: Account, dry: bool, ticker: Ticker, now: Time): real {
    Sum(rows, TickerSpend(a, dry, ticker, WeekStart(now)))
  }

  function OrderTotal(rows: seq<Row>, a: Account, dry: bool, now: Time): nat {
    Count(rows, InDay(a, dry, DayStart(now)))
  }

  // No row lost or re-priced, and every new row within the per-order cap.
  ghost predicate CappedGrowth(rows: seq<Row>, rows': seq<Row>, cap: real) {
    && |rows| <= |rows'|
    && (forall i :: 0 <= i < |rows| ==> Notional(rows'[i]) == Notional(rows[i]))
    && (forall i :: |rows| <= i < |rows'| ==> Notional(rows'[i]) <= cap)
  }

  // The week's spend per ticker and the order count are at most the larger of what they were
  // and their cap.
  ghost predicate WithinCaps(rows: seq<Row>, rows': seq<Row>, a: Account, dry: bool, caps: Caps, now: Time) {
    && CappedGrowth(rows, rows', caps.perOrder)
    && (forall ticker ::
          TickerTotal(rows', a, dry, ticker, now) <= Larger(TickerTotal(rows, a, dry, ticker, now), caps.perTickerWeek))
    && (OrderTotal(rows', a, dry, now) <= OrderTotal(rows, a, dry, now)
       || OrderTotal(rows', a, dry, now) <= caps.dayOrders)
  }

  ghost predicate SameTotals(rows: seq<Row>, rows': seq<Row>, a: Account, dry: bool, now: Time) {
    && |rows| == |rows'| && (forall i :: 0 <= i < |rows| ==> Notional(rows'[i]) == Notional(rows[i]))
    && DayTotal(rows', a, dry, now) == DayTotal(rows, a, dry, now)
    && (forall ticker :: TickerTotal(rows', a, dry, ticker, now) == TickerTotal(rows, a, dry, ticker, now))
    && OrderTotal(rows', a, dry, now) == OrderTotal(rows, a, dry, now)
  }

  // Rows that cost the same everywhere.
  predicate SameSpend(r: Row, q: Row) {
    && r.account == q.account && r.dryRun == q.dryRun && r.createdAt == q.createdAt && r.ticker == q.ticker
    && (r.status == Reported(ActRejected) <==> q.status == Reported(ActRejected))
    && Notional(r) == Notional(q)
  }

  lemma {:induction false} SumSame(rows: seq<Row>, rows': seq<Row>, w: Row -> real)
    requires |rows| == |rows'| && forall i :: 0 <= i < |rows| ==> w(rows[i]) == w(rows'[i])
    ensures Sum(rows, w) == Sum(rows', w)
  {
    if rows != [] {
      var n := |rows| - 1;
      SumSame(rows[..n], rows'[..n], w);
    }
  }

  lemma {:induction false} CountSame(rows: seq<Row>, rows': seq<Row>, p: Row -> bool)
    requires |rows| == |rows'| && forall i :: 0 <= i < |rows| ==> p(rows[i]) == p(rows'[i])
    ensures Count(rows, p) == Count(rows', p)
  {
    if rows != [] {
      var n := |rows| - 1;
      CountSame(rows[..n], rows'[..n], p);
    }
  }

  lemma SameSpendSameTotals(rows: seq<Row>, rows': seq<Row>, a: Account, dry: bool, now: Time)
    requires |rows| == |rows'| && forall i :: 0 <= i < |rows| ==> SameSpend(rows[i], rows'[i])
    ensures SameTotals(rows, rows', a, dry, now)
  {
    assert forall i :: 0 <= i < |rows| ==> SameSpend(rows[i], rows'[i]);
    SumSame(rows, rows', DaySpend(a, dry, DayStart(now)));
    CountSame(rows, rows', InDay(a, dry, DayStart(now)));
    forall ticker
      ensures TickerTotal(rows', a, dry, ticker, now) == TickerTotal(rows, a, dry, ticker, now)
    {
      SumSame(rows, rows', TickerSpend(a, dry, ticker, WeekStart(now)));
    }
  }

  // A row for an order of suggestion n placed now, with d for its draft.
  predicate RowFor(r: Row, a: Account, dry: bool, n: nat, d: Draft, now: Time) {
    && r.account == a && r.dryRun == dry && r.sug == Some(n) && r.ticker == d.ticker && r.createdAt == now
    && r.status != Reported(ActRejected) && Notional(r) == Cost(d)
  }

  // One more row within what the caps check allowed.
  lemma AddWithinCaps(rows: seq<Row>, r: Row, a: Account, dry: bool, n: nat, d: Draft, caps: Caps, now: Time)
    requires CheckCaps(rows, a, dry, d, caps, now) == Go && RowFor(r, a, dry, n, d, now)
    ensures WithinCaps(rows, rows + [r], a, dry, caps, now)
    ensures DayTotal(rows + [r], a, dry, now) == DayTotal(rows, a, dry, now) + Cost(d) <= caps.perDay
  {
    assert DayStart(now) <= now;
  }

  function Renewed(r: Row, now: Time): Row {
    r.(status := AcceptedForRouting, createdAt := now)
  }

  lemma SameNotional(r: Row, now: Time)
    ensures Notional(Renewed(r, now)) == Notional(r)
  {
  }

  // Renewing a row of this week leaves the week's spend as it is.
  lemma RenewWithinCaps(rows: seq<Row>, i: nat, a: Account, d: Draft, caps: Caps, now: Time)
    requires CheckCaps(rows, a, false, d, caps, now) == Go && i < |rows|
    requires rows[i].status == BrokerCancelled && rows[i].createdAt >= WeekStart(now)
    ensures WithinCaps(rows, rows[i := Renewed(rows[i], now)], a, false, caps, now)
  {
    hide Sum, Count, Notional, WeekStart;
    assert WeekStart(now) <= now by { TheWeekHasStarted(now); }
    SameNotional(rows[i], now);
    CountUpdate(rows, i, Renewed(rows[i], now), InDay(a, false, DayStart(now)));
    forall ticker
      ensures TickerTotal(rows[i := Renewed(rows[i], now)], a, false, ticker, now)
                == TickerTotal(rows, a, false, ticker, now)
    {
      SumUpdate(rows, i, Renewed(rows[i], now), TickerSpend(a, false, ticker, WeekStart(now)));
    }
  }

  lemma TheWeekHasStarted(now: Time)
    ensures WeekStart(now) <= DayStart(now) <= now
  {
  }

  // The day's spend counts a renewed row from now on, unless it was counted already.
  lemma RenewDayTotal(rows: seq<Row>, i: nat, a: Account, now: Time)
    requires i < |rows| && rows[i].status == BrokerCancelled && rows[i].account == a && !rows[i].dryRun
    ensures DayTotal(rows[i := Renewed(rows[i], now)], a, false, now) == DayTotal(rows, a, false, now)
              + if rows[i].createdAt >= DayStart(now) then 0.0 else Notional(rows[i])
  {
    hide Sum, Notional;
    assert DayStart(now) <= now;
    SameNotional(rows[i], now);
    SumUpdate(rows, i, Renewed(rows[i], now), DaySpend(a, false, DayStart(now)));
  }

  lemma SameThenWithin(r1: seq<Row>, r2: seq<Row>, r3: seq<Row>, a: Account, dry: bool, caps: Caps, now: Time)
    requires SameTotals(r1, r2, a, dry, now) && (WithinCaps(r2, r3, a, dry, caps, now) || r3 == r2)
    ensures WithinCaps(r1, r3, a, dry, caps, now)
  {
  }

  lemma WithinTransitive(r1: seq<Row>, r2: seq<Row>, r3: seq<Row>, a: Account, dry: bool, caps: Caps, now: Time)
    requires WithinCaps(r1, r2, a, dry, caps, now) && WithinCaps(r2, r3, a, dry, caps, now)
    ensures WithinCaps(r1, r3, a, dry, caps, now)
  {
  }

  // ---- What a turn does to the rows -------------------------------------------------------------

  // After the guards the totals are as before, and going ahead means the caps check passed on
  // exactly these rows.
  lemma GuardsKeepTotals(s: State, a: Account, mode: Mode, n: nat, caps: Caps, now: Time)
    requires Inv(s) && Known(s.sugs, n) && Sug(s, n).account == a
    ensures var (s1, v) := Guards(s, a, mode, n, Some(caps), now);
            && SameTotals(s.rows, s1.rows, a, mode == DryRun, now)
            && (forall i :: 0 <= i < |s.rows| ==> SameSpend(s.rows[i], s1.rows[i]))
            && (v == Go ==> CheckCaps(s1.rows, a, mode == DryRun, Sug(s, n).order, caps, now) == Go)
  {
    hide Inv, CheckCaps, CheckStale;
    GuardsKeep(s, a, mode, n, Some(caps), now);
    var s1 := Guards(s, a, mode, n, Some(caps), now).0;
    forall i | 0 <= i < |s.rows|
      ensures SameSpend(s.rows[i], s1.rows[i])
    {
    }
    SameSpendSameTotals(s.rows, s1.rows, a, mode == DryRun, now);
  }

  // The row a live turn takes back, if it takes one back.
  function TakesBack(s: State, a: Account, n: nat, caps: Caps, now: Time): (r: Option<nat>)
    requires Known(s.sugs, n)
    ensures r.Some? ==> r.value < |s.rows|
  {
    var (s1, v) := Guards(s, a, Live, n, Some(caps), now);
    if v != Go then None
    else
      var i := Newest(s1.rows, Readoptable(n), |s1.rows|);
      if i == |s1.rows| then None
      else
        var conf := GetOrder(s1.world, a, s1.rows[i].orderId.value).1;
        if conf.Some? && IsLive(conf.value.status) then Some(i) else None
  }

  lemma SubmissionAddsARow(s: State, a: Account, n: nat, now: Time)
    requires Known(s.sugs, n)
    ensures var t := SubmitFresh(s, a, n, now);
            t.s.rows == s.rows || (|t.s.rows| == |s.rows| + 1 && t.s.rows == s.rows + [t.s.rows[|s.rows|]]
                                   && RowFor(t.s.rows[|s.rows|], a, false, n, Sug(s, n).order, now))
  {
    hide SubmitOrder, GetOrder, Kill, Print;
  }

  // Past the guards a turn renews the row it takes back, or adds one row, or changes none.
  lemma TurnRows(s: State, a: Account, mode: Mode, n: nat, caps: Caps, now: Time)
    requires Known(s.sugs, n) && mode != Off
    ensures var (s1, v) := Guards(s, a, mode, n, Some(caps), now);
            var t := Process(s, a, mode, n, Some(caps), now);
            var back := if mode == Live then TakesBack(s, a, n, caps, now) else None;
            if back.Some? then
              && v == Go && t.Turn? && !t.stop && Readoptable(n)(s1.rows[back.value])
              && t.s.rows == s1.rows[back.value := Renewed(s1.rows[back.value], now)]
              && var conf := GetOrder(s1.world, a, s1.rows[back.value].orderId.value).1;
              && conf.Some? && IsLive(conf.value.status)
            else
              || t.s.rows == s1.rows
              || (v == Go && |t.s.rows| == |s1.rows| + 1 && t.s.rows == s1.rows + [t.s.rows[|s1.rows|]]
                  && RowFor(t.s.rows[|s1.rows|], a, mode == DryRun, n, Sug(s, n).order, now))
  {
    hide Guards, SubmitFresh, Print;
    var (s1, v) := Guards(s, a, mode, n, Some(caps), now);
    if v == Go && mode == Live {
      SubmissionAddsARow(s1, a, n, now);
      var i := Newest(s1.rows, Readoptable(n), |s1.rows|);
      if i < |s1.rows| {
        SubmissionAddsARow(s1.(world := GetOrder(s1.world, a, s1.rows[i].orderId.value).0), a, n, now);
      }
    }
  }

  // The row taken back is one of this account's and of this week: an open order's row is no
  // older than its suggestion's week, and only suggestions of the current week have turns.
  lemma TakenBackThisWeek(s: State, a: Account, n: nat, caps: Caps, now: Time)
    requires Inv(s) && Due(s, a, n, now) && TakesBack(s, a, n, caps, now).Some?
    ensures var r := Guards(s, a, Live, n, Some(caps), now).0.rows[TakesBack(s, a, n, caps, now).value];
            && r.account == a && !r.dryRun && r.status == BrokerCancelled && r.createdAt >= WeekStart(now)
  {
    hide Guards, GetOrder, Inv, TakesBack, Process;
    TurnRows(s, a, Live, n, caps, now);
    GuardsKeep(s, a, Live, n, Some(caps), now);
    var s1, i := Guards(s, a, Live, n, Some(caps), now).0, TakesBack(s, a, n, caps, now).value;
    GetOrderKeeps(s1, a, s1.rows[i].orderId.value);
    var w1 := GetOrder(s1.world, a, s1.rows[i].orderId.value).0;
    OpenRowThisWeek(s1.(world := w1), i, a, n, now);
  }

  lemma OpenRowThisWeek(s: State, i: nat, a: Account, n: nat, now: Time)
    requires Inv(s) && Due(s, a, n, now) && i < |s.rows| && Readoptable(n)(s.rows[i])
    requires s.rows[i].orderId.value in s.world.book.orders
             && IsLive(s.world.book.orders[s.rows[i].orderId.value].status)
    ensures s.rows[i].account == a && s.rows[i].createdAt >= WeekStart(now)
  {
    assert OwnerOK(s.rows[i], s.sugs) && OpenRowOK(s.rows[i], s.sugs, s.world.book, s.world.unrecorded);
  }

  lemma TurnWithinCaps(s: State, a: Account, mode: Mode, n: nat, caps: Caps, now: Time)
    requires Inv(s) && Due(s, a, n, now) && mode != Off
    ensures WithinCaps(s.rows, Process(s, a, mode, n, Some(caps), now).s.rows, a, mode == DryRun, caps, now)
  {
    hide Inv, Guards, Process, TakesBack, WithinCaps, SameTotals, CheckCaps, RowFor, GetOrder;
    var dry, d := mode == DryRun, Sug(s, n).order;
    GuardsKeepTotals(s, a, mode, n, caps, now);
    TurnRows(s, a, mode, n, caps, now);
    var s1 := Guards(s, a, mode, n, Some(caps), now).0;
    var rows := Process(s, a, mode, n, Some(caps), now).s.rows;
    if mode == Live && TakesBack(s, a, n, caps, now).Some? {
      TakenBackThisWeek(s, a, n, caps, now);
      RenewWithinCaps(s1.rows, TakesBack(s, a, n, caps, now).value, a, d, caps, now);
    } else if rows != s1.rows {
      AddWithinCaps(s1.rows, rows[|s1.rows|], a, dry, n, d, caps, now);
    }
    SameThenWithin(s.rows, s1.rows, rows, a, dry, caps, now);
  }

  // ---- The day's spend ------------------------------------------------------------------------------

  // If the turn takes a row back, the row is counted today already, or its own worth, not its
  // suggestion's, still fits.
  predicate FitsTheDay(s: State, a: Account, mode: Mode, n: nat, caps: Caps, now: Time)
    requires Known(s.sugs, n)
  {
    mode == Live && TakesBack(s, a, n, caps, now).Some? ==>
      var r := s.rows[TakesBack(s, a, n, caps, now).value];
      r.createdAt >= DayStart(now) || DayTotal(s.rows, a, false, now) + Notional(r) <= caps.perDay
  }

  // Quantities and limits are positive, so nothing is worth less than nothing.
  ghost predicate WorthSomething(s: State) {
    && (forall n: nat :: Known(s.sugs, n) ==> 0.0 <= Cost(Sug(s, n).order))
    && (forall i :: 0 <= i < |s.rows| ==> 0.0 <= Notional(s.rows[i]))
  }

  // One turn: the day's spend stays within the larger of itself and the cap if the row taken
  // back fits, and ends above it if it does not.
  lemma TurnMeetsDayCapIff(s: State, a: Account, mode: Mode, n: nat, caps: Caps, now: Time)
    requires Inv(s) && Due(s, a, n, now) && mode != Off
    ensures var day := DayTotal(s.rows, a, mode == DryRun, now);
            var t := Process(s, a, mode, n, Some(caps), now);
            var day' := DayTotal(t.s.rows, a, mode == DryRun, now);
            && (FitsTheDay(s, a, mode, n, caps, now) ==> day' <= Larger(day, caps.perDay))
            && (WorthSomething(s) ==>
                  && WorthSomething(t.s) && day <= day'
                  && (day' <= Larger(day, caps.perDay) ==> FitsTheDay(s, a, mode, n, caps, now)))
  {
    hide Inv, Guards, Process, TakesBack, GetOrder, Sum, Notional, Count;
    var dry, d := mode == DryRun, Sug(s, n).order;
    GuardsKeepTotals(s, a, mode, n, caps, now);
    TurnRows(s, a, mode, n, caps, now);
    var s1 := Guards(s, a, mode, n, Some(caps), now).0;
    var rows := Process(s, a, mode, n, Some(caps), now).s.rows;
    if mode == Live && TakesBack(s, a, n, caps, now).Some? {
      TakenBackThisWeek(s, a, n, caps, now);
      var i := TakesBack(s, a, n, caps, now).value;
      assert SameSpend(s.rows[i], s1.rows[i]);
      RenewDayTotal(s1.rows, i, a, now);
      SameNotional(s1.rows[i], now);
    } else if rows != s1.rows {
      AddWithinCaps(s1.rows, rows[|s1.rows|], a, dry, n, d, caps, now);
    }
  }

  // ---- The pass ---------------------------------------------------------------------------------------

  lemma {:induction false} BeforeWithinCaps(s: State, a: Account, mode: Mode, ids: seq<nat>, j: nat, caps: Caps,
                                            now: Time)
    requires Inv(s) && Ours(s, a, ids, now) && j <= |ids| && mode != Off
    ensures var b := Before(s, a, mode, ids, j, Some(caps), now);
            b.Some? ==> WithinCaps(s.rows, b.value.rows, a, mode == DryRun, caps, now)
  {
    hide Inv, Process, WithinCaps;
    var dry := mode == DryRun;
    if j == 0 {
      SameThenWithin(s.rows, s.rows, s.rows, a, dry, caps, now);
    } else {
      BeforeWithinCaps(s, a, mode, ids, j - 1, caps, now);
      BeforeKeeps(s, a, mode, ids, j - 1, Some(caps), now);
      var b := Before(s, a, mode, ids, j - 1, Some(caps), now);
      if b.Some? {
        TurnWithinCaps(b.value, a, mode, ids[j - 1], caps, now);
        WithinTransitive(s.rows, b.value.rows, Process(b.value, a, mode, ids[j - 1], Some(caps), now).s.rows, a, dry,
            caps, now);
      }
    }
  }

  // At every turn of a pass and at its end (within one day), on the side the pass works on:
  // this week's spend on every ticker and today's order count are each at most the larger of
  // their value at the start and their cap, and every new row is within the per-order cap.
  lemma PassWithinCaps(s: State, a: Account, caps: Caps, now: Time)
    requires Inv(s)
    ensures WithinCaps(s.rows, Pass(s, a, Some(caps), now).s.rows, a, ModeOf(s.modes, a) == DryRun, caps, now)
    ensures ModeOf(s.modes, a) != Off ==>
              forall j :: 0 <= j <= |Fetch(s, a, now)| ==>
                var b := Before(s, a, ModeOf(s.modes, a), Fetch(s, a, now), j, Some(caps), now);
                b.Some? ==> WithinCaps(s.rows, b.value.rows, a, ModeOf(s.modes, a) == DryRun, caps, now)
  {
    hide Inv, PassFrom, WithinCaps, Before, Process;
    var mode, ids := ModeOf(s.modes, a), Fetch(s, a, now);
    SameThenWithin(s.rows, s.rows, s.rows, a, mode == DryRun, caps, now);
    if mode != Off {
      forall j | 0 <= j <= |ids|
        ensures var b := Before(s, a, mode, ids, j, Some(caps), now);
                b.Some? ==> WithinCaps(s.rows, b.value.rows, a, mode == DryRun, caps, now)
      {
        BeforeWithinCaps(s, a, mode, ids, j, caps, now);
      }
      var k := PassEndsAt(s, a, mode, ids, Some(caps), now);
      BeforeWithinCaps(s, a, mode, ids, k, caps, now);
      BeforeKeeps(s, a, mode, ids, k, Some(caps), now);
      var b := Before(s, a, mode, ids, k, Some(caps), now).value;
      if k < |ids| {
        TurnWithinCaps(b, a, mode, ids[k], caps, now);
        WithinTransitive(s.rows, b.rows, Process(b, a, mode, ids[k], Some(caps), now).s.rows, a, mode == DryRun, caps,
            now);
      }
    }
  }

  // The turn of the j-th suggestion, if the pass gets to it, fits the day.
  predicate FitsAt(s: State, a: Account, mode: Mode, ids: seq<nat>, j: nat, caps: Caps, now: Time)
    requires AllKnown(s, ids) && j < |ids|
  {
    var b := Before(s, a, mode, ids, j, Some(caps), now);
    b.Some? ==> FitsTheDay(b.value, a, mode, ids[j], caps, now)
  }

  lemma {:induction false} BeforeMeetsDayCapIff(s: State, a: Account, mode: Mode, ids: seq<nat>, j: nat, caps: Caps,
                                                now: Time)
    requires Inv(s) && Ours(s, a, ids, now) && j <= |ids| && mode != Off
    requires Before(s, a, mode, ids, j, Some(caps), now).Some?
    ensures var day := DayTotal(s.rows, a, mode == DryRun, now);
            var b := Before(s, a, mode, ids, j, Some(caps), now).value;
            var day' := DayTotal(b.rows, a, mode == DryRun, now);
            && ((forall i :: 0 <= i < j ==> FitsAt(s, a, mode, ids, i, caps, now)) ==> day' <= Larger(day, caps.perDay))
            && (WorthSomething(s) ==>
                  && WorthSomething(b) && day <= day'
                  && (day' <= Larger(day, caps.perDay) ==>
                        forall i :: 0 <= i < j ==> FitsAt(s, a, mode, ids, i, caps, now)))
  {
    hide Inv, Process, FitsTheDay, WorthSomething, DayTotal;
    if j > 0 {
      BeforeMeetsDayCapIff(s, a, mode, ids, j - 1, caps, now);
      BeforeKeeps(s, a, mode, ids, j - 1, Some(caps), now);
      assert (forall i :: 0 <= i < j ==> FitsAt(s, a, mode, ids, i, caps, now))
        ==> FitsAt(s, a, mode, ids, j - 1, caps, now);
      TurnMeetsDayCapIff(Before(s, a, mode, ids, j - 1, Some(caps), now).value, a, mode, ids[j - 1], caps, now);
    }
  }

  // The day's spend at the end of a pass is at most the larger of its value at the start and
  // the day cap exactly when every turn that takes an order back fits the day. (A pass an
  // exception escapes from leaves the spend as it was.)
  lemma PassMeetsDayCapIff(s: State, a: Account, caps: Caps, now: Time)
    requires Inv(s) && WorthSomething(s) && ModeOf(s.modes, a) != Off && !Pass(s, a, Some(caps), now).escaped
    ensures var mode, ids := ModeOf(s.modes, a), Fetch(s, a, now);
            DayTotal(Pass(s, a, Some(caps), now).s.rows, a, mode == DryRun, now)
              <= Larger(DayTotal(s.rows, a, mode == DryRun, now), caps.perDay)
            <==> forall j :: 0 <= j < |ids| ==> FitsAt(s, a, mode, ids, j, caps, now)
  {
    hide Inv, PassFrom, Process, FitsTheDay, WorthSomething, DayTotal, Before;
    var mode, ids := ModeOf(s.modes, a), Fetch(s, a, now);
    if forall j :: 0 <= j < |ids| ==> FitsAt(s, a, mode, ids, j, caps, now) {
      FittingPassMeetsDayCap(s, a, caps, now);
    }
    var k := PassEndsAt(s, a, mode, ids, Some(caps), now);
    BeforeMeetsDayCapIff(s, a, mode, ids, k, caps, now);
    BeforeKeeps(s, a, mode, ids, k, Some(caps), now);
    if k < |ids| {
      TurnMeetsDayCapIff(Before(s, a, mode, ids, k, Some(caps), now).value, a, mode, ids[k], caps, now);
    }
  }

  lemma FittingPassMeetsDayCap(s: State, a: Account, caps: Caps, now: Time)
    requires Inv(s) && ModeOf(s.modes, a) != Off
    requires forall j :: 0 <= j < |Fetch(s, a, now)| ==>
               FitsAt(s, a, ModeOf(s.modes, a), Fetch(s, a, now), j, caps, now)
    ensures var dry := ModeOf(s.modes, a) == DryRun;
            DayTotal(Pass(s, a, Some(caps), now).s.rows, a, dry, now) <= Larger(DayTotal(s.rows, a, dry, now),
                caps.perDay)
  {
    hide Inv, PassFrom, Process, FitsTheDay, WorthSomething, DayTotal, Before;
    var mode, ids := ModeOf(s.modes, a), Fetch(s, a, now);
    var k := PassEndsAt(s, a, mode, ids, Some(caps), now);
    BeforeMeetsDayCapIff(s, a, mode, ids, k, caps, now);
    BeforeKeeps(s, a, mode, ids, k, Some(caps), now);
    if k < |ids| {
      assert FitsAt(s, a, mode, ids, k, caps, now);
      TurnMeetsDayCapIff(Before(s, a, mode, ids, k, Some(caps), now).value, a, mode, ids[k], caps, now);
    }
  }

  // ---- When every row taken back fits -------------------------------------------------------------

  // A placed row is worth no more than its suggestion asks for now. A suggestion that was
  // reset and re-sized after its order was placed breaks this.
  ghost predicate Carries(r: Row, sugs: seq<Suggestion>) {
    && !r.dryRun && r.sug.Some? && Known(sugs, r.sug.value)
    && (r.status == AcceptedForRouting || r.status == BrokerCancelled) ==>
      Notional(r) <= Cost(sugs[r.sug.value - 1].order)
  }

  ghost predicate AllCarry(s: State) {
    forall i :: 0 <= i < |s.rows| ==> Carries(s.rows[i], s.sugs)
  }

  lemma CarryingFits(s: State, a: Account, mode: Mode, n: nat, caps: Caps, now: Time)
    requires Inv(s) && Due(s, a, n, now) && mode != Off && AllCarry(s)
    ensures FitsTheDay(s, a, mode, n, caps, now) && AllCarry(Process(s, a, mode, n, Some(caps), now).s)
  {
    hide Inv, Guards, Process, TakesBack, GetOrder, Sum, Count, Notional;
    GuardsKeepTotals(s, a, mode, n, caps, now);
    GuardsKeep(s, a, mode, n, Some(caps), now);
    TurnRows(s, a, mode, n, caps, now);
    var s1 := Guards(s, a, mode, n, Some(caps), now).0;
    var t := Process(s, a, mode, n, Some(caps), now);
    forall i | 0 <= i < |s.rows|
      ensures Carries(s1.rows[i], s.sugs)
    {
      assert Carries(s.rows[i], s.sugs) && SameSpend(s.rows[i], s1.rows[i]);
    }
    if mode == Live && TakesBack(s, a, n, caps, now).Some? {
      var i := TakesBack(s, a, n, caps, now).value;
      TakenBackThisWeek(s, a, n, caps, now);
      SameNotional(s1.rows[i], now);
      assert SameSpend(s.rows[i], s1.rows[i]) && Carries(s1.rows[i], s.sugs);
    }
  }

  lemma {:induction false} CarryingFitsBefore(s: State, a: Account, mode: Mode, ids: seq<nat>, j: nat, caps: Caps,
                                              now: Time)
    requires Inv(s) && Ours(s, a, ids, now) && j <= |ids| && mode != Off && AllCarry(s)
    ensures var b := Before(s, a, mode, ids, j, Some(caps), now); b.Some? ==> AllCarry(b.value)
    ensures j < |ids| ==> FitsAt(s, a, mode, ids, j, caps, now)
  {
    hide Inv, Process, FitsTheDay, AllCarry;
    if j > 0 {
      CarryingFitsBefore(s, a, mode, ids, j - 1, caps, now);
      BeforeKeeps(s, a, mode, ids, j - 1, Some(caps), now);
      var b := Before(s, a, mode, ids, j - 1, Some(caps), now);
      if b.Some? {
        CarryingFits(b.value, a, mode, ids[j - 1], caps, now);
      }
    }
    BeforeKeeps(s, a, mode, ids, j, Some(caps), now);
    var b := Before(s, a, mode, ids, j, Some(caps), now);
    if b.Some? && j < |ids| {
      CarryingFits(b.value, a, mode, ids[j], caps, now);
    }
  }

  // So if every placed row carries, the day's spend stays within the larger of its start and
  // the cap, at the end of the pass and at every turn.
  lemma PassWithinDayCap(s: State, a: Account, caps: Caps, now: Time)
    requires Inv(s) && AllCarry(s)
    ensures var mode, ids := ModeOf(s.modes, a), Fetch(s, a, now);
            var most := Larger(DayTotal(s.rows, a, mode == DryRun, now), caps.perDay);
            && DayTotal(Pass(s, a, Some(caps), now).s.rows, a, mode == DryRun, now) <= most
            && (mode != Off ==> forall j :: 0 <= j <= |ids| ==>
                  var b := Before(s, a, mode, ids, j, Some(caps), now);
                  b.Some? ==> DayTotal(b.value.rows, a, mode == DryRun, now) <= most)
  {
    hide Inv, PassFrom, Process, FitsAt, FitsTheDay, WorthSomething, DayTotal, Before, AllCarry;
    var mode, ids := ModeOf(s.modes, a), Fetch(s, a, now);
    if mode != Off {
      forall j | 0 <= j < |ids|
        ensures FitsAt(s, a, mode, ids, j, caps, now)
      {
        CarryingFitsBefore(s, a, mode, ids, j, caps, now);
      }
      forall j | 0 <= j <= |ids| && Before(s, a, mode, ids, j, Some(caps), now).Some?
        ensures DayTotal(Before(s, a, mode, ids, j, Some(caps), now).value.rows, a, mode == DryRun, now)
                  <= Larger(DayTotal(s.rows, a, mode == DryRun, now), caps.perDay)
      {
        BeforeMeetsDayCapIff(s, a, mode, ids, j, caps, now);
      }
      FittingPassMeetsDayCap(s, a, caps, now);
    }
  }

  // Without AllCarry the day cap can be passed by re-adoption. It is met exactly when the
  // re-adopted row is counted already or its own worth, not its suggestion's, still fits.
  lemma ReadoptionMeetsDayCapIff(s: State, i: nat, a: Account, order: Draft, caps: Caps, now: Time)
    requires CheckCaps(s.rows, a, false, order, caps, now) == Go
    requires 0.0 <= Cost(order) && i < |s.rows|
    requires !s.rows[i].dryRun && s.rows[i].account == a && s.rows[i].status == BrokerCancelled
    ensures DayTotal(Readopt(s, i, now).rows, a, false, now) <= caps.perDay <==>
              s.rows[i].createdAt >= DayStart(now) || DayTotal(s.rows, a, false, now) + Notional(s.rows[i]) <=
                  caps.perDay
  {
    assert DayTotal(s.rows, a, false, now) <= caps.perDay;
    assert Readopt(s, i, now).rows == s.rows[i := Renewed(s.rows[i], now)];
    hide CheckCaps, Readopt, Sum, Count, Notional;
    SameNotional(s.rows[i], now);
    SumUpdate(s.rows, i, Renewed(s.rows[i], now), DaySpend(a, false, DayStart(now)));
  }

  // The same for the week's cap on the ticker, with the week in place of the day. A pass takes
  // back only rows of this week (TakenBackThisWeek).
  lemma ReadoptionMeetsTickerCapIff(s: State, i: nat, a: Account, order: Draft, caps: Caps, now: Time)
    requires CheckCaps(s.rows, a, false, order, caps, now) == Go
    requires 0.0 <= Cost(order) && i < |s.rows| && s.rows[i].ticker == order.ticker
    requires !s.rows[i].dryRun && s.rows[i].account == a && s.rows[i].status == BrokerCancelled
    ensures TickerTotal(Readopt(s, i, now).rows, a, false, order.ticker, now) <= caps.perTickerWeek <==>
              || s.rows[i].createdAt >= WeekStart(now)
              || TickerTotal(s.rows, a, false, order.ticker, now) + Notional(s.rows[i]) <= caps.perTickerWeek
  {
    assert TickerTotal(s.rows, a, false, order.ticker, now) <= caps.perTickerWeek;
    assert WeekStart(now) <= now;
    assert Readopt(s, i, now).rows == s.rows[i := Renewed(s.rows[i], now)];
    hide CheckCaps, Readopt, Sum, Count, Notional, WeekStart;
    SameNotional(s.rows[i], now);
    SumUpdate(s.rows, i, Renewed(s.rows[i], now), TickerSpend(a, false, order.ticker, WeekStart(now)));
  }

  // ---- A pass over the day cap -----------------------------------------------------------------

  // Day 4 is a Monday.
  const MONDAY := 4 * DAY
  const TUESDAY := 5 * DAY
  const DAY_CAP_50 := Caps(50.0, 50.0, 200.0, 5)
  const RESIZED := Draft("X", Sell, 1.0, 10.0, "", None, None, 1.0, Regular)

  const ORIGINAL := RESIZED.(qty := 10.0)
  const WIDE := Caps(200.0, 200.0, 200.0, 5)

  // The order for 100 as the broker knows it, and its row.
  function Ordered(st: OrderStatus, acknowledged: bool): Book {
    Book(map[0 := BrokerOrder(0, "X", Sell, 10.0, Some(10.0), Some(Print(1, 0)), Some(Origin(1, 0)), st,
                              acknowledged)], 1)
  }

  function OrderRow(st: RowStatus): Row {
    Row(0, Some(1), "X", Sell, Some(10.0), Some(10.0), 0.0, None, None, Some(0), Some(Print(1, 0)), false,
        st, None, AutoTradePlaced, MONDAY, None)
  }

  function Asked(st: SugStatus, acted: Option<Time>, d: Draft): Suggestion {
    Suggestion(0, 4, d, st, None, 0, acted, None)
  }

  // The broker's side of the story: it takes the order, shows it, is slow to cancel it, and
  // still has it open on Tuesday.
  function Story(): seq<Tick> {
    [Tick(Book(map[], 0), Fine, None, 0.0, {}), Tick(Ordered(New, false), Fine, None, 0.0, {}),
     Tick(Ordered(PendingCancel, false), Fine, None, 0.0, {}), Tick(Ordered(PendingCancel, true), Fine, None, 0.0, {})]
  }

  function Start(): State {
    State([Asked(Accepted, Some(0), ORIGINAL)], [], map[0 := Live], World(Book(map[], 0), Story(), [], {}))
  }

  // On Monday the order is placed for 100, the week is reset, and the suggestion is stored
  // anew for 10 and accepted.
  function Monday(): seq<Step> {
    [Passes(0, Some(WIDE), MONDAY), ResetsWeek({0}, {0}, None, MONDAY),
     Stores(0, 4, [RESIZED], map[], 0, MONDAY), Decides(1, true, MONDAY)]
  }

  function Placed(): State {
    State([Asked(Accepted, Some(0), ORIGINAL)], [OrderRow(AcceptedForRouting)], map[0 := Live],
          World(Ordered(New, false), Story()[2..], [SubmitCall(0, Print(1, 0)), GetOrderCall(0, 0)], {}))
  }

  function Reset(): State {
    State([Asked(Pending, None, ORIGINAL)], [OrderRow(BrokerCancelled)], map[0 := Live],
          World(Ordered(PendingCancel, true), Story()[3..],
                [SubmitCall(0, Print(1, 0)), GetOrderCall(0, 0), CancelCall(0, 0)], {}))
  }

  function StillOpen(): State {
    Reset().(sugs := [Asked(Accepted, Some(MONDAY), RESIZED)])
  }

  lemma MondaysSubmission()
    ensures SubmitFresh(Start(), 0, 1, MONDAY) == Turn(Placed(), Outcome(1, true, false, Some(0), None), false)
  {
    hide Print;
    var s, g := Start(), Origin(1, 0);
    var (w1, sent) := SubmitOrder(s.world, 0, ORIGINAL, g);
    assert HolderFrom(Book(map[], 0), 0, Print(1, 0), 0) == None;
    assert sent == Confirmed(0) && w1.book == Ordered(New, false).(nextId := 1);
    assert w1 == World(Ordered(New, false), Story()[1..], [SubmitCall(0, Print(1, 0))], {0});
    var (w2, back) := GetOrder(w1, 0, 0);
    assert w2.book == Ordered(New, false) && w2.ticks == Story()[2..];
    assert w2.calls == [SubmitCall(0, Print(1, 0)), GetOrderCall(0, 0)];
    hide SubmitOrder, GetOrder;
    assert {0 as nat} - {0} == {};
  }

  lemma MondaysGuards()
    ensures Guards(Start(), 0, Live, 1, Some(WIDE), MONDAY) == (Start(), Go)
  {
    var s := Start();
    assert CheckCaps([], 0, false, ORIGINAL, WIDE, MONDAY) == Go;
    assert ClearStaleFrom(s, 0, 0, "X", 1) == (s, Go);
    GuardsLetASellThrough(s, 1, WIDE, MONDAY);
  }

  // A pass over one suggestion whose turn does not stop it.
  lemma OneTurn(s: State, a: Account, n: nat, caps: Option<Caps>, now: Time)
    requires Known(s.sugs, n) && ModeOf(s.modes, a) != Off && Fetch(s, a, now) == [n]
    requires var t := Process(s, a, ModeOf(s.modes, a), n, caps, now); t.Turn? && !t.stop
    ensures var t := Process(s, a, ModeOf(s.modes, a), n, caps, now);
            Pass(s, a, caps, now) == PassResult(t.s, [t.outcome], false)
  {
    hide Process, Fetch;
    var mode := ModeOf(s.modes, a);
    var t := Process(s, a, mode, n, caps, now);
    assert PassFrom(t.s, a, mode, [n], 1, caps, now, [t.outcome]) == PassResult(t.s, [t.outcome], false);
    assert [] + [t.outcome] == [t.outcome];
  }

  lemma MondaysPass()
    ensures Pass(Start(), 0, Some(WIDE), MONDAY).s == Placed()
  {
    var s := Start();
    assert CurrentWeek(MONDAY) == 4 && ModeOf(s.modes, 0) == Live;
    assert Fetch(s, 0, MONDAY, 2) == [];
    assert Fetch(s, 0, MONDAY) == [1];
    MondaysGuards();
    MondaysSubmission();
    hide Guards, SubmitFresh, Fetch;
    assert Newest([], Readoptable(1), 0) == 0;
    OneTurn(s, 0, 1, Some(WIDE), MONDAY);
  }

  lemma MondaysReset()
    ensures ResetWeek(Placed(), {0}, {0}, None, MONDAY) == Reset()
  {
    hide Print;
    var s := Placed();
    assert s.rows[..0] == [];
    assert NextMonday(MONDAY / DAY) == 4;
    assert ResetTarget(s, 1, {0}, None, 4);
    var s1 := TryCancel(s, 0, 0);
    assert s1 == Reset().(sugs := s.sugs);
    assert CancelOrdersOf(s, 0, 1, 0) == CancelOrdersOf(s1, 1, 1, 0) == s1;
    assert ResetFrom(Reset(), 2, {0}, {0}, None, 4) == Reset();
  }

  lemma MondayIsLawful()
    ensures Initial(Start()) && Lawful(Start(), Monday()) && Run(Start(), Monday()) == StillOpen()
    ensures Inv(StillOpen())
  {
    TheStartIsInitial();
    MondaysSteps();
    hide *;
    FourSteps(Start(), Placed(), Reset(), Stored(), Monday());
    RunKeeps(Start(), Monday());
  }

  lemma TheStartIsInitial()
    ensures Initial(Start()) && Inv(Start())
  {
  }

  function Stored(): State {
    Reset().(sugs := [Asked(Pending, None, RESIZED)])
  }

  lemma MondaysSteps()
    ensures var m := Monday();
            && |m| == 4
            && Enabled(Start(), m[0]) && Enabled(Placed(), m[1]) && Enabled(Reset(), m[2]) && Enabled(Stored(), m[3])
            && Apply(Start(), m[0]) == Placed() && Apply(Placed(), m[1]) == Reset()
            && Apply(Reset(), m[2]) == Stored() && Apply(Stored(), m[3]) == StillOpen()
  {
    MondaysPass();
    MondaysReset();
    MondaysStore();
    hide Pass, ResetWeek, Finalize, Print;
  }

  lemma FourSteps(s: State, s1: State, s2: State, s3: State, m: seq<Step>)
    requires |m| == 4 && Enabled(s, m[0]) && Enabled(s1, m[1]) && Enabled(s2, m[2]) && Enabled(s3, m[3])
    requires Apply(s, m[0]) == s1 && Apply(s1, m[1]) == s2 && Apply(s2, m[2]) == s3
    ensures Lawful(s, m) && Run(s, m) == Apply(s3, m[3])
  {
    hide Apply, Enabled;
    assert m[1..][1..] == m[2..] && m[2..][1..] == m[3..] && m[3..][1..] == [];
    assert Run(s3, m[3..]) == Apply(s3, m[3]) && Lawful(s3, m[3..]);
    assert Run(s2, m[2..]) == Apply(s3, m[3]) && Lawful(s2, m[2..]);
    assert Run(s1, m[1..]) == Apply(s3, m[3]) && Lawful(s1, m[1..]);
  }

  lemma MondaysStore()
    ensures Finalize(Reset().sugs, 0, 4, [RESIZED], map[], 0, MONDAY).0 == [Asked(Pending, None, RESIZED)]
  {
    var sugs := Reset().sugs;
    assert Slot(sugs, 0, 4, RESIZED) == 1;
    var stored := [Asked(Pending, None, RESIZED)];
    assert Store(sugs, 0, 4, RESIZED, 0, MONDAY) == stored;
    assert [] + [1 as nat] == [1];
    assert StoreFrom(stored, 0, 4, [RESIZED], 1, 0, MONDAY, [1]) == (stored, [1]);
    assert StoreAll(sugs, 0, 4, [RESIZED], 0, MONDAY) == (stored, [1]);
    assert Annotate(stored, [1], map[], 1) == stored;
    assert Annotate(stored, [1], map[], 0) == stored;
  }

  lemma ResizedPassesTheCheck()
    ensures CheckCaps(StillOpen().rows, 0, false, RESIZED, DAY_CAP_50, TUESDAY) == Go
    ensures DayTotal(StillOpen().rows, 0, false, TUESDAY) == 0.0
  {
    hide Print;
    var rows := StillOpen().rows;
    assert rows[..0] == [];
    assert Notional(rows[0]) == 100.0 && Cost(RESIZED) == 10.0;
    assert Sum(rows, DaySpend(0, false, DayStart(TUESDAY))) == 0.0;
    assert Sum(rows, TickerSpend(0, false, "X", WeekStart(TUESDAY))) == 100.0;
    assert Count(rows, InDay(0, false, DayStart(TUESDAY))) == 0;
  }

  lemma GuardsLetASellThrough(s: State, n: nat, caps: Caps, now: Time)
    requires Known(s.sugs, n) && Sug(s, n).order.side == Sell
    requires Count(s.rows, Replays(n, 0, false)) == 0 && CheckStale(s, 0, Live, n) == (s, Go)
    requires CheckCaps(s.rows, 0, false, Sug(s, n).order, caps, now) == Go
    ensures Guards(s, 0, Live, n, Some(caps), now) == (s, Go)
  {
    hide CheckCaps, CheckStale, Count;
  }

  lemma TheOrderIsTakenBack()
    ensures var s := StillOpen();
            var t := Process(s, 0, Live, 1, Some(DAY_CAP_50), TUESDAY);
            t.Turn? && !t.stop && t.s.rows == [Renewed(s.rows[0], TUESDAY)]
  {
    hide Print;
    var s := StillOpen();
    assert s.rows[..0] == [];
    assert ClearStaleFrom(s, 1, 0, "X", 1) == (s, Go);
    assert CheckStale(s, 0, Live, 1) == (s, Go);
    assert Count(s.rows, Replays(1, 0, false)) == 0;
    ResizedPassesTheCheck();
    hide CheckCaps, CheckStale, Count, Sum, Guards;
    GuardsLetASellThrough(s, 1, DAY_CAP_50, TUESDAY);
    TuesdaysPlacement();
    hide PlaceLive;
  }

  lemma TuesdaysPlacement()
    ensures var s := StillOpen();
            var t := PlaceLive(s, 0, 1, TUESDAY);
            t.Turn? && !t.stop && t.s.rows == [Renewed(s.rows[0], TUESDAY)]
  {
    hide Print;
    var s := StillOpen();
    assert Newest(s.rows, Readoptable(1), 0) == 1;
    assert Newest(s.rows, Readoptable(1), 1) == 0;
    hide Newest, SubmitFresh;
    assert s.world.ticks == [Tick(Ordered(PendingCancel, true), Fine, None, 0.0, {})];
  }

  // After that lawful Monday, Tuesday's live pass, with a day cap of 50 and nothing spent
  // today, takes the order back and has spent 100.
  lemma ReadoptionCanPassDayCap()
    ensures Initial(Start()) && Lawful(Start(), Monday()) && Run(Start(), Monday()) == StillOpen()
    ensures Inv(StillOpen()) && DayTotal(StillOpen().rows, 0, false, TUESDAY) == 0.0
    ensures var r := Pass(StillOpen(), 0, Some(DAY_CAP_50), TUESDAY);
            !r.escaped && DAY_CAP_50.perDay == 50.0 && DayTotal(r.s.rows, 0, false, TUESDAY) == 100.0
  {
    MondayIsLawful();
    hide Inv, Initial, Lawful, Run, Print;
    ResizedPassesTheCheck();
    TheOrderIsTakenBack();
    ItIsFetched();
    var s := StillOpen();
    assert ModeOf(s.modes, 0) == Live;
    ItCosts100();
    hide Process, Fetch, DayTotal;
    OneTurn(s, 0, 1, Some(DAY_CAP_50), TUESDAY);
  }

  lemma ItCosts100()
    ensures DayTotal([Renewed(OrderRow(BrokerCancelled), TUESDAY)], 0, false, TUESDAY) == 100.0
  {
    hide Print;
    var row := Renewed(OrderRow(BrokerCancelled), TUESDAY);
    assert [row][..0] == [] && Notional(row) == 100.0;
    assert Sum([row], DaySpend(0, false, DayStart(TUESDAY))) == 100.0;
  }

  lemma ItIsFetched()
    ensures Fetch(StillOpen(), 0, TUESDAY) == [1]
  {
    hide Print;
    assert StillOpen().rows[..0] == [];
    assert CurrentWeek(TUESDAY) == 4;
    assert Fetch(StillOpen(), 0, TUESDAY, 2) == [];
  }
}
