// What the guards of a turn let through and refuse, and what a placement writes, said over the
// stored fields.
module GuardFacts {
  import opened Options
  import opened OrderIds
  import opened Trading
  import opened Broker
  import opened AutoTrade
  import opened Rollback
  import opened LedgerFacts

  // ---- The rows the guards look at ----------------------------------------------------------

  // Some row of the suggestion, on the side the pass works on, that was not cancelled.
  predicate HasRun(rows: seq<Row>, n: nat, a: Account, dry: bool) {
    exists i :: 0 <= i < |rows| && rows[i].sug == Some(n) && rows[i].account == a && rows[i].dryRun == dry
                && rows[i].status != BrokerCancelled
  }

  // Some other suggestion's order claims the share.
  predicate IsClaimed(rows: seq<Row>, a: Account, ticker: Ticker, n: nat) {
    exists i :: 0 <= i < |rows| && !rows[i].dryRun && rows[i].account == a && rows[i].ticker == ticker
                && rows[i].status == AcceptedForRouting && rows[i].sug.Some? && rows[i].sug.value != n
  }

  // The account really sold the share at a loss in the last thirty days.
  predicate SoldAtALoss(rows: seq<Row>, a: Account, ticker: Ticker, now: Time) {
    exists i :: 0 <= i < |rows| && !rows[i].dryRun && rows[i].account == a && rows[i].ticker == ticker
                && rows[i].side == Sell && rows[i].pnl.Some? && rows[i].pnl.value < 0.0
                && rows[i].filledAt.Some? && rows[i].filledAt.value + 30 * DAY >= now
  }

  // Placed since then on that side, and not rejected.
  predicate Placed(r: Row, a: Account, dry: bool, since: Time) {
    r.account == a && r.dryRun == dry && since <= r.createdAt && r.status != Reported(ActRejected)
  }

  // What was placed since then is worth, of one share or of all.
  function Spent(rows: seq<Row>, a: Account, dry: bool, ticker: Option<Ticker>, since: Time): real {
    if rows == [] then 0.0
    else
      var r := rows[|rows| - 1];
      Spent(rows[..|rows| - 1], a, dry, ticker, since)
      + if Placed(r, a, dry, since) && (ticker.Some? ==> r.ticker == ticker.value)
           && r.submittedQty.Some? && r.limit.Some?
        then r.submittedQty.value * r.limit.value else 0.0
  }

  function HowMany(rows: seq<Row>, a: Account, dry: bool, since: Time): nat {
    if rows == [] then 0
    else HowMany(rows[..|rows| - 1], a, dry, since) + if Placed(rows[|rows| - 1], a, dry, since) then 1 else 0
  }

  lemma {:induction false} SumsAreSpent(rows: seq<Row>, a: Account, dry: bool, ticker: Ticker, since: Time)
    ensures Sum(rows, DaySpend(a, dry, since)) == Spent(rows, a, dry, None, since)
    ensures Sum(rows, TickerSpend(a, dry, ticker, since)) == Spent(rows, a, dry, Some(ticker), since)
    ensures Count(rows, InDay(a, dry, since)) == HowMany(rows, a, dry, since)
  {
    if rows != [] {
      SumsAreSpent(rows[..|rows| - 1], a, dry, ticker, since);
    }
  }

  lemma CountsAreThere(rows: seq<Row>, n: nat, a: Account, dry: bool, ticker: Ticker, now: Time)
    ensures Count(rows, Replays(n, a, dry)) > 0 <==> HasRun(rows, n, a, dry)
    ensures Count(rows, Blocks(a, ticker, n)) > 0 <==> IsClaimed(rows, a, ticker, n)
    ensures Count(rows, LossSell(a, ticker, now - 30 * DAY)) > 0 <==> SoldAtALoss(rows, a, ticker, now)
  {
    CountZero(rows, Replays(n, a, dry));
    CountZero(rows, Blocks(a, ticker, n));
    CountZero(rows, LossSell(a, ticker, now - 30 * DAY));
    hide Count;
  }

  // ---- The guards -----------------------------------------------------------------------------

  // What the reading of the buying power said, if that was the last call made since w and it
  // returned.
  function Told(w: World, calls: seq<Call>, a: Account): Option<real> {
    if |w.calls| < |calls| && calls[|calls| - 1] == AccountCall(a) then
      var k := |calls| - 1 - |w.calls|;
      if k < |w.ticks| && w.ticks[k].fault == Fine then Some(w.ticks[k].power) else None
    else None
  }

  predicate WithinAllCaps(rows: seq<Row>, a: Account, dry: bool, d: Draft, caps: Caps, now: Time) {
    && d.qty * d.limit <= caps.perOrder
    && Spent(rows, a, dry, None, DayStart(now)) + d.qty * d.limit <= caps.perDay
    && Spent(rows, a, dry, Some(d.ticker), WeekStart(now)) + d.qty * d.limit <= caps.perTickerWeek
    && HowMany(rows, a, dry, DayStart(now)) < caps.dayOrders
  }

  // The caps are checked in this order, and the first one exceeded is the reason given.
  lemma CapsAreChecked(rows: seq<Row>, a: Account, dry: bool, d: Draft, caps: Caps, now: Time)
    ensures var v := CheckCaps(rows, a, dry, d, caps, now);
            var cost := d.qty * d.limit;
            && (v == Go <==> WithinAllCaps(rows, a, dry, d, caps, now))
            && (v == Skip(PerOrderCap) <==> cost > caps.perOrder)
            && (v == Skip(PerDayCap) ==> Spent(rows, a, dry, None, DayStart(now)) + cost > caps.perDay)
            && (v == Skip(PerTickerCap) ==>
                  Spent(rows, a, dry, Some(d.ticker), WeekStart(now)) + cost > caps.perTickerWeek)
            && (v == Skip(OrderCountCap) ==> HowMany(rows, a, dry, DayStart(now)) >= caps.dayOrders)
            && v in {Go, Skip(PerOrderCap), Skip(PerDayCap), Skip(PerTickerCap), Skip(OrderCountCap)}
  {
    SumsAreSpent(rows, a, dry, d.ticker, DayStart(now));
    SumsAreSpent(rows, a, dry, d.ticker, WeekStart(now));
    hide Sum, Count, Spent, HowMany;
  }

  lemma CashIsAsked(s: State, a: Account, d: Draft)
    ensures var (s1, v) := CheckCash(s, a, d);
            var told := Told(s.world, s1.world.calls, a);
            && Used(s.world, s1.world)
            && (d.side == Sell ==> v == Go && s1 == s)
            && (v == Go && d.side == Buy ==> told.Some? && told.value >= d.qty * d.limit)
            && (v == Skip(NoCash) ==> d.side == Buy && told.Some? && told.value < d.qty * d.limit)
            && v in {Go, Skip(NoCash), Escapes}
  {
    NothingAsked(s.world);
    OneCall(s.world, AccountCall(a));
  }

  lemma ToldSince(w: World, w1: World, calls: seq<Call>, a: Account)
    requires Used(w, w1) && Told(w1, calls, a).Some?
    ensures Told(w, calls, a) == Told(w1, calls, a)
  {
  }

  // Row r claims the account's order for the share on behalf of another suggestion.
  predicate OthersClaim(r: Row, a: Account, ticker: Ticker, n: nat) {
    !r.dryRun && r.account == a && r.ticker == ticker && r.status == AcceptedForRouting
    && r.sug.Some? && r.sug.value != n
  }

  // The stale check, row by row: it may mark claims of others cancelled and does nothing else
  // to the rows; when it lets the suggestion through there are none left.
  lemma {:induction false} OnlyClaimsAreCleared(s: State, i: nat, a: Account, ticker: Ticker, n: nat)
    requires i <= |s.rows|
    ensures var (s1, v) := ClearStaleFrom(s, i, a, ticker, n);
            && (forall j :: 0 <= j < |s.rows| ==>
                  || s1.rows[j] == s.rows[j]
                  || (i <= j && OthersClaim(s.rows[j], a, ticker, n)
                      && s1.rows[j] == s.rows[j].(status := BrokerCancelled)))
            && (v == Go ==> forall j :: i <= j < |s.rows| ==> !OthersClaim(s1.rows[j], a, ticker, n))
            && (v != Go ==> v == Escapes || (v == Skip(StaleUnknown) && ReadingFailed(s, s1, a, ticker, n)))
    decreases |s.rows| - i
  {
    hide GetOrder, CancelOrder, ReadingFailed;
    if i < |s.rows| {
      var r := s.rows[i];
      assert Blocks(a, ticker, n)(r) <==> OthersClaim(r, a, ticker, n);
      if OthersClaim(r, a, ticker, n) {
        var (s1, v) := ClearStale(s, i, a);
        if v == Go {
          OnlyClaimsAreCleared(s1, i + 1, a, ticker, n);
          FailedThere(s, s1, ClearStaleFrom(s1, i + 1, a, ticker, n).0, i, a, ticker, n);
        } else if r.orderId.Some? {
          FailedHere(s, i, a, ticker, n);
        }
      } else {
        OnlyClaimsAreCleared(s, i + 1, a, ticker, n);
      }
    }
  }

  // The last call was the reading of an order that a claim of another suggestion names.
  predicate ReadingFailed(s: State, s1: State, a: Account, ticker: Ticker, n: nat) {
    exists i :: 0 <= i < |s.rows| && OthersClaim(s.rows[i], a, ticker, n) && s.rows[i].orderId.Some?
                && s1.world.calls != [] && s1.world.calls[|s1.world.calls| - 1] == GetOrderCall(a,
                    s.rows[i].orderId.value)
  }

  lemma FailedHere(s: State, i: nat, a: Account, ticker: Ticker, n: nat)
    requires i < |s.rows| && OthersClaim(s.rows[i], a, ticker, n) && s.rows[i].orderId.Some?
    ensures ClearStale(s, i, a).1 == Skip(StaleUnknown) ==> ReadingFailed(s, ClearStale(s, i, a).0, a, ticker, n)
  {
    hide CancelOrder;
  }

  lemma FailedThere(s: State, s1: State, s2: State, i: nat, a: Account, ticker: Ticker, n: nat)
    requires i < |s.rows| && (s1.rows == s.rows || s1.rows == s.rows[i := MarkCancelled(s.rows[i])])
    ensures ReadingFailed(s1, s2, a, ticker, n) ==> ReadingFailed(s, s2, a, ticker, n)
  {
  }

  lemma ClearedIsUnclaimed(s: State, a: Account, mode: Mode, n: nat)
    requires Known(s.sugs, n)
    ensures var (s1, v) := CheckStale(s, a, mode, n);
            var ticker := s.sugs[n - 1].order.ticker;
            && (v == Go ==> !IsClaimed(s1.rows, a, ticker, n))
            && (v == Skip(BlockedInDryRun) ==> mode != Live && IsClaimed(s.rows, a, ticker, n))
            && (v == Skip(StaleUnknown) ==> mode == Live && ReadingFailed(s, s1, a, ticker, n))
            && v in {Go, Skip(BlockedInDryRun), Skip(StaleUnknown), Escapes}
  {
    hide ReadingFailed, ClearStaleFrom;
    var ticker := s.sugs[n - 1].order.ticker;
    OnlyClaimsAreCleared(s, 0, a, ticker, n);
    CountsAreThere(s.rows, n, a, false, ticker, 0);
  }

  // The guards one after the other.
  lemma GuardByGuard(s: State, a: Account, mode: Mode, n: nat, caps: Option<Caps>, now: Time)
    requires Known(s.sugs, n)
    ensures var d, dry := s.sugs[n - 1].order, mode == DryRun;
            var (s1, v1) := CheckStale(s, a, mode, n);
            Guards(s, a, mode, n, caps, now) ==
              if HasRun(s.rows, n, a, dry) then (s, Skip(AlreadyExecuted))
              else if v1 != Go then (s1, v1)
              else if d.side == Buy && SoldAtALoss(s1.rows, a, d.ticker, now) then (s1, Skip(WashSale))
              else if caps == None then (s1, Skip(NoCaps))
              else if CheckCaps(s1.rows, a, dry, d, caps.value, now) != Go then
                (s1, CheckCaps(s1.rows, a, dry, d, caps.value, now))
              else CheckCash(s1, a, d)
  {
    hide CheckStale, CheckCaps, CheckCash, Count, HasRun, SoldAtALoss, IsClaimed;
    var d := s.sugs[n - 1].order;
    CountsAreThere(s.rows, n, a, mode == DryRun, d.ticker, now);
    CountsAreThere(CheckStale(s, a, mode, n).0.rows, n, a, mode == DryRun, d.ticker, now);
  }

  // A suggestion is let through only if it has not run, no other suggestion's order claims its
  // share, the account has not sold the share at a loss in thirty days (for a buy), the order
  // is within all four caps on the rows as they then are, and (for a buy) the broker was asked
  // for the buying power last and named at least the order's worth.
  lemma WhatIsLetThrough(s: State, a: Account, mode: Mode, n: nat, caps: Option<Caps>, now: Time)
    requires Known(s.sugs, n)
    ensures var (s1, v) := Guards(s, a, mode, n, caps, now);
            var d := s.sugs[n - 1].order;
            v == Go ==>
              && !HasRun(s.rows, n, a, mode == DryRun)
              && !IsClaimed(s1.rows, a, d.ticker, n)
              && (d.side == Buy ==> !SoldAtALoss(s1.rows, a, d.ticker, now))
              && caps.Some? && WithinAllCaps(s1.rows, a, mode == DryRun, d, caps.value, now)
              && (d.side == Buy ==>
                    && Told(s.world, s1.world.calls, a).Some?
                    && Told(s.world, s1.world.calls, a).value >= d.qty * d.limit)
  {
    hide Guards, CheckStale, CheckCaps, CheckCash, WithinAllCaps, Told, Used, SomeAskRaises, HasRun, IsClaimed,
        SoldAtALoss, ReadingFailed;
    GuardByGuard(s, a, mode, n, caps, now);
    ClearedIsUnclaimed(s, a, mode, n);
    CheckStaleEscapesIff(s, a, mode, n);
    var d, s1 := s.sugs[n - 1].order, CheckStale(s, a, mode, n).0;
    if caps.Some? {
      CapsAreChecked(s1.rows, a, mode == DryRun, d, caps.value, now);
    }
    CashIsAsked(s1, a, d);
    if Told(s1.world, CheckCash(s1, a, d).0.world.calls, a).Some? {
      ToldSince(s.world, s1.world, CheckCash(s1, a, d).0.world.calls, a);
    }
  }

  // And every refusal has its cause. When an exception escapes says Rollback.GuardsEscapeIff.
  lemma WhatIsRefused(s: State, a: Account, mode: Mode, n: nat, caps: Option<Caps>, now: Time)
    requires Known(s.sugs, n)
    ensures var (s1, v) := Guards(s, a, mode, n, caps, now);
            var d, dry := s.sugs[n - 1].order, mode == DryRun;
            && (v == Skip(AlreadyExecuted) <==> HasRun(s.rows, n, a, dry))
            && (v == Skip(BlockedInDryRun) ==> mode != Live && IsClaimed(s.rows, a, d.ticker, n))
            && (v == Skip(StaleUnknown) ==> mode == Live && ReadingFailed(s, s1, a, d.ticker, n))
            && (v == Skip(WashSale) ==> d.side == Buy && SoldAtALoss(s1.rows, a, d.ticker, now))
            && (v == Skip(NoCaps) ==> caps == None)
            && (v == Skip(PerOrderCap) ==> caps.Some? && d.qty * d.limit > caps.value.perOrder)
            && (v == Skip(PerDayCap) ==>
                  caps.Some? && Spent(s1.rows, a, dry, None, DayStart(now)) + d.qty * d.limit > caps.value.perDay)
            && (v == Skip(PerTickerCap) ==>
                  && caps.Some?
                  && Spent(s1.rows, a, dry, Some(d.ticker), WeekStart(now)) + d.qty * d.limit
                     > caps.value.perTickerWeek)
            && (v == Skip(OrderCountCap) ==>
                  caps.Some? && HowMany(s1.rows, a, dry, DayStart(now)) >= caps.value.dayOrders)
            && (v == Skip(NoCash) ==>
                  && d.side == Buy && Told(s.world, s1.world.calls, a).Some?
                  && Told(s.world, s1.world.calls, a).value < d.qty * d.limit)
            && v != Skip(BrokerValidation) && v != Skip(BrokerError)
            && v != Skip(ReadbackMismatch) && v != Skip(ReadbackFailed)
  {
    hide Guards, CheckStale, CheckCaps, CheckCash, WithinAllCaps, Told, Used, SomeAskRaises, HasRun, IsClaimed,
        SoldAtALoss, ReadingFailed, Spent, HowMany;
    GuardByGuard(s, a, mode, n, caps, now);
    ClearedIsUnclaimed(s, a, mode, n);
    CheckStaleEscapesIff(s, a, mode, n);
    var d, s1 := s.sugs[n - 1].order, CheckStale(s, a, mode, n).0;
    if caps.Some? {
      CapsAreChecked(s1.rows, a, mode == DryRun, d, caps.value, now);
    }
    CashIsAsked(s1, a, d);
    if Told(s1.world, CheckCash(s1, a, d).0.world.calls, a).Some? {
      ToldSince(s.world, s1.world, CheckCash(s1, a, d).0.world.calls, a);
    }
  }

  // The guards come in this order, so a refusal also means that all the earlier ones passed.
  function Rank(reason: Reason): nat {
    match reason
    case AlreadyExecuted => 0
    case BlockedInDryRun => 1
    case StaleUnknown => 1
    case WashSale => 2
    case NoCaps => 3
    case PerOrderCap => 4
    case PerDayCap => 5
    case PerTickerCap => 6
    case OrderCountCap => 7
    case _ => 8
  }

  // The guards of a rank below k have nothing against the order.
  predicate PassedBelow(k: nat, rows: seq<Row>, now: Time, d: Draft, a: Account, n: nat, dry: bool,
                        caps: Option<Caps>) {
    && (k > 1 ==> !IsClaimed(rows, a, d.ticker, n))
    && (k > 2 && d.side == Buy ==> !SoldAtALoss(rows, a, d.ticker, now))
    && (k > 3 ==> caps.Some?)
    && (k > 4 ==> d.qty * d.limit <= caps.value.perOrder)
    && (k > 5 ==> Spent(rows, a, dry, None, DayStart(now)) + d.qty * d.limit <= caps.value.perDay)
    && (k > 6 ==>
          Spent(rows, a, dry, Some(d.ticker), WeekStart(now)) + d.qty * d.limit <= caps.value.perTickerWeek)
    && (k > 7 ==> HowMany(rows, a, dry, DayStart(now)) < caps.value.dayOrders)
  }

  lemma CapsComeInOrder(rows: seq<Row>, a: Account, dry: bool, d: Draft, caps: Caps, now: Time)
    ensures var v := CheckCaps(rows, a, dry, d, caps, now);
            var cost := d.qty * d.limit;
            && (v.Skip? && Rank(v.reason) > 4 ==> cost <= caps.perOrder)
            && (v.Skip? && Rank(v.reason) > 5 ==> Spent(rows, a, dry, None, DayStart(now)) + cost <= caps.perDay)
            && (v.Skip? && Rank(v.reason) > 6 ==>
                  Spent(rows, a, dry, Some(d.ticker), WeekStart(now)) + cost <= caps.perTickerWeek)
  {
    SumsAreSpent(rows, a, dry, d.ticker, DayStart(now));
    SumsAreSpent(rows, a, dry, d.ticker, WeekStart(now));
    hide Sum, Count, Spent, HowMany;
  }

  lemma EarlierGuardsPassed(s: State, a: Account, mode: Mode, n: nat, caps: Option<Caps>, now: Time)
    requires Known(s.sugs, n) && Guards(s, a, mode, n, caps, now).1.Skip?
    ensures var (s1, v) := Guards(s, a, mode, n, caps, now);
            var d, dry := s.sugs[n - 1].order, mode == DryRun;
            && (Rank(v.reason) > 0 ==> !HasRun(s.rows, n, a, dry))
            && PassedBelow(Rank(v.reason), s1.rows, now, d, a, n, dry, caps)
  {
    hide Guards, CheckStale, CheckCaps, CheckCash, Told, Used, HasRun, IsClaimed, SoldAtALoss, ReadingFailed, Spent,
        HowMany;
    var d, dry := s.sugs[n - 1].order, mode == DryRun;
    var (s1, v1) := CheckStale(s, a, mode, n);
    GuardByGuard(s, a, mode, n, caps, now);
    ClearedIsUnclaimed(s, a, mode, n);
    if v1 == Go && caps.Some? {
      CapsAreChecked(s1.rows, a, dry, d, caps.value, now);
      CapsComeInOrder(s1.rows, a, dry, d, caps.value, now);
      CashIsAsked(s1, a, d);
    }
  }

  // The buying power is read only for an order the other guards have nothing against.
  lemma PowerIsReadLast(s: State, a: Account, mode: Mode, n: nat, caps: Option<Caps>, now: Time, k: nat)
    requires Known(s.sugs, n)
    requires |s.world.calls| <= k < |Guards(s, a, mode, n, caps, now).0.world.calls|
    requires Guards(s, a, mode, n, caps, now).0.world.calls[k].AccountCall?
    ensures var s1 := Guards(s, a, mode, n, caps, now).0;
            var d, dry := s.sugs[n - 1].order, mode == DryRun;
            && d.side == Buy && k == |s1.world.calls| - 1
            && !HasRun(s.rows, n, a, dry) && PassedBelow(8, s1.rows, now, d, a, n, dry, caps)
  {
    hide Guards, CheckStale, CheckCaps, Told, Used, HasRun, IsClaimed, SoldAtALoss, ReadingFailed, Spent, HowMany;
    var d, dry := s.sugs[n - 1].order, mode == DryRun;
    var (s1, v1) := CheckStale(s, a, mode, n);
    GuardByGuard(s, a, mode, n, caps, now);
    ClearedIsUnclaimed(s, a, mode, n);
    StaleAsksNoPower(s, a, mode, n);
    if v1 == Go && caps.Some? {
      CapsAreChecked(s1.rows, a, dry, d, caps.value, now);
    }
  }

  // The stale check does not ask for the buying power.
  lemma StaleAsksNoPower(s: State, a: Account, mode: Mode, n: nat)
    requires Known(s.sugs, n)
    ensures var calls := CheckStale(s, a, mode, n).0.world.calls;
            s.world.calls <= calls && forall k :: |s.world.calls| <= k < |calls| ==> !calls[k].AccountCall?
  {
    hide ClearStaleFrom;
    StaleFromAsksNoPower(s, 0, a, s.sugs[n - 1].order.ticker, n);
  }

  lemma {:induction false} StaleFromAsksNoPower(s: State, i: nat, a: Account, ticker: Ticker, n: nat)
    requires i <= |s.rows|
    ensures var calls := ClearStaleFrom(s, i, a, ticker, n).0.world.calls;
            s.world.calls <= calls && forall k :: |s.world.calls| <= k < |calls| ==> !calls[k].AccountCall?
    decreases |s.rows| - i
  {
    hide GetOrder, CancelOrder, Blocks;
    if i < |s.rows| {
      if Blocks(a, ticker, n)(s.rows[i]) {
        var (s1, v) := ClearStale(s, i, a);
        if v == Go {
          StaleFromAsksNoPower(s1, i + 1, a, ticker, n);
        }
      } else {
        StaleFromAsksNoPower(s, i + 1, a, ticker, n);
      }
    }
  }

  // ---- Placement ------------------------------------------------------------------------------

  // A row as a placement writes it: the suggestion's present terms, nothing filled yet.
  predicate FreshRow(r: Row, sug: Suggestion, n: nat, a: Account, now: Time) {
    && r.account == a && r.sug == Some(n)
    && r.ticker == sug.order.ticker && r.side == sug.order.side
    && r.submittedQty == Some(sug.order.qty) && r.limit == Some(sug.order.limit)
    && r.filledQty == 0.0 && r.filledPrice == None && r.filledAt == None && r.pnl == None
    && r.matched == AutoTradePlaced && r.createdAt == now && r.cancelledAt == None
  }

  // The real rows of a suggestion that were cancelled.
  function TimesCancelled(rows: seq<Row>, n: nat): nat {
    if rows == [] then 0
    else
      var r := rows[|rows| - 1];
      TimesCancelled(rows[..|rows| - 1], n)
      + if !r.dryRun && r.sug == Some(n) && r.status == BrokerCancelled then 1 else 0
  }

  lemma {:induction false} RetriesAreCancelled(rows: seq<Row>, n: nat)
    ensures NextRetry(rows, n) == TimesCancelled(rows, n)
  {
    if rows != [] {
      RetriesAreCancelled(rows[..|rows| - 1], n);
    }
  }

  // The submission asks for the suggestion's present terms, under the id that counts its
  // cancelled rows. What the broker answers decides: invalid is a refusal that the pass goes on
  // from; a call that raises, a reading that raises and a reading that shows another id fire the
  // kill switch, each with its reason; otherwise the order gets its row.
  lemma SubmissionIsJudged(s: State, a: Account, n: nat, now: Time)
    requires Known(s.sugs, n)
    ensures var origin := Origin(n, TimesCancelled(s.rows, n));
            var id := Print(origin.sug, origin.retry);
            var (w1, sent) := SubmitOrder(s.world, a, s.sugs[n - 1].order, origin);
            var t := SubmitFresh(s, a, n, now);
            && t.Turn? && t.outcome.sug == n && !t.outcome.dryRun
            && match sent
               case Invalid =>
                 && t.s == s.(world := w1) && !t.stop
                 && t.outcome == Outcome(n, false, false, None, Some(BrokerValidation))
               case Failed =>
                 && t.s == Kill(s.(world := w1), a, now) && t.stop
                 && t.outcome == Outcome(n, false, false, None, Some(BrokerError))
               case Confirmed(o) =>
                 var (w2, back) := GetOrder(w1, a, o);
                 if back.Some? && back.value.clientId == Some(id) then
                   && !t.stop && t.outcome == Outcome(n, true, false, Some(o), None)
                   && |t.s.rows| == |s.rows| + 1 && t.s.rows[..|s.rows|] == s.rows
                   && var r := t.s.rows[|s.rows|];
                   && FreshRow(r, s.sugs[n - 1], n, a, now) && !r.dryRun && r.status == AcceptedForRouting
                   && r.orderId == Some(o) && r.clientId == Some(id)
                   && t.s.world == w2.(unrecorded := w2.unrecorded - {o})
                 else
                   && t.s == Kill(s.(world := w2), a, now) && t.stop
                   && t.outcome == Outcome(n, false, false, Some(o),
                                           Some(if back == None then ReadbackFailed else ReadbackMismatch))
  {
    hide SubmitOrder, GetOrder, Kill, Print, NextRetry, TimesCancelled;
    RetriesAreCancelled(s.rows, n);
  }

  predicate CancelledWithOrder(r: Row, n: nat) {
    !r.dryRun && r.sug == Some(n) && r.status == BrokerCancelled && r.orderId.Some?
  }

  ghost predicate LastCancelled(rows: seq<Row>, n: nat, i: nat) {
    NewestOf(rows, (r: Row) => CancelledWithOrder(r, n), i)
  }

  lemma NoneCancelled(rows: seq<Row>, n: nat)
    requires forall j :: 0 <= j < |rows| ==> !Readoptable(n)(rows[j])
    ensures forall i: nat :: !LastCancelled(rows, n, i)
  {
  }

  // A suggestion with cancelled orders has the newest one re-read. If the reading shows it open,
  // its row claims it again, dated now, and nothing is submitted; otherwise, and without one,
  // the suggestion is submitted.
  lemma NewestIsReRead(s: State, a: Account, n: nat, now: Time)
    requires Known(s.sugs, n)
    ensures var t := PlaceLive(s, a, n, now);
            && ((forall i: nat :: !LastCancelled(s.rows, n, i)) ==> t == SubmitFresh(s, a, n, now))
            && (forall i: nat :: LastCancelled(s.rows, n, i) ==>
                  var (w1, read) := GetOrder(s.world, a, s.rows[i].orderId.value);
                  if read.Some? && IsLive(read.value.status) then
                    && t == Turn(s.(world := w1, rows := s.rows[i := s.rows[i].(status := AcceptedForRouting,
                                                                               createdAt := now)]),
                                 Outcome(n, true, false, s.rows[i].orderId, None), false)
                  else t == SubmitFresh(s.(world := w1), a, n, now))
  {
    hide GetOrder, SubmitFresh, NewestOf;
    var p := (r: Row) => CancelledWithOrder(r, n);
    var i := Newest(s.rows, Readoptable(n), |s.rows|);
    NewestIsNewest(s.rows, Readoptable(n));
    NewestByPredicate(s.rows, Readoptable(n), p);
    if i < |s.rows| {
      assert LastCancelled(s.rows, n, i);
      forall j: nat | LastCancelled(s.rows, n, j)
        ensures j == i
      {
        OneNewest(s.rows, p, i, j);
      }
    } else {
      NoneCancelled(s.rows, n);
    }
  }

  // A simulated placement only adds its row.
  lemma SimulationIsRecorded(s: State, a: Account, n: nat, now: Time)
    requires Known(s.sugs, n)
    ensures var t := Simulate(s, a, n, now);
            && t.Turn? && !t.stop && t.outcome == Outcome(n, true, true, None, None)
            && t.s == s.(rows := t.s.rows) && |t.s.rows| == |s.rows| + 1 && t.s.rows[..|s.rows|] == s.rows
            && var r := t.s.rows[|s.rows|];
            && FreshRow(r, s.sugs[n - 1], n, a, now) && r.dryRun && r.status == Simulated
            && r.orderId == None && r.clientId == Some(Print(n, 0))
  {
  }

  // A refusal is reported with its reason and the side the pass works on, and the pass goes on.
  lemma RefusalIsReported(s: State, a: Account, mode: Mode, n: nat, caps: Option<Caps>, now: Time)
    requires Known(s.sugs, n) && Guards(s, a, mode, n, caps, now).1.Skip?
    ensures var t := Process(s, a, mode, n, caps, now);
            && t.Turn? && !t.stop && t.s == Guards(s, a, mode, n, caps, now).0
            && t.outcome.sug == n && !t.outcome.placed && t.outcome.order == None
            && t.outcome.reason == Some(Guards(s, a, mode, n, caps, now).1.reason)
            && (t.outcome.dryRun <==> mode == DryRun)
  {
    hide Guards;
  }

  // ---- The kill switch ---------------------------------------------------------------------------

  // The engine placed it for the account within the last day, and it still claims its order.
  function JustPlaced(a: Account, now: Time): Row -> bool {
    (r: Row) => r.account == a && !r.dryRun && r.matched == AutoTradePlaced && r.status == AcceptedForRouting
                && r.orderId.Some? && r.createdAt + 24 * 3600 >= now
  }

  lemma {:induction false} KillFromAsks(s: State, i: nat, a: Account, now: Time)
    requires i <= |s.rows|
    ensures KillFrom(s, i, a, now - DAY).world.calls == s.world.calls + CallsFor(s.rows, JustPlaced(a, now), Own, i)
    decreases |s.rows| - i
  {
    hide CancelOrder;
    if i == |s.rows| {
      assert s.world.calls + [] == s.world.calls;
    } else {
      var p, r := JustPlaced(a, now), s.rows[i];
      if RecentlyPlaced(a, now - DAY)(r) {
        var s1 := s.(world := CancelOrder(s.world, a, r.orderId.value).0);
        KillFromAsks(s1, i + 1, a, now);
        Prepend(s.world.calls, CancelCall(a, r.orderId.value), CallsFor(s.rows, p, Own, i + 1));
      } else {
        KillFromAsks(s, i + 1, a, now);
        assert [] + CallsFor(s.rows, p, Own, i + 1) == CallsFor(s.rows, p, Own, i + 1);
      }
    }
  }

  // The kill switch turns the account off, asks once for the cancel of each order the engine
  // placed for it within the last day and still has open, in row order, and does nothing else.
  lemma KillAsksForTheRecent(s: State, a: Account, now: Time)
    ensures var s1 := Kill(s, a, now);
            && s1 == s.(modes := s1.modes, world := s1.world)
            && ModeOf(s1.modes, a) == Off && (forall b :: b != a ==> ModeOf(s1.modes, b) == ModeOf(s.modes, b))
            && s1.world.calls == s.world.calls + CallsFor(s.rows, JustPlaced(a, now), Own, 0)
  {
    hide KillFrom, CallsFor;
    KillFromAsks(s.(modes := s.modes[a := Off]), 0, a, now);
  }
}
