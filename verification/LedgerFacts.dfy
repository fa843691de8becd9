// What each step does to every suggestion and row, said over the stored fields.
module LedgerFacts {
  import opened Options
  import opened Trading
  import opened Broker
  import opened AutoTrade
  import opened Ledger

  // ---- The newest row --------------------------------------------------------------------------

  // Row i satisfies p, and no other such row is newer, or as new and before it.
  ghost predicate NewestOf(rows: seq<Row>, p: Row -> bool, i: nat) {
    && i < |rows| && p(rows[i])
    && forall j :: 0 <= j < |rows| && p(rows[j]) ==>
         rows[j].createdAt < rows[i].createdAt || (rows[j].createdAt == rows[i].createdAt && i <= j)
  }

  lemma {:induction false} NewestSoFar(rows: seq<Row>, p: Row -> bool, n: nat)
    requires n <= |rows|
    ensures var i := Newest(rows, p, n);
            i < |rows| ==> forall j :: 0 <= j < n && p(rows[j]) ==>
              rows[j].createdAt < rows[i].createdAt || (rows[j].createdAt == rows[i].createdAt && i <= j)
  {
    if n > 0 {
      NewestSoFar(rows, p, n - 1);
    }
  }

  lemma NewestIsNewest(rows: seq<Row>, p: Row -> bool)
    ensures var i := Newest(rows, p, |rows|);
            if i < |rows| then NewestOf(rows, p, i) else forall j :: 0 <= j < |rows| ==> !p(rows[j])
  {
    NewestSoFar(rows, p, |rows|);
  }

  lemma OneNewest(rows: seq<Row>, p: Row -> bool, i: nat, j: nat)
    requires NewestOf(rows, p, i) && NewestOf(rows, p, j)
    ensures i == j
  {
  }

  // ---- Decisions ----------------------------------------------------------------------------------

  // A pending suggestion is accepted or rejected as asked, and stamped; nothing else changes.
  lemma DecisionIsStored(s: State, n: nat, accept: bool, now: Time)
    ensures var s1 := Decide(s, n, accept, now);
            && s1 == s.(sugs := s1.sugs) && |s1.sugs| == |s.sugs|
            && forall i :: 0 <= i < |s.sugs| ==>
                 if i + 1 == n && s.sugs[i].status == Pending then
                   && s1.sugs[i] == s.sugs[i].(status := s1.sugs[i].status, actedAt := Some(now))
                   && (accept ==> s1.sugs[i].status == Accepted) && (!accept ==> s1.sugs[i].status == Rejected)
                 else s1.sugs[i] == s.sugs[i]
  {
  }

  // ---- Cancelling one order -------------------------------------------------------------------------

  predicate ClosedUnfilled(st: OrderStatus) {
    st == Canceled || st == ExpiredAtBroker || st == RejectedAtBroker || st == DoneForDay || st == Replaced
  }

  // The answer of a cancel attempt: "filled" and "partly filled" are what the reading says. The
  // row is marked when the reading says it closed unfilled, or the cancel it asked for returned
  // and nothing was filled. No cancel is asked for once the reading says the order is closed.
  lemma CancelAnswersMean(s: State, i: nat, a: Account)
    requires i < |s.rows| && s.rows[i].orderId.Some?
    ensures var o := s.rows[i].orderId.value;
            var (w1, read) := GetOrder(s.world, a, o);
            var (w2, ok) := CancelOrder(w1, a, o);
            var (s1, out) := CancelWorking(s, i, a);
            var closed := read.Some? && (read.value.status == FilledAtBroker || ClosedUnfilled(read.value.status));
            && (out == AlreadyFilled <==> read.Some? && read.value.status == FilledAtBroker)
            && (out == Partial <==> read.Some? && read.value.status == PartiallyFilled)
            && (out == OrderCancelled <==> !closed && out != Partial && ok)
            && s1.world == (if closed then w1 else w2)
            && s1.rows == if (read.Some? && ClosedUnfilled(read.value.status)) || out == OrderCancelled
                          then s.rows[i := s.rows[i].(status := BrokerCancelled)] else s.rows
  {
    hide GetOrder, CancelOrder;
  }

  // ---- Un-accept -----------------------------------------------------------------------------------

  // A real row of the suggestion and account with a broker order.
  predicate PlacedFor(r: Row, n: nat, a: Account) {
    !r.dryRun && r.orderId.Some? && r.sug == Some(n) && r.account == a
  }

  ghost predicate NewestPlaced(rows: seq<Row>, n: nat, a: Account, i: nat) {
    NewestOf(rows, (r: Row) => PlacedFor(r, n, a), i)
  }

  lemma NewestByPredicate(rows: seq<Row>, p: Row -> bool, q: Row -> bool)
    requires forall r: Row :: p(r) == q(r)
    ensures forall i: nat :: NewestOf(rows, p, i) <==> NewestOf(rows, q, i)
  {
  }

  // What un-accept answers, and what it leaves of the suggestion. A filled order leaves the
  // suggestion accepted; otherwise it becomes cancelled, whatever came of the order.
  lemma UnacceptAnswers(s: State, n: nat, a: Account, now: Time)
    ensures var (s1, result) := Unaccept(s, n, a, now);
            var mine := Known(s.sugs, n) && s.sugs[n - 1].account == a;
            && (result == NotFound <==> !mine)
            && (result == NotActionable <==> mine && s.sugs[n - 1].status != Accepted)
            && (result == NotFound || result == NotActionable ==> s1 == s)
            && (result == UnacceptFilled ==> s1.sugs == s.sugs)
            && (result == UnacceptCancelled || result == UnacceptPartial ==>
                  s1.sugs == s.sugs[n - 1 := s.sugs[n - 1].(status := SugStatus.Cancelled, actedAt := Some(now))])
            && (mine && s.sugs[n - 1].status == Accepted ==>
                  && (result == UnacceptFilled <==>
                        exists i: nat :: NewestPlaced(s.rows, n, a, i) && CancelWorking(s, i, a).1 == AlreadyFilled)
                  && (result == UnacceptPartial <==>
                        exists i: nat :: NewestPlaced(s.rows, n, a, i) && CancelWorking(s, i, a).1 == Partial)
                  && (forall i: nat :: NewestPlaced(s.rows, n, a, i) ==>
                        s1.rows == CancelWorking(s, i, a).0.rows && s1.world == CancelWorking(s, i, a).0.world))
  {
    hide CancelWorking, NewestOf;
    var i := Newest(s.rows, Placed(n, a), |s.rows|);
    NewestIsNewest(s.rows, Placed(n, a));
    NewestByPredicate(s.rows, Placed(n, a), (r: Row) => PlacedFor(r, n, a));
    if i < |s.rows| {
      assert NewestPlaced(s.rows, n, a, i);
      forall j: nat | NewestPlaced(s.rows, n, a, j)
        ensures j == i
      {
        OneNewest(s.rows, (r: Row) => PlacedFor(r, n, a), i, j);
      }
    } else {
      NonePlaced(s.rows, n, a);
    }
  }

  lemma NonePlaced(rows: seq<Row>, n: nat, a: Account)
    requires forall j :: 0 <= j < |rows| ==> !Placed(n, a)(rows[j])
    ensures forall i: nat :: !NewestPlaced(rows, n, a, i)
  {
  }

  // ---- The expiry sweep -------------------------------------------------------------------------------

  // Its deadline has passed, and the sweep is for all accounts or for this one.
  predicate Overdue(x: Suggestion, scope: Option<Account>, now: Time) {
    x.expiresAt.Some? && x.expiresAt.value < now && (scope == None || scope == Some(x.account))
  }

  lemma {:induction false} SweepAcceptedAt(s: State, m: nat, scope: Option<Account>, adapter: Option<Account>,
                                           picks: map<nat, nat>, now: Time, i: nat)
    requires m >= 1 && i < |s.sugs|
    ensures var x, y := s.sugs[i], SweepAccepted(s, m, scope, adapter, picks, now).sugs[i];
            y == if m <= i + 1 && x.status == Accepted && Overdue(x, scope, now)
                 then x.(status := Expired, actedAt := Some(now)) else x
    decreases |s.sugs| + 1 - m
  {
    hide CancelWorking, PlacedRow;
    if m <= |s.sugs| {
      SweepAcceptedAt(if Stale(Sug(s, m), Accepted, scope, now) then ExpireAccepted(s, m, adapter, picks, now) else s,
                      m + 1, scope, adapter, picks, now, i);
    }
  }

  lemma {:induction false} SweepPendingAt(s: State, m: nat, scope: Option<Account>, now: Time, i: nat)
    requires m >= 1 && i < |s.sugs|
    ensures var x, y := s.sugs[i], SweepPending(s, m, scope, now).sugs[i];
            y == if m <= i + 1 && x.status == Pending && Overdue(x, scope, now)
                 then x.(status := Expired, actedAt := Some(now)) else x
    decreases |s.sugs| + 1 - m
  {
    if m <= |s.sugs| {
      SweepPendingAt(if Stale(Sug(s, m), Pending, scope, now) then SetStatus(s, m, Expired, Some(now)) else s,
                     m + 1, scope, now, i);
    }
  }

  // The sweep expires and stamps exactly the overdue suggestions that are accepted or pending.
  lemma SweepExpiresTheOverdue(s: State, scope: Option<Account>, adapter: Option<Account>, picks: map<nat, nat>,
                               now: Time, i: nat)
    requires i < |s.sugs|
    ensures var x, y := s.sugs[i], Sweep(s, scope, adapter, picks, now).sugs[i];
            y == if (x.status == Accepted || x.status == Pending) && Overdue(x, scope, now)
                 then x.(status := Expired, actedAt := Some(now)) else x
  {
    hide SweepAccepted, SweepPending;
    SweepAcceptedAt(s, 1, scope, adapter, picks, now, i);
    SweepPendingAt(SweepAccepted(s, 1, scope, adapter, picks, now), 1, scope, now, i);
  }

  // ---- Polling of closed orders --------------------------------------------------------------------------

  // A real row of the account that still claims its broker order.
  predicate OpenReal(r: Row, a: Account) {
    !r.dryRun && r.account == a && r.status == AcceptedForRouting && r.orderId.Some?
  }

  // The listing has the row's order as closed without a fill.
  predicate ListedUnfilled(listed: map<nat, OrderStatus>, r: Row) {
    r.orderId.Some? && r.orderId.value in listed && ClosedUnfilled(listed[r.orderId.value])
  }

  lemma {:induction false} SyncFromMarks(rows: seq<Row>, i: nat, a: Account, listed: map<nat, OrderStatus>, now: Time,
                                         j: nat)
    requires i <= |rows| && j < |rows|
    ensures SyncFrom(rows, i, a, listed, now)[j] ==
              if i <= j && OpenReal(rows[j], a) && ListedUnfilled(listed, rows[j])
              then rows[j].(status := BrokerCancelled, cancelledAt := Some(now)) else rows[j]
    decreases |rows| - i
  {
    if i < |rows| {
      SyncFromMarks(if Open(a)(rows[i]) && ReportedTerminal(listed, rows[i])
                    then rows[i := MarkCancelled(rows[i]).(cancelledAt := Some(now))] else rows,
                    i + 1, a, listed, now, j);
    }
  }

  // Polling marks exactly the open rows whose orders are listed as canceled, expired, rejected,
  // done for the day or replaced, with the time, and changes no other row. It asks the broker
  // only if there is an open row, and marks nothing when the call raises.
  lemma PollingMarksTheUnfilled(s: State, a: Account, now: Time)
    ensures var (w1, listed) := ClosedOrders(s.world, a);
            var s1 := Sync(s, a, now);
            var any := exists j :: 0 <= j < |s.rows| && OpenReal(s.rows[j], a);
            && s1 == s.(rows := s1.rows, world := if any then w1 else s.world) && |s1.rows| == |s.rows|
            && forall j :: 0 <= j < |s.rows| ==>
                 s1.rows[j] == if listed.Some? && OpenReal(s.rows[j], a) && ListedUnfilled(listed.value, s.rows[j])
                               then s.rows[j].(status := BrokerCancelled, cancelledAt := Some(now)) else s.rows[j]
  {
    hide ClosedOrders, SyncFrom, ListedUnfilled;
    CountZero(s.rows, Open(a));
    var listed := ClosedOrders(s.world, a).1;
    if listed.Some? {
      forall j | 0 <= j < |s.rows|
        ensures SyncFrom(s.rows, 0, a, listed.value, now)[j] ==
                  if OpenReal(s.rows[j], a) && ListedUnfilled(listed.value, s.rows[j])
                  then s.rows[j].(status := BrokerCancelled, cancelledAt := Some(now)) else s.rows[j]
      {
        SyncFromMarks(s.rows, 0, a, listed.value, now, j);
      }
    }
    assert forall j :: 0 <= j < |s.rows| ==> (Open(a)(s.rows[j]) <==> OpenReal(s.rows[j], a));
  }

  // ---- Inferred manual cancels -----------------------------------------------------------------------------

  predicate RealFor(r: Row, n: nat) {
    !r.dryRun && r.sug == Some(n)
  }

  ghost predicate NewestReal(rows: seq<Row>, n: nat, i: nat) {
    NewestOf(rows, (r: Row) => RealFor(r, n), i)
  }

  // The suggestion's newest real row was marked cancelled more than `hours` ago, and none of
  // its real rows is open.
  ghost predicate LongCancelled(rows: seq<Row>, n: nat, hours: int, now: Time) {
    && (exists i: nat :: NewestReal(rows, n, i) && rows[i].status == BrokerCancelled
                    && rows[i].cancelledAt.Some? && rows[i].cancelledAt.value + hours * 3600 < now)
    && forall j :: 0 <= j < |rows| && RealFor(rows[j], n) ==> rows[j].status != AcceptedForRouting
  }

  lemma OutsideIsLong(rows: seq<Row>, n: nat, hours: int, now: Time)
    ensures CancelledOutside(rows, n, now - hours * 3600) <==> LongCancelled(rows, n, hours, now)
  {
    hide NewestOf;
    var p := (r: Row) => RealFor(r, n);
    NewestIsNewest(rows, RealOf(n));
    NewestByPredicate(rows, RealOf(n), p);
    CountZero(rows, OpenFor(n));
    assert forall j :: 0 <= j < |rows| ==>
        (OpenFor(n)(rows[j]) <==> RealFor(rows[j], n) && rows[j].status == AcceptedForRouting);
    var i := Newest(rows, RealOf(n), |rows|);
    if i < |rows| {
      assert NewestReal(rows, n, i);
      forall j: nat | NewestReal(rows, n, j)
        ensures j == i
      {
        OneNewest(rows, p, i, j);
      }
    } else {
      NoneReal(rows, n);
    }
  }

  lemma NoneReal(rows: seq<Row>, n: nat)
    requires forall j :: 0 <= j < |rows| ==> !RealOf(n)(rows[j])
    ensures forall i: nat :: !NewestReal(rows, n, i)
  {
  }

  lemma {:induction false} InferAt(s: State, m: nat, a: Account, hours: int, now: Time, i: nat)
    requires m >= 1 && i < |s.sugs|
    ensures var x, y := s.sugs[i], InferFrom(s, m, a, now - hours * 3600, now).sugs[i];
            y == if m <= i + 1 && x.account == a && x.status == Accepted && LongCancelled(s.rows, i + 1, hours, now)
                 then x.(status := SugStatus.Cancelled, actedAt := Some(now)) else x
    decreases |s.sugs| + 1 - m
  {
    hide CancelledOutside, LongCancelled;
    if m <= |s.sugs| {
      OutsideIsLong(s.rows, m, hours, now);
      var hit := Sug(s, m).account == a && Sug(s, m).status == Accepted
                 && CancelledOutside(s.rows, m, now - hours * 3600);
      InferAt(if hit then SetStatus(s, m, SugStatus.Cancelled, Some(now)) else s, m + 1, a, hours, now, i);
    }
  }

  // Inference cancels and stamps exactly the account's accepted suggestions that were long
  // cancelled at the broker.
  lemma InferenceCancelsTheLongCancelled(s: State, a: Account, hours: int, now: Time, i: nat)
    requires i < |s.sugs|
    ensures var x, y := s.sugs[i], InferManualCancels(s, a, hours, now).sugs[i];
            y == if x.account == a && x.status == Accepted && LongCancelled(s.rows, i + 1, hours, now)
                 then x.(status := SugStatus.Cancelled, actedAt := Some(now)) else x
  {
    hide InferFrom, LongCancelled;
    InferAt(s, 1, a, hours, now, i);
  }

  // ---- Bulk cancel ------------------------------------------------------------------------------------------

  // A placed row whose order may still be open: it claims so, or was marked cancelled.
  predicate MayBeOpen(r: Row) {
    !r.dryRun && r.orderId.Some? && r.status in {AcceptedForRouting, BrokerCancelled}
  }

  // The cancel calls for the rows that satisfy p, in order, each through the account `via` gives.
  function CallsFor(rows: seq<Row>, p: Row -> bool, via: Row -> Account, i: nat): seq<Call>
    requires i <= |rows|
    decreases |rows| - i
  {
    if i == |rows| then []
    else
      (if p(rows[i]) && rows[i].orderId.Some? then [CancelCall(via(rows[i]), rows[i].orderId.value)] else [])
      + CallsFor(rows, p, via, i + 1)
  }

  // Some rows, all satisfying p, were marked cancelled; nothing else changed.
  ghost predicate Marked(rows: seq<Row>, rows': seq<Row>, p: Row -> bool) {
    && |rows'| == |rows|
    && forall j :: 0 <= j < |rows| ==>
         rows'[j] == rows[j] || (p(rows[j]) && rows'[j] == rows[j].(status := BrokerCancelled))
  }

  // Rows that look the same to p and `via` lead to the same calls.
  lemma {:induction false} SameCalls(rows: seq<Row>, rows': seq<Row>, p: Row -> bool, via: Row -> Account, i: nat)
    requires |rows| == |rows'| && i <= |rows|
    requires forall j :: i <= j < |rows| ==>
               p(rows[j]) == p(rows'[j]) && via(rows[j]) == via(rows'[j]) && rows[j].orderId == rows'[j].orderId
    ensures CallsFor(rows, p, via, i) == CallsFor(rows', p, via, i)
    decreases |rows| - i
  {
    if i < |rows| {
      SameCalls(rows, rows', p, via, i + 1);
    }
  }

  // One row tried, then others.
  lemma MarkedMore(rows: seq<Row>, rows1: seq<Row>, rows2: seq<Row>, i: nat, p: Row -> bool)
    requires i < |rows| && p(rows[i]) && Marked(rows1, rows2, p)
    requires rows1 == rows || rows1 == rows[i := rows[i].(status := BrokerCancelled)]
    ensures Marked(rows, rows2, p)
  {
  }

  lemma NoneMarked(rows: seq<Row>, p: Row -> bool)
    ensures Marked(rows, rows, p)
  {
  }

  lemma MarkedTwice(r1: seq<Row>, r2: seq<Row>, r3: seq<Row>, p: Row -> bool, q: Row -> bool)
    requires Marked(r1, r2, p) && Marked(r2, r3, q)
    requires forall r: Row :: p(r) ==> q(r)
    ensures Marked(r1, r3, q)
  {
  }

  lemma LaterCalls(rows: seq<Row>, rows': seq<Row>, i: nat, p: Row -> bool, via: Row -> Account)
    requires i < |rows| && (rows' == rows || rows' == rows[i := MarkCancelled(rows[i])])
    ensures CallsFor(rows', p, via, i + 1) == CallsFor(rows, p, via, i + 1)
  {
    SameCalls(rows', rows, p, via, i + 1);
  }

  lemma Prepend(x: seq<Call>, c: Call, y: seq<Call>)
    ensures (x + [c]) + y == x + ([c] + y) && x + ([] + y) == x + y && x + [] == x
  {
  }

  // ---- Bulk cancel: every account in scope ----

  function InScope(scope: set<Account>, adapters: set<Account>): Row -> bool {
    (r: Row) => MayBeOpen(r) && r.account in scope && r.account in adapters
  }

  function Own(r: Row): Account {
    r.account
  }

  lemma {:induction false} CancelAllFromAsks(s: State, i: nat, scope: set<Account>, adapters: set<Account>)
    requires i <= |s.rows|
    ensures var s1 := CancelAllFrom(s, i, scope, adapters);
            && s1.world.calls == s.world.calls + CallsFor(s.rows, InScope(scope, adapters), Own, i)
            && Marked(s.rows, s1.rows, InScope(scope, adapters))
    decreases |s.rows| - i
  {
    hide TryCancel, Marked;
    var p := InScope(scope, adapters);
    if i == |s.rows| {
      assert s.world.calls + [] == s.world.calls;
      NoneMarked(s.rows, p);
    } else {
      var r := s.rows[i];
      assert CancelTarget(r) && r.account in scope && r.account in adapters <==> p(r);
      if p(r) {
        var s1 := TryCancel(s, i, r.account);
        CancelAllFromAsks(s1, i + 1, scope, adapters);
        LaterCalls(s.rows, s1.rows, i, p, Own);
        MarkedMore(s.rows, s1.rows, CancelAllFrom(s1, i + 1, scope, adapters).rows, i, p);
        Prepend(s.world.calls, CancelCall(r.account, r.orderId.value), CallsFor(s.rows, p, Own, i + 1));
      } else {
        CancelAllFromAsks(s, i + 1, scope, adapters);
        assert [] + CallsFor(s.rows, p, Own, i + 1) == CallsFor(s.rows, p, Own, i + 1);
      }
    }
  }

  // Bulk cancel makes one cancel call for each real placed row in scope that is open or was
  // marked cancelled, in row order, no other call, and marks none but those rows.
  lemma BulkCancelAsksForAll(s: State, scope: set<Account>, adapters: set<Account>)
    ensures var s1 := CancelAll(s, scope, adapters);
            && s1 == s.(rows := s1.rows, world := s1.world)
            && s1.world.calls == s.world.calls + CallsFor(s.rows, InScope(scope, adapters), Own, 0)
            && Marked(s.rows, s1.rows, InScope(scope, adapters))
  {
    hide CancelAllFrom;
    CancelAllFromAsks(s, 0, scope, adapters);
  }

  // ---- The weekly reset -------------------------------------------------------------------------------------

  // Days that are Mondays: 4, 11, and so on. The current week starts on the last of them, the
  // reset is for the only one at most two days past and at most four ahead.
  lemma WeeksStartOnMondays(now: Time)
    ensures DayStart(now) % DAY == 0 && DayStart(now) <= now < DayStart(now) + DAY
    ensures var m := CurrentWeek(now); (m - 4) % 7 == 0 && m * DAY == WeekStart(now) <= now < (m + 7) * DAY
    ensures var m := NextMonday(now / DAY); (m - 4) % 7 == 0 && now / DAY - 2 <= m <= now / DAY + 4
  {
    var day := now / DAY;
    assert DAY * day <= now < DAY * day + DAY;
    TheMondays(day);
    hide MondayOf, NextMonday;
  }

  lemma TheMondays(day: int)
    ensures (MondayOf(day) - 4) % 7 == 0 && day - 6 <= MondayOf(day) <= day
    ensures (NextMonday(day) - 4) % 7 == 0 && day - 2 <= NextMonday(day) <= day + 4
  {
    var weeks, weekday := (day + 3) / 7, (day + 3) % 7;
    assert day == 7 * weeks + weekday - 3;
    assert MondayOf(day) - 4 == 7 * (weeks - 1);
    assert NextMonday(day) - 4 == 7 * (if weekday <= 2 then weeks - 1 else weeks);
  }

  function PlacedOf(n: nat): Row -> bool {
    (r: Row) => MayBeOpen(r) && r.sug == Some(n)
  }

  function Through(a: Account): Row -> Account {
    (r: Row) => a
  }

  lemma {:induction false} CancelOrdersOfAsks(s: State, i: nat, n: nat, a: Account)
    requires i <= |s.rows|
    ensures var s1 := CancelOrdersOf(s, i, n, a);
            && s1.world.calls == s.world.calls + CallsFor(s.rows, PlacedOf(n), Through(a), i)
            && Marked(s.rows, s1.rows, PlacedOf(n))
    decreases |s.rows| - i
  {
    hide TryCancel, Marked;
    var p := PlacedOf(n);
    if i == |s.rows| {
      assert s.world.calls + [] == s.world.calls;
      NoneMarked(s.rows, p);
    } else {
      var r := s.rows[i];
      assert CancelTarget(r) && r.sug == Some(n) <==> p(r);
      if p(r) {
        var s1 := TryCancel(s, i, a);
        CancelOrdersOfAsks(s1, i + 1, n, a);
        LaterCalls(s.rows, s1.rows, i, p, Through(a));
        MarkedMore(s.rows, s1.rows, CancelOrdersOf(s1, i + 1, n, a).rows, i, p);
        Prepend(s.world.calls, CancelCall(a, r.orderId.value), CallsFor(s.rows, p, Through(a), i + 1));
      } else {
        CancelOrdersOfAsks(s, i + 1, n, a);
        assert [] + CallsFor(s.rows, p, Through(a), i + 1) == CallsFor(s.rows, p, Through(a), i + 1);
      }
    }
  }

  // An accepted suggestion of the week, in scope and on the side asked for, without a fill.
  predicate Resettable(x: Suggestion, rows: seq<Row>, n: nat, scope: set<Account>, side: Option<Side>, week: int) {
    && x.status == Accepted && x.weekOf == week && x.account in scope
    && (side.Some? ==> x.order.side == side.value)
    && forall j :: 0 <= j < |rows| && RealFor(rows[j], n) ==> rows[j].status != Reported(ActFilled)
  }

  lemma TargetsAreResettable(s: State, n: nat, scope: set<Account>, side: Option<Side>, week: int)
    requires Known(s.sugs, n)
    ensures ResetTarget(s, n, scope, side, week) <==> Resettable(Sug(s, n), s.rows, n, scope, side, week)
  {
    CountZero(s.rows, FilledFor(n));
    assert forall j :: 0 <= j < |s.rows| ==>
        (FilledFor(n)(s.rows[j]) <==> RealFor(s.rows[j], n) && s.rows[j].status == Reported(ActFilled));
  }

  // The calls of a reset: for each suggestion reset whose account has an adapter, one for each
  // of its placed rows.
  function ResetCalls(sugs: seq<Suggestion>, rows: seq<Row>, n: nat, scope: set<Account>, adapters: set<Account>,
                      side: Option<Side>, week: int): seq<Call>
    requires n >= 1
    decreases |sugs| + 1 - n
  {
    if n > |sugs| then []
    else
      (if Resettable(sugs[n - 1], rows, n, scope, side, week) && sugs[n - 1].account in adapters
       then CallsFor(rows, PlacedOf(n), Through(sugs[n - 1].account), 0) else [])
      + ResetCalls(sugs, rows, n + 1, scope, adapters, side, week)
  }

  // Marking placed rows cancelled makes no difference to who is reset,
  lemma StillResettable(x: Suggestion, rows: seq<Row>, rows': seq<Row>, n: nat, scope: set<Account>,
                        side: Option<Side>, week: int)
    requires Marked(rows, rows', MayBeOpen)
    ensures Resettable(x, rows', n, scope, side, week) <==> Resettable(x, rows, n, scope, side, week)
  {
    assert forall j :: 0 <= j < |rows| ==>
        RealFor(rows'[j], n) == RealFor(rows[j], n)
        && (rows'[j].status == Reported(ActFilled) <==> rows[j].status == Reported(ActFilled));
  }

  lemma StillPlaced(rows: seq<Row>, rows': seq<Row>, n: nat, a: Account)
    requires Marked(rows, rows', MayBeOpen)
    ensures CallsFor(rows', PlacedOf(n), Through(a), 0) == CallsFor(rows, PlacedOf(n), Through(a), 0)
  {
    SameCalls(rows', rows, PlacedOf(n), Through(a), 0);
  }

  // nor do the earlier suggestions to what is asked for the later ones.
  lemma {:induction false} SameResetCalls(sugs: seq<Suggestion>, sugs': seq<Suggestion>, rows: seq<Row>,
                                          rows': seq<Row>, n: nat, scope: set<Account>, adapters: set<Account>,
                                          side: Option<Side>, week: int)
    requires n >= 1 && |sugs| == |sugs'| && Marked(rows, rows', MayBeOpen)
    requires forall i :: n - 1 <= i < |sugs| ==> sugs'[i] == sugs[i]
    ensures ResetCalls(sugs', rows', n, scope, adapters, side, week) ==
            ResetCalls(sugs, rows, n, scope, adapters, side, week)
    decreases |sugs| + 1 - n
  {
    hide Marked, Resettable, CallsFor;
    if n <= |sugs| {
      SameResetCalls(sugs, sugs', rows, rows', n + 1, scope, adapters, side, week);
      StillResettable(sugs[n - 1], rows, rows', n, scope, side, week);
      StillPlaced(rows, rows', n, sugs[n - 1].account);
    }
  }

  // One suggestion reset: its placed rows are asked about and possibly marked.
  function ResetOne(s: State, n: nat, adapters: set<Account>): (r: State)
    requires Known(s.sugs, n)
    ensures |r.sugs| == |s.sugs|
  {
    var a := Sug(s, n).account;
    SetStatus(if a in adapters then CancelOrdersOf(s, 0, n, a) else s, n, Pending, None)
  }

  lemma ResetOneDoes(s: State, n: nat, adapters: set<Account>)
    requires Known(s.sugs, n)
    ensures var s1, a := ResetOne(s, n, adapters), Sug(s, n).account;
            && Marked(s.rows, s1.rows, MayBeOpen)
            && s1.sugs == s.sugs[n - 1 := s.sugs[n - 1].(status := Pending, actedAt := None)]
            && s1.world.calls == s.world.calls +
               (if a in adapters then CallsFor(s.rows, PlacedOf(n), Through(a), 0) else [])
  {
    var a := Sug(s, n).account;
    CancelOrdersOfAsks(s, 0, n, a);
    NoneMarked(s.rows, MayBeOpen);
    NoneMarked(CancelOrdersOf(s, 0, n, a).rows, MayBeOpen);
    MarkedTwice(s.rows, CancelOrdersOf(s, 0, n, a).rows, CancelOrdersOf(s, 0, n, a).rows, PlacedOf(n), MayBeOpen);
    hide CancelOrdersOf, CallsFor, Marked;
    assert s.world.calls + [] == s.world.calls;
  }

  lemma ResetsOneFirst(s: State, n: nat, scope: set<Account>, adapters: set<Account>, side: Option<Side>, week: int)
    requires n >= 1
    ensures ResetFrom(s, n, scope, adapters, side, week) ==
            if n > |s.sugs| then s
            else ResetFrom(if Resettable(Sug(s, n), s.rows, n, scope, side, week) then ResetOne(s, n, adapters) else s,
                           n + 1, scope, adapters, side, week)
  {
    if n <= |s.sugs| {
      TargetsAreResettable(s, n, scope, side, week);
    }
    hide ResetTarget, CancelOrdersOf, Resettable;
  }

  lemma {:induction false} ResetFromMarks(s: State, n: nat, scope: set<Account>, adapters: set<Account>,
                                          side: Option<Side>, week: int)
    requires n >= 1
    ensures Marked(s.rows, ResetFrom(s, n, scope, adapters, side, week).rows, MayBeOpen)
    decreases |s.sugs| + 1 - n
  {
    hide ResetFrom, Resettable, Marked, ResetOne;
    ResetsOneFirst(s, n, scope, adapters, side, week);
    NoneMarked(s.rows, MayBeOpen);
    if n <= |s.sugs| {
      ResetOneDoes(s, n, adapters);
      var s1 := if Resettable(Sug(s, n), s.rows, n, scope, side, week) then ResetOne(s, n, adapters) else s;
      ResetFromMarks(s1, n + 1, scope, adapters, side, week);
      MarkedTwice(s.rows, s1.rows, ResetFrom(s1, n + 1, scope, adapters, side, week).rows, MayBeOpen, MayBeOpen);
    }
  }

  lemma {:induction false} ResetFromAsks(s: State, n: nat, scope: set<Account>, adapters: set<Account>,
                                         side: Option<Side>, week: int)
    requires n >= 1
    ensures ResetFrom(s, n, scope, adapters, side, week).world.calls ==
            s.world.calls + ResetCalls(s.sugs, s.rows, n, scope, adapters, side, week)
    decreases |s.sugs| + 1 - n
  {
    hide ResetFrom, Resettable, Marked, ResetOne, CallsFor;
    ResetsOneFirst(s, n, scope, adapters, side, week);
    if n > |s.sugs| {
      assert s.world.calls + [] == s.world.calls;
    } else {
      ResetOneDoes(s, n, adapters);
      NoneMarked(s.rows, MayBeOpen);
      var a := Sug(s, n).account;
      var reset := Resettable(Sug(s, n), s.rows, n, scope, side, week);
      var s1 := if reset then ResetOne(s, n, adapters) else s;
      var asked := if reset && a in adapters then CallsFor(s.rows, PlacedOf(n), Through(a), 0) else [];
      var rest := ResetCalls(s.sugs, s.rows, n + 1, scope, adapters, side, week);
      assert s.world.calls + [] == s.world.calls;
      assert s1.world.calls == s.world.calls + asked;
      ResetFromAsks(s1, n + 1, scope, adapters, side, week);
      SameResetCalls(s.sugs, s1.sugs, s.rows, s1.rows, n + 1, scope, adapters, side, week);
      assert (s.world.calls + asked) + rest == s.world.calls + (asked + rest);
    }
  }

  lemma {:induction false} ResetFromReopens(s: State, n: nat, scope: set<Account>, adapters: set<Account>,
                                            side: Option<Side>, week: int, i: nat)
    requires n >= 1 && i < |s.sugs|
    ensures ResetFrom(s, n, scope, adapters, side, week).sugs[i] ==
            if n <= i + 1 && Resettable(s.sugs[i], s.rows, i + 1, scope, side, week)
            then s.sugs[i].(status := Pending, actedAt := None) else s.sugs[i]
    decreases |s.sugs| + 1 - n
  {
    hide ResetFrom, Resettable, Marked, ResetOne, CallsFor;
    ResetsOneFirst(s, n, scope, adapters, side, week);
    if n <= |s.sugs| {
      ResetOneDoes(s, n, adapters);
      NoneMarked(s.rows, MayBeOpen);
      var s1 := if Resettable(Sug(s, n), s.rows, n, scope, side, week) then ResetOne(s, n, adapters) else s;
      ResetFromReopens(s1, n + 1, scope, adapters, side, week, i);
      StillResettable(s.sugs[i], s.rows, s1.rows, i + 1, scope, side, week);
    }
  }

  // The reset puts exactly the resettable suggestions of the week back to pending, unstamped,
  // after one cancel call for each of their placed rows whose account has an adapter.
  lemma ResetReopensTheUnfilled(s: State, scope: set<Account>, adapters: set<Account>, side: Option<Side>, now: Time)
    ensures var week := NextMonday(now / DAY);
            var s1 := ResetWeek(s, scope, adapters, side, now);
            && s1 == s.(sugs := s1.sugs, rows := s1.rows, world := s1.world) && |s1.sugs| == |s.sugs|
            && Marked(s.rows, s1.rows, MayBeOpen)
            && s1.world.calls == s.world.calls + ResetCalls(s.sugs, s.rows, 1, scope, adapters, side, week)
            && forall i :: 0 <= i < |s.sugs| ==>
                 s1.sugs[i] == if Resettable(s.sugs[i], s.rows, i + 1, scope, side, week)
                               then s.sugs[i].(status := Pending, actedAt := None) else s.sugs[i]
  {
    hide ResetFrom, Resettable, Marked, ResetCalls, NextMonday;
    var week := NextMonday(now / DAY);
    ResetFromMarks(s, 1, scope, adapters, side, week);
    ResetFromAsks(s, 1, scope, adapters, side, week);
    forall i | 0 <= i < |s.sugs|
      ensures ResetWeek(s, scope, adapters, side, now).sugs[i] ==
              if Resettable(s.sugs[i], s.rows, i + 1, scope, side, week)
              then s.sugs[i].(status := Pending, actedAt := None) else s.sugs[i]
    {
      ResetFromReopens(s, 1, scope, adapters, side, week, i);
    }
    ResetTouchesNothingElse(s, 1, scope, adapters, side, week);
  }

  lemma {:induction false} ResetTouchesNothingElse(s: State, n: nat, scope: set<Account>, adapters: set<Account>,
                                                   side: Option<Side>, week: int)
    requires n >= 1
    ensures var s1 := ResetFrom(s, n, scope, adapters, side, week);
            s1 == s.(sugs := s1.sugs, rows := s1.rows, world := s1.world)
  {
  }

  // ---- Removed tickers --------------------------------------------------------------------------------------

  // An accepted suggestion of this week and account for a share no longer held a target for.
  predicate Removed(x: Suggestion, a: Account, tickers: set<Ticker>, now: Time) {
    x.status == Accepted && x.account == a && x.weekOf == CurrentWeek(now) && x.order.ticker !in tickers
  }

  function OpenOf(a: Account, n: nat): Row -> bool {
    (r: Row) => OpenReal(r, a) && r.sug == Some(n)
  }

  lemma {:induction false} CancelOpenOfAsks(s: State, i: nat, n: nat, a: Account)
    requires i <= |s.rows|
    ensures var s1 := CancelOpenOf(s, i, n, a);
            && s1.world.calls == s.world.calls + CallsFor(s.rows, OpenOf(a, n), Through(a), i)
            && Marked(s.rows, s1.rows, OpenOf(a, n))
    decreases |s.rows| - i
  {
    hide TryCancel, Marked;
    var p := OpenOf(a, n);
    if i == |s.rows| {
      assert s.world.calls + [] == s.world.calls;
      NoneMarked(s.rows, p);
    } else {
      var r := s.rows[i];
      assert Open(a)(r) && r.sug == Some(n) <==> p(r);
      if p(r) {
        var s1 := TryCancel(s, i, a);
        CancelOpenOfAsks(s1, i + 1, n, a);
        LaterCalls(s.rows, s1.rows, i, p, Through(a));
        MarkedMore(s.rows, s1.rows, CancelOpenOf(s1, i + 1, n, a).rows, i, p);
        Prepend(s.world.calls, CancelCall(a, r.orderId.value), CallsFor(s.rows, p, Through(a), i + 1));
      } else {
        CancelOpenOfAsks(s, i + 1, n, a);
        assert [] + CallsFor(s.rows, p, Through(a), i + 1) == CallsFor(s.rows, p, Through(a), i + 1);
      }
    }
  }

  // The calls of a target reload: one for each open row of each suggestion it expires.
  function DropCalls(sugs: seq<Suggestion>, rows: seq<Row>, n: nat, a: Account, tickers: set<Ticker>, adapter: bool,
                     now: Time): seq<Call>
    requires n >= 1
    decreases |sugs| + 1 - n
  {
    if n > |sugs| then []
    else
      (if Removed(sugs[n - 1], a, tickers, now) && adapter then CallsFor(rows, OpenOf(a, n), Through(a), 0) else [])
      + DropCalls(sugs, rows, n + 1, a, tickers, adapter, now)
  }

  // What became of the rows and the status of earlier suggestions makes no difference.
  lemma {:induction false} SameDropCalls(sugs: seq<Suggestion>, sugs': seq<Suggestion>, rows: seq<Row>, rows': seq<Row>,
                                         k: nat, n: nat, a: Account, tickers: set<Ticker>, adapter: bool, now: Time)
    requires 1 <= n && k < n && |sugs| == |sugs'| && Marked(rows, rows', OpenOf(a, k))
    requires forall i :: n - 1 <= i < |sugs| ==> sugs'[i] == sugs[i]
    ensures DropCalls(sugs', rows', n, a, tickers, adapter, now) == DropCalls(sugs, rows, n, a, tickers, adapter, now)
    decreases |sugs| + 1 - n
  {
    if n <= |sugs| {
      SameDropCalls(sugs, sugs', rows, rows', k, n + 1, a, tickers, adapter, now);
      SameCalls(rows, rows', OpenOf(a, n), Through(a), 0);
    }
  }

  // One suggestion expired: its open rows are asked about and possibly marked.
  function DropOne(s: State, n: nat, a: Account, adapter: bool, now: Time): (r: State)
    requires Known(s.sugs, n)
    ensures |r.sugs| == |s.sugs|
  {
    var s1 := SetStatus(s, n, Expired, Some(now));
    if adapter then CancelOpenOf(s1, 0, n, a) else s1
  }

  lemma DropOneDoes(s: State, n: nat, a: Account, adapter: bool, now: Time)
    requires Known(s.sugs, n)
    ensures var s1 := DropOne(s, n, a, adapter, now);
            && Marked(s.rows, s1.rows, OpenOf(a, n))
            && s1.sugs == s.sugs[n - 1 := s.sugs[n - 1].(status := Expired, actedAt := Some(now))]
            && s1.world.calls == s.world.calls +
               (if adapter then CallsFor(s.rows, OpenOf(a, n), Through(a), 0) else [])
  {
    CancelOpenOfAsks(SetStatus(s, n, Expired, Some(now)), 0, n, a);
    NoneMarked(s.rows, OpenOf(a, n));
    hide CancelOpenOf, CallsFor, Marked;
    assert s.world.calls + [] == s.world.calls;
  }

  lemma DropsOneFirst(s: State, n: nat, a: Account, tickers: set<Ticker>, adapter: bool, now: Time)
    requires n >= 1
    ensures DropFrom(s, n, a, tickers, adapter, now) ==
            if n > |s.sugs| then s
            else DropFrom(if Removed(Sug(s, n), a, tickers, now) then DropOne(s, n, a, adapter, now) else s, n + 1, a,
                          tickers, adapter, now)
  {
    hide CancelOpenOf, CurrentWeek;
  }

  function OpenOn(a: Account): Row -> bool {
    (r: Row) => OpenReal(r, a)
  }

  lemma MarkedOpen(r1: seq<Row>, r2: seq<Row>, r3: seq<Row>, a: Account, n: nat)
    requires Marked(r1, r2, OpenOf(a, n)) && Marked(r2, r3, OpenOn(a))
    ensures Marked(r1, r3, OpenOn(a))
  {
    MarkedTwice(r1, r2, r3, OpenOf(a, n), OpenOn(a));
  }

  lemma {:induction false} DropFromAsks(s: State, n: nat, a: Account, tickers: set<Ticker>, adapter: bool, now: Time)
    requires n >= 1
    ensures var s1 := DropFrom(s, n, a, tickers, adapter, now);
            && Marked(s.rows, s1.rows, OpenOn(a))
            && s1.world.calls == s.world.calls + DropCalls(s.sugs, s.rows, n, a, tickers, adapter, now)
    decreases |s.sugs| + 1 - n
  {
    hide DropFrom, Removed, Marked, DropOne, CallsFor, OpenOf, OpenOn;
    DropsOneFirst(s, n, a, tickers, adapter, now);
    if n > |s.sugs| {
      assert s.world.calls + [] == s.world.calls;
      NoneMarked(s.rows, OpenOn(a));
    } else {
      DropOneDoes(s, n, a, adapter, now);
      NoneMarked(s.rows, OpenOf(a, n));
      var removed := Removed(Sug(s, n), a, tickers, now);
      var s1 := if removed then DropOne(s, n, a, adapter, now) else s;
      var asked := if removed && adapter then CallsFor(s.rows, OpenOf(a, n), Through(a), 0) else [];
      var rest := DropCalls(s.sugs, s.rows, n + 1, a, tickers, adapter, now);
      assert s.world.calls + [] == s.world.calls;
      assert s1.world.calls == s.world.calls + asked;
      DropFromAsks(s1, n + 1, a, tickers, adapter, now);
      SameDropCalls(s.sugs, s1.sugs, s.rows, s1.rows, n, n + 1, a, tickers, adapter, now);
      MarkedOpen(s.rows, s1.rows, DropFrom(s1, n + 1, a, tickers, adapter, now).rows, a, n);
      assert (s.world.calls + asked) + rest == s.world.calls + (asked + rest);
    }
  }

  lemma {:induction false} DropFromExpires(s: State, n: nat, a: Account, tickers: set<Ticker>, adapter: bool, now: Time,
                                           i: nat)
    requires n >= 1 && i < |s.sugs|
    ensures DropFrom(s, n, a, tickers, adapter, now).sugs[i] ==
            if n <= i + 1 && Removed(s.sugs[i], a, tickers, now)
            then s.sugs[i].(status := Expired, actedAt := Some(now)) else s.sugs[i]
    decreases |s.sugs| + 1 - n
  {
    hide DropFrom, Removed, Marked, DropOne, CallsFor;
    DropsOneFirst(s, n, a, tickers, adapter, now);
    if n <= |s.sugs| {
      DropOneDoes(s, n, a, adapter, now);
      var s1 := if Removed(Sug(s, n), a, tickers, now) then DropOne(s, n, a, adapter, now) else s;
      DropFromExpires(s1, n + 1, a, tickers, adapter, now, i);
    }
  }

  // A target reload expires and stamps exactly this week's accepted suggestions of the account
  // whose ticker was removed, after one cancel call for each of their open rows if there is an
  // adapter.
  lemma ReloadExpiresTheRemoved(s: State, a: Account, tickers: set<Ticker>, adapter: bool, now: Time)
    ensures var s1 := DropRemoved(s, a, tickers, adapter, now);
            && s1 == s.(sugs := s1.sugs, rows := s1.rows, world := s1.world) && |s1.sugs| == |s.sugs|
            && Marked(s.rows, s1.rows, OpenOn(a))
            && s1.world.calls == s.world.calls + DropCalls(s.sugs, s.rows, 1, a, tickers, adapter, now)
            && forall i :: 0 <= i < |s.sugs| ==>
                 s1.sugs[i] == if Removed(s.sugs[i], a, tickers, now)
                               then s.sugs[i].(status := Expired, actedAt := Some(now)) else s.sugs[i]
  {
    hide DropFrom, Removed, Marked, DropCalls;
    DropFromAsks(s, 1, a, tickers, adapter, now);
    forall i | 0 <= i < |s.sugs|
      ensures DropRemoved(s, a, tickers, adapter, now).sugs[i] ==
              if Removed(s.sugs[i], a, tickers, now)
              then s.sugs[i].(status := Expired, actedAt := Some(now)) else s.sugs[i]
    {
      DropFromExpires(s, 1, a, tickers, adapter, now, i);
    }
  }
}
