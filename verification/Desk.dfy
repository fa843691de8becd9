// The running system: tables and broker connection updated in place, one method per
// operation. Each method is proved to leave exactly the state its specification gives.
module TradingDesk {
  import opened Options
  import opened OrderIds
  import opened Trading
  import opened Broker
  import opened AutoTrade
  import opened Ledger
  import opened Storage
  import opened Reconciliation

  class Desk {
    var sugs: seq<Suggestion>
    var rows: seq<Row>
    var modes: map<Account, Mode>
    var world: World

    function Snap(): State
      reads this
    {
      State(sugs, rows, modes, world)
    }

    constructor (world: World)
      ensures Snap() == State([], [], map[], world)
    {
      this.sugs, this.rows, this.modes, this.world := [], [], map[], world;
    }

    // ---- The pass -------------------------------------------------------------------------

    method FetchAcceptedUnexecuted(a: Account, now: Time) returns (ids: seq<nat>)
      ensures ids == Fetch(Snap(), a, now)
    {
      hide Eligible;
      ids := [];
      var n := 1;
      while n <= |sugs|
        invariant 1 <= n <= |sugs| + 1
        invariant ids + Fetch(Snap(), a, now, n) == Fetch(Snap(), a, now)
        decreases |sugs| + 1 - n
      {
        ghost var rest := Fetch(Snap(), a, now, n + 1);
        if Eligible(Snap(), a, now, n) {
          assert ids + ([n] + rest) == (ids + [n]) + rest;
          ids := ids + [n];
        } else {
          assert [] + rest == rest;
        }
        n := n + 1;
      }
    }

    method CheckStaleLiveOrder(a: Account, mode: Mode, n: nat) returns (v: Verdict)
      requires Known(sugs, n)
      modifies this
      ensures (Snap(), v) == CheckStale(old(Snap()), a, mode, n)
    {
      hide GetOrder, CancelOrder, Count;
      var ticker := sugs[n - 1].order.ticker;
      if mode != Live {
        return if Count(rows, Blocks(a, ticker, n)) > 0 then Skip(BlockedInDryRun) else Go;
      }
      var i := 0;
      while i < |rows|
        invariant i <= |rows|
        invariant ClearStaleFrom(Snap(), i, a, ticker, n) == ClearStaleFrom(old(Snap()), 0, a, ticker, n)
        decreases |rows| - i
      {
        if Blocks(a, ticker, n)(rows[i]) {
          if rows[i].orderId != None {
            var o := rows[i].orderId.value;
            var (w1, conf) := GetOrder(world, a, o);
            world := w1;
            if conf == None {
              return Skip(StaleUnknown);
            }
            if IsLive(conf.value.status) {
              var (w2, ok) := CancelOrder(world, a, o);
              world := w2;
              if !ok {
                return Escapes;
              }
            }
          }
          rows := rows[i := MarkCancelled(rows[i])];
        }
        i := i + 1;
      }
      v := Go;
    }

    method CheckGuards(a: Account, mode: Mode, n: nat, caps: Option<Caps>, now: Time) returns (v: Verdict)
      requires Known(sugs, n)
      modifies this
      ensures (Snap(), v) == Guards(old(Snap()), a, mode, n, caps, now)
    {
      hide CheckStale, CheckCaps, Count, BuyingPower;
      var order := sugs[n - 1].order;
      if Count(rows, Replays(n, a, mode == DryRun)) > 0 {
        return Skip(AlreadyExecuted);
      }
      v := CheckStaleLiveOrder(a, mode, n);
      if v != Go {
        return;
      }
      if order.side == Buy && Count(rows, LossSell(a, order.ticker, now - 30 * DAY)) > 0 {
        return Skip(WashSale);
      }
      if caps == None {
        return Skip(NoCaps);
      }
      v := CheckCaps(rows, a, mode == DryRun, order, caps.value, now);
      if v == Go && order.side == Buy {
        var (w1, power) := BuyingPower(world, a);
        world := w1;
        v := if power == None then Escapes else if power.value < Cost(order) then Skip(NoCash) else Go;
      }
    }

    method TriggerKillSwitch(a: Account, now: Time)
      modifies this
      ensures Snap() == Kill(old(Snap()), a, now)
    {
      hide CancelOrder;
      modes := modes[a := Off];
      var i := 0;
      while i < |rows|
        invariant i <= |rows|
        invariant KillFrom(Snap(), i, a, now - DAY) == Kill(old(Snap()), a, now)
        decreases |rows| - i
      {
        if RecentlyPlaced(a, now - DAY)(rows[i]) {
          world := CancelOrder(world, a, rows[i].orderId.value).0;
        }
        i := i + 1;
      }
    }

    method SubmitAndVerify(a: Account, n: nat, now: Time) returns (outcome: Outcome, stop: bool)
      requires Known(sugs, n)
      modifies this
      ensures Turn(Snap(), outcome, stop) == SubmitFresh(old(Snap()), a, n, now)
    {
      hide SubmitOrder, GetOrder, Kill, Count;
      var origin := Origin(n, NextRetry(rows, n));
      var clientId := Print(origin.sug, origin.retry);
      var placement := Placement(Snap(), a, n, clientId, 0, now);
      var (w1, sent) := SubmitOrder(world, a, sugs[n - 1].order, origin);
      world := w1;
      match sent {
        case Invalid =>
          return Outcome(n, false, false, None, Some(BrokerValidation)), false;
        case Failed =>
          TriggerKillSwitch(a, now);
          return Outcome(n, false, false, None, Some(BrokerError)), true;
        case Confirmed(o) =>
          var (w2, back) := GetOrder(world, a, o);
          world := w2;
          if back == None {
            TriggerKillSwitch(a, now);
            return Outcome(n, false, false, Some(o), Some(ReadbackFailed)), true;
          }
          if back.value.clientId != Some(clientId) {
            TriggerKillSwitch(a, now);
            return Outcome(n, false, false, Some(o), Some(ReadbackMismatch)), true;
          }
          rows := rows + [placement.(orderId := Some(o))];
          world := world.(unrecorded := world.unrecorded - {o});
          return Outcome(n, true, false, Some(o), None), false;
      }
    }

    method PlaceOrReadopt(a: Account, n: nat, now: Time) returns (outcome: Outcome, stop: bool)
      requires Known(sugs, n)
      modifies this
      ensures Turn(Snap(), outcome, stop) == PlaceLive(old(Snap()), a, n, now)
    {
      hide SubmitFresh, GetOrder;
      var i := Newest(rows, Readoptable(n), |rows|);
      if i < |rows| {
        var o := rows[i].orderId;
        var (w1, conf) := GetOrder(world, a, o.value);
        world := w1;
        if conf.Some? && IsLive(conf.value.status) {
          rows := rows[i := rows[i].(status := AcceptedForRouting, createdAt := now)];
          return Outcome(n, true, false, o, None), false;
        }
      }
      outcome, stop := SubmitAndVerify(a, n, now);
    }

    method SimulateOrder(a: Account, n: nat, now: Time)
      requires Known(sugs, n)
      modifies this`rows
      ensures Snap() == Simulate(old(Snap()), a, n, now).s
    {
      var o := sugs[n - 1].order;
      rows := rows + [Row(a, Some(n), o.ticker, o.side, Some(o.qty), Some(o.limit), 0.0, None, None, None,
                          Some(Print(n, 0)), true, Simulated, None, AutoTradePlaced, now, None)];
    }

    // One pass for one account. A pass an exception escapes from is rolled back.
    method RunAutoTradePass(a: Account, caps: Option<Caps>, now: Time) returns (outcomes: seq<Outcome>, escaped: bool)
      modifies this
      ensures PassResult(Snap(), outcomes, escaped) == Pass(old(Snap()), a, caps, now)
    {
      hide Fetch, Guards, PlaceLive;
      var mode := ModeOf(modes, a);
      if mode == Off {
        return [], false;
      }
      var saved := Snap();
      var ids := FetchAcceptedUnexecuted(a, now);
      outcomes := [];
      var j := 0;
      while j < |ids|
        invariant j <= |ids| && sugs == saved.sugs
        invariant PassFrom(Snap(), a, mode, ids, j, caps, now, outcomes) ==
                  PassFrom(saved, a, mode, ids, 0, caps, now, [])
      {
        var n := ids[j];
        var v := CheckGuards(a, mode, n, caps, now);
        match v {
          case Escapes =>
            rows, modes, world := saved.rows, saved.modes, Forgotten(saved.world, world);
            return [], true;
          case Skip(reason) =>
            outcomes := outcomes + [Outcome(n, false, mode == DryRun, None, Some(reason))];
          case Go =>
            if mode == DryRun {
              SimulateOrder(a, n, now);
              outcomes := outcomes + [Outcome(n, true, true, None, None)];
            } else {
              var outcome, stop := PlaceOrReadopt(a, n, now);
              outcomes := outcomes + [outcome];
              if stop {
                return outcomes, false;
              }
            }
        }
        j := j + 1;
      }
      escaped := false;
    }

    // ---- Cancelling ------------------------------------------------------------------------

    method CancelWorkingExecution(i: nat, a: Account) returns (out: CancelOutcome)
      requires i < |rows| && rows[i].orderId.Some?
      modifies this
      ensures (Snap(), out) == CancelWorking(old(Snap()), i, a)
    {
      hide GetOrder, CancelOrder;
      var o := rows[i].orderId.value;
      var (w1, conf) := GetOrder(world, a, o);
      world := w1;
      if conf.Some? && conf.value.status == FilledAtBroker {
        return AlreadyFilled;
      }
      if conf.Some? && IsTerminal(conf.value.status) {
        rows := rows[i := MarkCancelled(rows[i])];
        return Noop;
      }
      var (w2, ok) := CancelOrder(world, a, o);
      world := w2;
      if conf.Some? && conf.value.status == PartiallyFilled {
        return Partial;
      }
      if !ok {
        return Noop;
      }
      rows := rows[i := MarkCancelled(rows[i])];
      out := OrderCancelled;
    }

    method UnacceptSuggestion(n: nat, a: Account, now: Time) returns (result: UnacceptResult)
      modifies this
      ensures (Snap(), result) == Unaccept(old(Snap()), n, a, now)
    {
      hide CancelWorking;
      if !Known(sugs, n) || sugs[n - 1].account != a {
        return NotFound;
      }
      if sugs[n - 1].status != Accepted {
        return NotActionable;
      }
      var i := Newest(rows, Placed(n, a), |rows|);
      result := UnacceptCancelled;
      if i < |rows| {
        var out := CancelWorkingExecution(i, a);
        if out == AlreadyFilled {
          return UnacceptFilled;
        }
        if out == Partial {
          result := UnacceptPartial;
        }
      }
      sugs := sugs[n - 1 := sugs[n - 1].(status := SugStatus.Cancelled, actedAt := Some(now))];
    }

    method SweepExpiredSuggestions(scope: Option<Account>, adapter: Option<Account>, picks: map<nat, nat>, now: Time)
      modifies this
      ensures Snap() == Sweep(old(Snap()), scope, adapter, picks, now)
    {
      hide CancelWorking, PlacedRow;
      var n := 1;
      while n <= |sugs|
        invariant 1 <= n <= |sugs| + 1
        invariant SweepAccepted(Snap(), n, scope, adapter, picks, now) ==
                  SweepAccepted(old(Snap()), 1, scope, adapter, picks, now)
        decreases |sugs| + 1 - n
      {
        if Stale(sugs[n - 1], Accepted, scope, now) {
          var i := PlacedRow(rows, n, picks);
          if adapter.Some? && i < |rows| {
            var _ := CancelWorkingExecution(i, adapter.value);
          }
          sugs := sugs[n - 1 := sugs[n - 1].(status := Expired, actedAt := Some(now))];
        }
        n := n + 1;
      }
      n := 1;
      while n <= |sugs|
        invariant 1 <= n <= |sugs| + 1
        invariant SweepPending(Snap(), n, scope, now) == Sweep(old(Snap()), scope, adapter, picks, now)
        decreases |sugs| + 1 - n
      {
        if Stale(sugs[n - 1], Pending, scope, now) {
          sugs := sugs[n - 1 := sugs[n - 1].(status := Expired, actedAt := Some(now))];
        }
        n := n + 1;
      }
    }

    method CancelAllOrders(scope: set<Account>, adapters: set<Account>)
      modifies this
      ensures Snap() == CancelAll(old(Snap()), scope, adapters)
    {
      hide CancelOrder;
      var i := 0;
      while i < |rows|
        invariant i <= |rows|
        invariant CancelAllFrom(Snap(), i, scope, adapters) == CancelAll(old(Snap()), scope, adapters)
        decreases |rows| - i
      {
        if CancelTarget(rows[i]) && rows[i].account in scope && rows[i].account in adapters {
          var (w1, ok) := CancelOrder(world, rows[i].account, rows[i].orderId.value);
          world := w1;
          if ok {
            rows := rows[i := MarkCancelled(rows[i])];
          }
        }
        i := i + 1;
      }
    }

    // Every order of the suggestion, open or already cancelled.
    method CancelOrdersOfSuggestion(n: nat, a: Account)
      modifies this`rows, this`world
      ensures Snap() == CancelOrdersOf(old(Snap()), 0, n, a)
    {
      hide CancelOrder;
      var i := 0;
      while i < |rows|
        invariant i <= |rows|
        invariant CancelOrdersOf(Snap(), i, n, a) == CancelOrdersOf(old(Snap()), 0, n, a)
        decreases |rows| - i
      {
        if CancelTarget(rows[i]) && rows[i].sug == Some(n) {
          var (w1, ok) := CancelOrder(world, a, rows[i].orderId.value);
          world := w1;
          if ok {
            rows := rows[i := MarkCancelled(rows[i])];
          }
        }
        i := i + 1;
      }
    }

    // Every order of the suggestion that is still open.
    method CancelOpenOrdersOf(n: nat, a: Account)
      modifies this`rows, this`world
      ensures Snap() == CancelOpenOf(old(Snap()), 0, n, a)
    {
      hide CancelOrder;
      var i := 0;
      while i < |rows|
        invariant i <= |rows|
        invariant CancelOpenOf(Snap(), i, n, a) == CancelOpenOf(old(Snap()), 0, n, a)
        decreases |rows| - i
      {
        if Open(a)(rows[i]) && rows[i].sug == Some(n) {
          var (w1, ok) := CancelOrder(world, a, rows[i].orderId.value);
          world := w1;
          if ok {
            rows := rows[i := MarkCancelled(rows[i])];
          }
        }
        i := i + 1;
      }
    }

    method ResetWeekSuggestions(scope: set<Account>, adapters: set<Account>, side: Option<Side>, now: Time)
      modifies this
      ensures Snap() == ResetWeek(old(Snap()), scope, adapters, side, now)
    {
      hide CancelOrdersOf, Count;
      var week := NextMonday(now / DAY);
      var n := 1;
      while n <= |sugs|
        invariant 1 <= n <= |sugs| + 1
        invariant ResetFrom(Snap(), n, scope, adapters, side, week) ==
                  ResetWeek(old(Snap()), scope, adapters, side, now)
        decreases |sugs| + 1 - n
      {
        if ResetTarget(Snap(), n, scope, side, week) {
          var a := sugs[n - 1].account;
          if a in adapters {
            CancelOrdersOfSuggestion(n, a);
          }
          sugs := sugs[n - 1 := sugs[n - 1].(status := Pending, actedAt := None)];
        }
        n := n + 1;
      }
    }

    // Target reload: accepted suggestions of this week whose ticker is gone expire, and
    // their open orders are cancelled.
    method ExpireRemovedTickers(a: Account, tickers: set<Ticker>, adapter: bool, now: Time)
      modifies this
      ensures Snap() == DropRemoved(old(Snap()), a, tickers, adapter, now)
    {
      hide CancelOpenOf;
      var n := 1;
      while n <= |sugs|
        invariant 1 <= n <= |sugs| + 1
        invariant DropFrom(Snap(), n, a, tickers, adapter, now) == DropRemoved(old(Snap()), a, tickers, adapter, now)
        decreases |sugs| + 1 - n
      {
        var sug := sugs[n - 1];
        if sug.status == Accepted && sug.weekOf == CurrentWeek(now) && sug.account == a
            && sug.order.ticker !in tickers {
          sugs := sugs[n - 1 := sug.(status := Expired, actedAt := Some(now))];
          if adapter {
            CancelOpenOrdersOf(n, a);
          }
        }
        n := n + 1;
      }
    }

    // ---- Polling and inference ------------------------------------------------------------------

    method SyncOpenOrderStatuses(a: Account, now: Time)
      modifies this
      ensures Snap() == Sync(old(Snap()), a, now)
    {
      hide ClosedOrders, Count;
      if Count(rows, Open(a)) == 0 {
        return;
      }
      var (w1, closed) := ClosedOrders(world, a);
      world := w1;
      if closed == None {
        return;
      }
      var i := 0;
      while i < |rows|
        invariant i <= |rows| && Snap() == old(Snap()).(world := w1, rows := rows)
        invariant SyncFrom(rows, i, a, closed.value, now) == SyncFrom(old(rows), 0, a, closed.value, now)
        decreases |rows| - i
      {
        if Open(a)(rows[i]) && ReportedTerminal(closed.value, rows[i]) {
          rows := rows[i := rows[i].(status := BrokerCancelled, cancelledAt := Some(now))];
        }
        i := i + 1;
      }
    }

    method InferCancels(a: Account, hours: int, now: Time)
      modifies this`sugs
      ensures Snap() == InferManualCancels(old(Snap()), a, hours, now)
    {
      hide CancelledOutside;
      var cutoff := now - hours * 3600;
      var n := 1;
      while n <= |sugs|
        invariant 1 <= n <= |sugs| + 1
        invariant InferFrom(Snap(), n, a, cutoff, now) == InferManualCancels(old(Snap()), a, hours, now)
        decreases |sugs| + 1 - n
      {
        if sugs[n - 1].account == a && sugs[n - 1].status == Accepted && CancelledOutside(rows, n, cutoff) {
          sugs := sugs[n - 1 := sugs[n - 1].(status := SugStatus.Cancelled, actedAt := Some(now))];
        }
        n := n + 1;
      }
    }

    // ---- Reconciliation ---------------------------------------------------------------------------

    method ReconcileActivities(a: Account, acts: seq<Activity>) returns (results: seq<MatchResult>)
      ensures results == MatchAll(sugs, a, acts)
    {
      results := [];
      var i := 0;
      while i < |acts|
        invariant i <= |acts|
        invariant results == MatchAll(sugs, a, acts[..i])
      {
        assert acts[..i + 1][..i] == acts[..i];
        if acts[i].filledAt != None {
          var m := MatchActivity(a, acts[i]);
          results := results + [m];
        }
        i := i + 1;
      }
      assert acts[..i] == acts;
    }

    method MatchActivity(a: Account, act: Activity) returns (m: MatchResult)
      ensures m == Match(sugs, a, act)
    {
      if EngineSuggestion(act).Some? {
        return MatchResult(EngineSuggestion(act), act, AutoMatched);
      }
      var count, best := 0, 0;
      var n := 0;
      while n < |sugs|
        invariant n <= |sugs|
        invariant (count, best) == Candidates(sugs, a, act, n)
      {
        n := n + 1;
        if Candidate(sugs[n - 1], a, act) {
          if count == 0 || Distance(sugs[n - 1], act) < Distance(sugs[best - 1], act) {
            best := n;
          }
          count := count + 1;
        }
      }
      m := if count == 1 then MatchResult(Some(best), act, AutoMatched)
           else if count > 1 then MatchResult(Some(best), act, ManualReview)
           else MatchResult(None, act, Untracked);
    }

    // The fill is written over the order's own row; an order without one gets a row.
    method PersistFill(m: MatchResult, a: Account, now: Time)
      requires m.act.filledAt.Some?
      modifies this`rows
      ensures rows == PersistRow(old(rows), m, a, now)
    {
      hide RealizedPnl, First;
      var i := First(rows, Records(a, m.act.order));
      if i < |rows| {
        rows := rows[i := WithFill(rows[i], m.act)];
        if m.act.side == Sell {
          var pnl := ComputeRealizedPnl(rows, m.act);
          rows := rows[i := rows[i].(pnl := pnl)];
        }
      } else {
        var pnl := None;
        if m.act.side == Sell {
          pnl := ComputeRealizedPnl(rows, m.act);
        }
        rows := rows + [NewRow(m, a, pnl, now)];
      }
    }

    method PersistReconciliation(ms: seq<MatchResult>, a: Account, now: Time)
      requires Timed(ms)
      modifies this`rows, this`sugs
      ensures Snap() == Persist(old(Snap()), ms, a, now)
    {
      hide PersistRow;
      var j := 0;
      while j < |ms|
        invariant j <= |ms|
        invariant PersistFrom(Snap(), ms, j, a, now) == Persist(old(Snap()), ms, a, now)
      {
        var m := ms[j];
        PersistFill(m, a, now);
        if Fills(m) && Known(sugs, m.sug.value) && sugs[m.sug.value - 1].status == Accepted {
          sugs := sugs[m.sug.value - 1 := sugs[m.sug.value - 1].(status := SugStatus.Filled,
              actedAt := m.act.filledAt)];
        }
        j := j + 1;
      }
    }

    // ---- Storing drafts -------------------------------------------------------------------------------

    // One draft: into its pending row, or into a new one; a decided row is left alone.
    method PersistSuggestion(a: Account, week: int, d: Draft, expires: Time, now: Time) returns (n: nat)
      modifies this`sugs
      ensures sugs == Store(old(sugs), a, week, d, expires, now) && n == Slot(old(sugs), a, week, d)
    {
      n := Slot(sugs, a, week, d);
      if n > |sugs| {
        sugs := sugs + [Suggestion(a, week, d, Pending, Some(expires), now, None, None)];
      } else if sugs[n - 1].status == Pending {
        sugs := sugs[n - 1 := sugs[n - 1].(order := d)];
      }
    }

    method PersistSuggestions(a: Account, week: int, ds: seq<Draft>, expires: Time, now: Time) returns (ids: seq<nat>)
      modifies this`sugs
      ensures (sugs, ids) == StoreAll(old(sugs), a, week, ds, expires, now)
    {
      hide Store, Slot;
      ids := [];
      var j := 0;
      while j < |ds|
        invariant j <= |ds|
        invariant StoreFrom(sugs, a, week, ds, j, expires, now, ids) == StoreAll(old(sugs), a, week, ds, expires, now)
      {
        var n := PersistSuggestion(a, week, ds[j], expires, now);
        ids := ids + [n];
        j := j + 1;
      }
    }

    // Stores the reviewed drafts and hands out their rationales by position.
    method FinalizeReview(a: Account, week: int, ds: seq<Draft>, notes: map<int, string>, expires: Time, now: Time)
      returns (ids: seq<nat>)
      modifies this`sugs
      ensures (sugs, ids) == Finalize(old(sugs), a, week, ds, notes, expires, now)
    {
      ids := PersistSuggestions(a, week, ds, expires, now);
      var j := 0;
      while j < |ids|
        invariant j <= |ids|
        invariant Annotate(sugs, ids, notes, j) == Finalize(old(sugs), a, week, ds, notes, expires, now).0
      {
        var n := ids[j];
        if j in notes && notes[j] != "" && Known(sugs, n) && sugs[n - 1].status == Pending {
          sugs := sugs[n - 1 := sugs[n - 1].(rationale := Some(notes[j]))];
        }
        j := j + 1;
      }
    }

    // ---- Decisions and modes ------------------------------------------------------------------------------

    method PatchSuggestion(n: nat, accept: bool, now: Time) returns (ok: bool)
      modifies this`sugs
      ensures Snap() == Decide(old(Snap()), n, accept, now)
      ensures ok <==> Known(old(sugs), n) && old(sugs)[n - 1].status == Pending
    {
      ok := Known(sugs, n) && sugs[n - 1].status == Pending;
      if ok {
        sugs := sugs[n - 1 := sugs[n - 1].(status := if accept then Accepted else Rejected, actedAt := Some(now))];
      }
    }

    method SetMode(a: Account, mode: Mode)
      modifies this`modes
      ensures Snap() == Promote(old(Snap()), a, mode)
    {
      modes := modes[a := mode];
    }
  }

  // Lot by lot until the sold quantity is covered.
  method ComputeRealizedPnl(rows: seq<Row>, sell: Activity) returns (pnl: Option<real>)
    requires sell.filledAt.Some?
    ensures pnl == RealizedPnl(rows, sell)
  {
    hide Charge;
    var priorBuys := PriorBuys(rows, sell.ticker, sell.filledAt.value);
    if priorBuys == [] {
      return None;
    }
    var left, cost, i := sell.qty, 0.0, 0;
    while i < |priorBuys| && left > 0.0
      invariant i <= |priorBuys|
      invariant cost + FifoCost(priorBuys[i..], left) == FifoCost(priorBuys, sell.qty)
    {
      var applied := if left < priorBuys[i].qty then left else priorBuys[i].qty;
      cost := cost + Charge(applied, priorBuys[i].price);
      left := left - applied;
      assert priorBuys[i..][1..] == priorBuys[i + 1..];
      i := i + 1;
    }
    pnl := Some(Charge(sell.qty, sell.price) - cost);
  }
}
