// The auto-trade pass, as a function of the stored state and the broker's script.
module AutoTrade {
  import opened Options
  import opened OrderIds
  import opened Trading
  import opened Broker

  datatype State = State(sugs: seq<Suggestion>, rows: seq<Row>, modes: map<Account, Mode>, world: World)

  datatype Caps = Caps(perOrder: real, perDay: real, perTickerWeek: real, dayOrders: int)

  datatype Reason =
    | AlreadyExecuted | BlockedInDryRun | StaleUnknown | WashSale | NoCaps
    | PerOrderCap | PerDayCap | PerTickerCap | OrderCountCap | NoCash
    | BrokerValidation | BrokerError | ReadbackMismatch | ReadbackFailed

  datatype Outcome = Outcome(sug: nat, placed: bool, dryRun: bool, order: Option<nat>, reason: Option<Reason>)

  function ModeOf(modes: map<Account, Mode>, a: Account): Mode {
    if a in modes then modes[a] else Off
  }

  function Sug(s: State, n: nat): Suggestion
    requires Known(s.sugs, n)
  {
    s.sugs[n - 1]
  }

  function Cost(o: Draft): real {
    o.qty * o.limit
  }

  // ---- Row predicates of the queries ---------------------------------------------------

  function RealOf(n: nat): Row -> bool {
    (r: Row) => !r.dryRun && r.sug == Some(n)
  }

  function Executes(n: nat): Row -> bool {
    (r: Row) => !r.dryRun && r.sug == Some(n) && r.status != BrokerCancelled
  }

  function Replays(n: nat, a: Account, dry: bool): Row -> bool {
    (r: Row) => r.sug == Some(n) && r.account == a && r.dryRun == dry && r.status != BrokerCancelled
  }

  function CancelledReal(n: nat): Row -> bool {
    (r: Row) => !r.dryRun && r.sug == Some(n) && r.status == BrokerCancelled
  }

  function Readoptable(n: nat): Row -> bool {
    (r: Row) => !r.dryRun && r.sug == Some(n) && r.status == BrokerCancelled && r.orderId.Some?
  }

  // A row of another suggestion that still claims a working order for this ticker. A row
  // without a suggestion never qualifies: SQL compares NULL with nothing.
  function Blocks(a: Account, ticker: Ticker, n: nat): Row -> bool {
    (r: Row) => !r.dryRun && r.account == a && r.ticker == ticker && r.status == AcceptedForRouting
                && r.sug.Some? && r.sug != Some(n)
  }

  function LossSell(a: Account, ticker: Ticker, cutoff: Time): Row -> bool {
    (r: Row) => !r.dryRun && r.account == a && r.ticker == ticker && r.side == Sell
                && r.pnl.Some? && r.pnl.value < 0.0 && r.filledAt.Some? && r.filledAt.value >= cutoff
  }

  // SQL sums skip rows where either factor is NULL.
  function Notional(r: Row): real {
    if r.submittedQty.Some? && r.limit.Some? then r.submittedQty.value * r.limit.value else 0.0
  }

  predicate CountsSince(r: Row, a: Account, dry: bool, from: Time) {
    r.account == a && r.dryRun == dry && r.createdAt >= from && r.status != Reported(ActRejected)
  }

  function InDay(a: Account, dry: bool, from: Time): Row -> bool {
    (r: Row) => CountsSince(r, a, dry, from)
  }

  function DaySpend(a: Account, dry: bool, from: Time): Row -> real {
    (r: Row) => if CountsSince(r, a, dry, from) then Notional(r) else 0.0
  }

  function TickerSpend(a: Account, dry: bool, ticker: Ticker, from: Time): Row -> real {
    (r: Row) => if CountsSince(r, a, dry, from) && r.ticker == ticker then Notional(r) else 0.0
  }

  function RecentlyPlaced(a: Account, cutoff: Time): Row -> bool {
    (r: Row) => r.account == a && r.matched == AutoTradePlaced && !r.dryRun && r.createdAt >= cutoff
                && r.status == AcceptedForRouting && r.orderId.Some?
  }

  // ---- Fetch -----------------------------------------------------------------------------

  predicate Eligible(s: State, a: Account, now: Time, n: nat)
    requires Known(s.sugs, n)
  {
    var sug := Sug(s, n);
    && sug.status == Accepted && sug.weekOf == CurrentWeek(now) && sug.account == a
    && Count(s.rows, Executes(n)) == 0
  }

  // Ids of this week's accepted suggestions without a live real row, from id n on.
  function Fetch(s: State, a: Account, now: Time, n: nat := 1): (ids: seq<nat>)
    ensures forall j :: 0 <= j < |ids| ==> n <= ids[j] && Known(s.sugs, ids[j]) && Sug(s, ids[j]).account == a
                                           && Sug(s, ids[j]).weekOf == CurrentWeek(now)
    ensures forall j, k :: 0 <= j < k < |ids| ==> ids[j] < ids[k]
    decreases |s.sugs| + 1 - n
  {
    if n > |s.sugs| then []
    else (if Known(s.sugs, n) && Eligible(s, a, now, n) then [n] else []) + Fetch(s, a, now, n + 1)
  }

  // Accepted for this week and this account, with no real row but cancelled ones.
  ghost predicate Waits(s: State, a: Account, now: Time, m: nat)
    requires Known(s.sugs, m)
  {
    && s.sugs[m - 1].status == Accepted && s.sugs[m - 1].account == a && s.sugs[m - 1].weekOf == CurrentWeek(now)
    && forall i :: 0 <= i < |s.rows| && !s.rows[i].dryRun && s.rows[i].sug == Some(m) ==>
         s.rows[i].status == BrokerCancelled
  }

  // The ids fetched are exactly those of the suggestions that wait.
  lemma {:induction false} FetchIsEligible(s: State, a: Account, now: Time, n: nat, m: nat)
    ensures m in Fetch(s, a, now, n) <==> n <= m && Known(s.sugs, m) && Waits(s, a, now, m)
    decreases |s.sugs| + 1 - n
  {
    if n <= |s.sugs| {
      FetchIsEligible(s, a, now, n + 1, m);
      CountZero(s.rows, Executes(n));
      assert Known(s.sugs, n) ==> (Eligible(s, a, now, n) <==> Waits(s, a, now, n)) by {
        assert forall i :: 0 <= i < |s.rows| ==> (Executes(n)(s.rows[i]) <==>
            !s.rows[i].dryRun && s.rows[i].sug == Some(n) && s.rows[i].status != BrokerCancelled);
      }
    }
  }

  // ---- Guards -----------------------------------------------------------------------------

  datatype Verdict = Go | Skip(reason: Reason) | Escapes

  function MarkCancelled(r: Row): Row {
    r.(status := BrokerCancelled)
  }

  // One blocking row: ask the broker, cancel a live order, clear the row.
  function ClearStale(s: State, i: nat, a: Account): (r: (State, Verdict))
    requires i < |s.rows|
    ensures |r.0.rows| == |s.rows| && r.0.sugs == s.sugs && r.0.modes == s.modes
    ensures Quiet(s.world, r.0.world)
  {
    var cleared := s.rows[i := MarkCancelled(s.rows[i])];
    if s.rows[i].orderId == None then (s.(rows := cleared), Go)
    else
      var (w1, conf) := GetOrder(s.world, a, s.rows[i].orderId.value);
      if conf == None then (s.(world := w1), Skip(StaleUnknown))
      else if !IsLive(conf.value.status) then (s.(rows := cleared, world := w1), Go)
      else
        var (w2, ok) := CancelOrder(w1, a, s.rows[i].orderId.value);
        if ok then (s.(rows := cleared, world := w2), Go) else (s.(world := w2), Escapes)
  }

  function ClearStaleFrom(s: State, i: nat, a: Account, ticker: Ticker, n: nat): (r: (State, Verdict))
    requires i <= |s.rows|
    ensures |r.0.rows| == |s.rows| && r.0.sugs == s.sugs && r.0.modes == s.modes
    ensures Quiet(s.world, r.0.world)
    decreases |s.rows| - i
  {
    if i == |s.rows| then (s, Go)
    else if !Blocks(a, ticker, n)(s.rows[i]) then ClearStaleFrom(s, i + 1, a, ticker, n)
    else
      var (s1, v) := ClearStale(s, i, a);
      if v == Go then ClearStaleFrom(s1, i + 1, a, ticker, n) else (s1, v)
  }

  function CheckStale(s: State, a: Account, mode: Mode, n: nat): (r: (State, Verdict))
    requires Known(s.sugs, n)
    ensures |r.0.rows| == |s.rows| && r.0.sugs == s.sugs && r.0.modes == s.modes
    ensures Quiet(s.world, r.0.world)
  {
    var ticker := Sug(s, n).order.ticker;
    if mode == Live then ClearStaleFrom(s, 0, a, ticker, n)
    else if Count(s.rows, Blocks(a, ticker, n)) > 0 then (s, Skip(BlockedInDryRun))
    else (s, Go)
  }

  function CheckCaps(rows: seq<Row>, a: Account, dry: bool, order: Draft, caps: Caps, now: Time): (v: Verdict)
    ensures v != Escapes
  {
    if Cost(order) > caps.perOrder then Skip(PerOrderCap)
    else if Sum(rows, DaySpend(a, dry, DayStart(now))) + Cost(order) > caps.perDay then Skip(PerDayCap)
    else if Sum(rows, TickerSpend(a, dry, order.ticker, WeekStart(now))) + Cost(order) > caps.perTickerWeek then
      Skip(PerTickerCap)
    else if Count(rows, InDay(a, dry, DayStart(now))) >= caps.dayOrders then Skip(OrderCountCap)
    else Go
  }

  function CheckCash(s: State, a: Account, order: Draft): (r: (State, Verdict))
    ensures r.0 == s.(world := r.0.world)
    ensures Quiet(s.world, r.0.world)
  {
    if order.side == Sell then (s, Go)
    else
      var (w1, power) := BuyingPower(s.world, a);
      (s.(world := w1),
       if power == None then Escapes else if power.value < Cost(order) then Skip(NoCash) else Go)
  }

  function Guards(s: State, a: Account, mode: Mode, n: nat, caps: Option<Caps>, now: Time): (r: (State, Verdict))
    requires Known(s.sugs, n)
    ensures |r.0.rows| == |s.rows| && r.0.sugs == s.sugs && r.0.modes == s.modes
    ensures Quiet(s.world, r.0.world)
  {
    var order := Sug(s, n).order;
    if Count(s.rows, Replays(n, a, mode == DryRun)) > 0 then (s, Skip(AlreadyExecuted))
    else
      var (s1, v1) := CheckStale(s, a, mode, n);
      if v1 != Go then (s1, v1)
      else if order.side == Buy && Count(s1.rows, LossSell(a, order.ticker, now - 30 * DAY)) > 0 then
          (s1, Skip(WashSale))
      else if caps == None then (s1, Skip(NoCaps))
      else
        var v2 := CheckCaps(s1.rows, a, mode == DryRun, order, caps.value, now);
        if v2 != Go then (s1, v2) else CheckCash(s1, a, order)
  }

  // ---- Kill switch -------------------------------------------------------------------------

  function KillFrom(s: State, i: nat, a: Account, cutoff: Time): (r: State)
    requires i <= |s.rows|
    ensures r == s.(world := r.world)
    ensures Quiet(s.world, r.world)
    decreases |s.rows| - i
  {
    if i == |s.rows| then s
    else if !RecentlyPlaced(a, cutoff)(s.rows[i]) then KillFrom(s, i + 1, a, cutoff)
    else KillFrom(s.(world := CancelOrder(s.world, a, s.rows[i].orderId.value).0), i + 1, a, cutoff)
  }

  // Mode to OFF and a cancel attempt for every recently placed order. Row statuses stay.
  function Kill(s: State, a: Account, now: Time): (r: State)
    ensures r.rows == s.rows && r.sugs == s.sugs && r.modes == s.modes[a := Off]
    ensures Quiet(s.world, r.world)
  {
    KillFrom(s.(modes := s.modes[a := Off]), 0, a, now - DAY)
  }

  // ---- Placement ---------------------------------------------------------------------------

  // What one suggestion does to the state; `stop` ends the pass.
  datatype Turn = Turn(s: State, outcome: Outcome, stop: bool) | Escaped(s: State)

  function Simulate(s: State, a: Account, n: nat, now: Time): (t: Turn)
    requires Known(s.sugs, n)
    ensures t.s.sugs == s.sugs
  {
    var o := Sug(s, n).order;
    var row := Row(a, Some(n), o.ticker, o.side, Some(o.qty), Some(o.limit), 0.0, None, None, None,
                   Some(Print(n, 0)), true, Simulated, None, AutoTradePlaced, now, None);
    Turn(s.(rows := s.rows + [row]), Outcome(n, true, true, None, None), false)
  }

  function Placement(s: State, a: Account, n: nat, clientId: string, order: nat, now: Time): Row
    requires Known(s.sugs, n)
  {
    var o := Sug(s, n).order;
    Row(a, Some(n), o.ticker, o.side, Some(o.qty), Some(o.limit), 0.0, None, None, Some(order),
        Some(clientId), false, AcceptedForRouting, None, AutoTradePlaced, now, None)
  }

  function Record(s: State, row: Row): State
    requires row.orderId.Some?
  {
    s.(rows := s.rows + [row], world := s.world.(unrecorded := s.world.unrecorded - {row.orderId.value}))
  }

  function NextRetry(rows: seq<Row>, n: nat): nat {
    Count(rows, CancelledReal(n))
  }

  function KillAt(s: State, a: Account, n: nat, order: Option<nat>, reason: Reason, now: Time): Turn {
    Turn(Kill(s, a, now), Outcome(n, false, false, order, Some(reason)), true)
  }

  // Submits under the next id, reads the order back and records it.
  function SubmitFresh(s: State, a: Account, n: nat, now: Time): (t: Turn)
    requires Known(s.sugs, n)
    ensures t.s.sugs == s.sugs
  {
    var origin := Origin(n, NextRetry(s.rows, n));
    var id := Print(origin.sug, origin.retry);
    var (w1, sent) := SubmitOrder(s.world, a, Sug(s, n).order, origin);
    match sent
    case Invalid => Turn(s.(world := w1), Outcome(n, false, false, None, Some(BrokerValidation)), false)
    case Failed => KillAt(s.(world := w1), a, n, None, BrokerError, now)
    case Confirmed(o) =>
      var (w2, back) := GetOrder(w1, a, o);
      if back == None then KillAt(s.(world := w2), a, n, Some(o), ReadbackFailed, now)
      else if back.value.clientId != Some(id) then KillAt(s.(world := w2), a, n, Some(o), ReadbackMismatch, now)
      else Turn(Record(s.(world := w2), Placement(s, a, n, id, o, now)), Outcome(n, true, false, Some(o), None), false)
  }

  function Readopt(s: State, i: nat, now: Time): State
    requires i < |s.rows|
  {
    s.(rows := s.rows[i := s.rows[i].(status := AcceptedForRouting, createdAt := now)])
  }

  // A cancelled order that is still live at the broker is taken back instead of replaced.
  function PlaceLive(s: State, a: Account, n: nat, now: Time): (t: Turn)
    requires Known(s.sugs, n)
    ensures t.s.sugs == s.sugs
  {
    var i := Newest(s.rows, Readoptable(n), |s.rows|);
    if i == |s.rows| then SubmitFresh(s, a, n, now)
    else
      var (w1, conf) := GetOrder(s.world, a, s.rows[i].orderId.value);
      if conf.Some? && IsLive(conf.value.status) then
        Turn(Readopt(s.(world := w1), i, now), Outcome(n, true, false, s.rows[i].orderId, None), false)
      else SubmitFresh(s.(world := w1), a, n, now)
  }

  function Process(s: State, a: Account, mode: Mode, n: nat, caps: Option<Caps>, now: Time): (t: Turn)
    requires Known(s.sugs, n)
    ensures t.s.sugs == s.sugs
  {
    var (s1, v) := Guards(s, a, mode, n, caps, now);
    match v
    case Escapes => Escaped(s1)
    case Skip(reason) => Turn(s1, Outcome(n, false, mode == DryRun, None, Some(reason)), false)
    case Go => if mode == DryRun then Simulate(s1, a, n, now) else PlaceLive(s1, a, n, now)
  }

  // ---- The pass ------------------------------------------------------------------------------

  datatype PassResult = PassResult(s: State, outcomes: seq<Outcome>, escaped: bool)

  predicate AllKnown(s: State, ids: seq<nat>) {
    forall j :: 0 <= j < |ids| ==> Known(s.sugs, ids[j])
  }

  function PassFrom(s: State, a: Account, mode: Mode, ids: seq<nat>, j: nat, caps: Option<Caps>, now: Time,
                    outcomes: seq<Outcome>): PassResult
    requires AllKnown(s, ids) && j <= |ids|
    decreases |ids| - j
  {
    if j == |ids| then PassResult(s, outcomes, false)
    else
      match Process(s, a, mode, ids[j], caps, now)
      case Escaped(s1) => PassResult(s1, outcomes, true)
      case Turn(s1, o, stop) =>
        if stop then PassResult(s1, outcomes + [o], false)
        else PassFrom(s1, a, mode, ids, j + 1, caps, now, outcomes + [o])
  }

  // The broker after a rollback: whatever the engine got accepted in between has no row.
  function Forgotten(before: World, after: World): World {
    after.(unrecorded := before.unrecorded
                         + set o | o in after.book.orders && o !in before.book.orders
                             && after.book.orders[o].origin.Some?)
  }

  // A pass an exception escapes from is rolled back: the ledger is as before, the broker is not.
  function Pass(s: State, a: Account, caps: Option<Caps>, now: Time): PassResult {
    var mode := ModeOf(s.modes, a);
    if mode == Off then PassResult(s, [], false)
    else
      var r := PassFrom(s, a, mode, Fetch(s, a, now), 0, caps, now, []);
      if r.escaped then PassResult(s.(world := Forgotten(s.world, r.s.world)), [], true) else r
  }
}
