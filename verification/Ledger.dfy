// The other steps that change suggestions and execution rows.
module Ledger {
  import opened Options
  import opened Trading
  import opened Broker
  import opened AutoTrade

  // ---- Order cancellation ----------------------------------------------------------------

  datatype CancelOutcome = OrderCancelled | Partial | AlreadyFilled | Noop

  function SetCancelled(s: State, i: nat): State
    requires i < |s.rows|
  {
    s.(rows := s.rows[i := MarkCancelled(s.rows[i])])
  }

  // Cancels the order of row i through account a's adapter, re-reading it first.
  function CancelWorking(s: State, i: nat, a: Account): (r: (State, CancelOutcome))
    requires i < |s.rows| && s.rows[i].orderId.Some?
    ensures r.0.sugs == s.sugs && r.0.modes == s.modes
    ensures r.0.rows == s.rows || r.0.rows == s.rows[i := MarkCancelled(s.rows[i])]
    ensures r.1 == OrderCancelled ==> r.0.rows[i] == MarkCancelled(s.rows[i])
    ensures r.1 == Partial || r.1 == AlreadyFilled ==> r.0.rows == s.rows
    ensures Quiet(s.world, r.0.world)
  {
    var o := s.rows[i].orderId.value;
    var (w1, conf) := GetOrder(s.world, a, o);
    if conf == None then
      var (w2, ok) := CancelOrder(w1, a, o);
      if ok then (SetCancelled(s.(world := w2), i), OrderCancelled) else (s.(world := w2), Noop)
    else if conf.value.status == FilledAtBroker then (s.(world := w1), AlreadyFilled)
    else if IsTerminal(conf.value.status) then (SetCancelled(s.(world := w1), i), Noop)
    else
      var (w2, ok) := CancelOrder(w1, a, o);
      if conf.value.status == PartiallyFilled then (s.(world := w2), Partial)
      else if ok then (SetCancelled(s.(world := w2), i), OrderCancelled)
      else (s.(world := w2), Noop)
  }

  // A cancel attempt that marks the row only when the call returns.
  function TryCancel(s: State, i: nat, a: Account): (r: State)
    requires i < |s.rows| && s.rows[i].orderId.Some?
    ensures r.sugs == s.sugs && r.modes == s.modes
    ensures r.rows == s.rows || r.rows == s.rows[i := MarkCancelled(s.rows[i])]
    ensures Quiet(s.world, r.world) && r.world.calls == s.world.calls + [CancelCall(a, s.rows[i].orderId.value)]
  {
    var (w1, ok) := CancelOrder(s.world, a, s.rows[i].orderId.value);
    if ok then SetCancelled(s.(world := w1), i) else s.(world := w1)
  }

  // ---- Suggestion status changes ------------------------------------------------------------

  function SetStatus(s: State, n: nat, st: SugStatus, acted: Option<Time>): State
    requires Known(s.sugs, n)
  {
    s.(sugs := s.sugs[n - 1 := Sug(s, n).(status := st, actedAt := acted)])
  }

  // Accept or reject; anything but a pending suggestion is refused.
  function Decide(s: State, n: nat, accept: bool, now: Time): State {
    if Known(s.sugs, n) && Sug(s, n).status == Pending then
      SetStatus(s, n, if accept then Accepted else Rejected, Some(now))
    else s
  }

  datatype UnacceptResult = UnacceptCancelled | UnacceptPartial | UnacceptFilled | NotActionable | NotFound

  function Placed(n: nat, a: Account): Row -> bool {
    (r: Row) => !r.dryRun && r.sug == Some(n) && r.account == a && r.orderId.Some?
  }

  function Unaccept(s: State, n: nat, a: Account, now: Time): (State, UnacceptResult) {
    if !Known(s.sugs, n) || Sug(s, n).account != a then (s, NotFound)
    else if Sug(s, n).status != Accepted then (s, NotActionable)
    else
      var i := Newest(s.rows, Placed(n, a), |s.rows|);
      if i == |s.rows| then (SetStatus(s, n, SugStatus.Cancelled, Some(now)), UnacceptCancelled)
      else
        var (s1, out) := CancelWorking(s, i, a);
        if out == AlreadyFilled then (s1, UnacceptFilled)
        else (SetStatus(s1, n, SugStatus.Cancelled, Some(now)),
              if out == Partial then UnacceptPartial else UnacceptCancelled)
  }

  // ---- Expiry sweep --------------------------------------------------------------------------

  function PlacedAnywhere(n: nat): Row -> bool {
    (r: Row) => !r.dryRun && r.sug == Some(n) && r.orderId.Some?
  }

  // Some row of the suggestion that has a broker order, |rows| when there is none. The query
  // states no order: which row it returns is the database's choice, read from `picks`.
  function PlacedRow(rows: seq<Row>, n: nat, picks: map<nat, nat>): (i: nat)
    ensures i < |rows| ==> PlacedAnywhere(n)(rows[i])
    ensures i >= |rows| ==> i == |rows| && forall j :: 0 <= j < |rows| ==> !PlacedAnywhere(n)(rows[j])
  {
    if n in picks && picks[n] < |rows| && PlacedAnywhere(n)(rows[picks[n]]) then picks[n]
    else First(rows, PlacedAnywhere(n))
  }

  predicate Stale(sug: Suggestion, st: SugStatus, scope: Option<Account>, now: Time) {
    && sug.status == st
    && sug.expiresAt.Some? && sug.expiresAt.value < now
    && (scope == None || scope.value == sug.account)
  }

  // One stale accepted suggestion: one of its rows that has a broker order is cancelled (when
  // there is an adapter), and it expires whatever came of that.
  function ExpireAccepted(s: State, n: nat, adapter: Option<Account>, picks: map<nat, nat>, now: Time): (r: State)
    requires Known(s.sugs, n)
    ensures |r.sugs| == |s.sugs| && |r.rows| == |s.rows| && r.modes == s.modes
    ensures Quiet(s.world, r.world)
  {
    var i := PlacedRow(s.rows, n, picks);
    var s1 := if adapter.Some? && i < |s.rows| then CancelWorking(s, i, adapter.value).0 else s;
    SetStatus(s1, n, Expired, Some(now))
  }

  function SweepAccepted(s: State, n: nat, scope: Option<Account>, adapter: Option<Account>, picks: map<nat, nat>,
                         now: Time): (r: State)
    requires n >= 1
    ensures |r.sugs| == |s.sugs| && |r.rows| == |s.rows| && r.modes == s.modes
    ensures Quiet(s.world, r.world)
    decreases |s.sugs| + 1 - n
  {
    if n > |s.sugs| then s
    else
      SweepAccepted(if Stale(Sug(s, n), Accepted, scope, now) then ExpireAccepted(s, n, adapter, picks, now) else s,
                    n + 1, scope, adapter, picks, now)
  }

  function SweepPending(s: State, n: nat, scope: Option<Account>, now: Time): (r: State)
    requires n >= 1
    ensures |r.sugs| == |s.sugs| && r == s.(sugs := r.sugs)
    decreases |s.sugs| + 1 - n
  {
    if n > |s.sugs| then s
    else
      SweepPending(if Stale(Sug(s, n), Pending, scope, now) then SetStatus(s, n, Expired, Some(now)) else s,
                   n + 1, scope, now)
  }

  function Sweep(s: State, scope: Option<Account>, adapter: Option<Account>, picks: map<nat, nat>, now: Time): State {
    SweepPending(SweepAccepted(s, 1, scope, adapter, picks, now), 1, scope, now)
  }

  // ---- Polling of closed orders -----------------------------------------------------------------

  function Open(a: Account): Row -> bool {
    (r: Row) => r.account == a && r.status == AcceptedForRouting && !r.dryRun && r.orderId.Some?
  }

  predicate ReportedTerminal(closed: map<nat, OrderStatus>, r: Row) {
    r.orderId.Some? && r.orderId.value in closed && IsTerminal(closed[r.orderId.value])
  }

  function SyncFrom(rows: seq<Row>, i: nat, a: Account, closed: map<nat, OrderStatus>, now: Time): (r: seq<Row>)
    requires i <= |rows|
    ensures |r| == |rows|
    decreases |rows| - i
  {
    if i == |rows| then rows
    else if Open(a)(rows[i]) && ReportedTerminal(closed, rows[i]) then
      SyncFrom(rows[i := MarkCancelled(rows[i]).(cancelledAt := Some(now))], i + 1, a, closed, now)
    else SyncFrom(rows, i + 1, a, closed, now)
  }

  function Sync(s: State, a: Account, now: Time): State {
    if Count(s.rows, Open(a)) == 0 then s
    else
      var (w1, closed) := ClosedOrders(s.world, a);
      if closed == None then s.(world := w1)
      else s.(world := w1, rows := SyncFrom(s.rows, 0, a, closed.value, now))
  }

  // ---- Inferred manual cancels --------------------------------------------------------------------

  function OpenFor(n: nat): Row -> bool {
    (r: Row) => !r.dryRun && r.sug == Some(n) && r.status == AcceptedForRouting
  }

  predicate CancelledOutside(rows: seq<Row>, n: nat, cutoff: Time) {
    var i := Newest(rows, RealOf(n), |rows|);
    && i < |rows|
    && Count(rows, OpenFor(n)) == 0
    && rows[i].status == BrokerCancelled
    && rows[i].cancelledAt.Some? && rows[i].cancelledAt.value < cutoff
  }

  function InferFrom(s: State, n: nat, a: Account, cutoff: Time, now: Time): (r: State)
    requires n >= 1
    ensures |r.sugs| == |s.sugs| && r == s.(sugs := r.sugs)
    decreases |s.sugs| + 1 - n
  {
    if n > |s.sugs| then s
    else
      var hit := Sug(s, n).account == a && Sug(s, n).status == Accepted && CancelledOutside(s.rows, n, cutoff);
      InferFrom(if hit then SetStatus(s, n, SugStatus.Cancelled, Some(now)) else s, n + 1, a, cutoff, now)
  }

  function InferManualCancels(s: State, a: Account, hours: int, now: Time): State {
    InferFrom(s, 1, a, now - hours * 3600, now)
  }

  // ---- Bulk cancel and weekly reset -----------------------------------------------------------------

  predicate CancelTarget(r: Row) {
    !r.dryRun && r.orderId.Some? && (r.status == AcceptedForRouting || r.status == BrokerCancelled)
  }

  function CancelAllFrom(s: State, i: nat, scope: set<Account>, adapters: set<Account>): (r: State)
    requires i <= |s.rows|
    ensures |r.rows| == |s.rows| && r.sugs == s.sugs && r.modes == s.modes
    ensures Quiet(s.world, r.world)
    decreases |s.rows| - i
  {
    if i == |s.rows| then s
    else if CancelTarget(s.rows[i]) && s.rows[i].account in scope && s.rows[i].account in adapters then
      CancelAllFrom(TryCancel(s, i, s.rows[i].account), i + 1, scope, adapters)
    else CancelAllFrom(s, i + 1, scope, adapters)
  }

  function CancelAll(s: State, scope: set<Account>, adapters: set<Account>): State {
    CancelAllFrom(s, 0, scope, adapters)
  }

  function CancelOrdersOf(s: State, i: nat, n: nat, a: Account): (r: State)
    requires i <= |s.rows|
    ensures |r.rows| == |s.rows| && r.sugs == s.sugs && r.modes == s.modes
    ensures Quiet(s.world, r.world)
    decreases |s.rows| - i
  {
    if i == |s.rows| then s
    else if CancelTarget(s.rows[i]) && s.rows[i].sug == Some(n) then CancelOrdersOf(TryCancel(s, i, a), i + 1, n, a)
    else CancelOrdersOf(s, i + 1, n, a)
  }

  function FilledFor(n: nat): Row -> bool {
    (r: Row) => !r.dryRun && r.sug == Some(n) && r.status == Reported(ActFilled)
  }

  // Monday to Wednesday: this week's Monday; from Thursday on, the next one.
  function NextMonday(day: int): int {
    var weekday := (day + 3) % 7;
    if weekday <= 2 then day - weekday else day + (7 - weekday) % 7
  }

  predicate ResetTarget(s: State, n: nat, scope: set<Account>, side: Option<Side>, week: int)
    requires Known(s.sugs, n)
  {
    var sug := Sug(s, n);
    && sug.account in scope && sug.weekOf == week && sug.status == Accepted
    && (side == None || side.value == sug.order.side)
    && Count(s.rows, FilledFor(n)) == 0
  }

  function ResetFrom(s: State, n: nat, scope: set<Account>, adapters: set<Account>, side: Option<Side>,
                     week: int): (r: State)
    requires n >= 1
    ensures |r.sugs| == |s.sugs| && |r.rows| == |s.rows| && r.modes == s.modes
    ensures Quiet(s.world, r.world)
    decreases |s.sugs| + 1 - n
  {
    if n > |s.sugs| then s
    else if !ResetTarget(s, n, scope, side, week) then ResetFrom(s, n + 1, scope, adapters, side, week)
    else
      var a := Sug(s, n).account;
      var s1 := if a in adapters then CancelOrdersOf(s, 0, n, a) else s;
      ResetFrom(SetStatus(s1, n, Pending, None), n + 1, scope, adapters, side, week)
  }

  function ResetWeek(s: State, scope: set<Account>, adapters: set<Account>, side: Option<Side>, now: Time): State {
    ResetFrom(s, 1, scope, adapters, side, NextMonday(now / DAY))
  }

  // ---- Target reload: accepted suggestions of removed tickers ------------------------------------------

  function CancelOpenOf(s: State, i: nat, n: nat, a: Account): (r: State)
    requires i <= |s.rows|
    ensures |r.rows| == |s.rows| && r.sugs == s.sugs && r.modes == s.modes
    ensures Quiet(s.world, r.world)
    decreases |s.rows| - i
  {
    if i == |s.rows| then s
    else if Open(a)(s.rows[i]) && s.rows[i].sug == Some(n) then CancelOpenOf(TryCancel(s, i, a), i + 1, n, a)
    else CancelOpenOf(s, i + 1, n, a)
  }

  function DropFrom(s: State, n: nat, a: Account, tickers: set<Ticker>, adapter: bool, now: Time): (r: State)
    requires n >= 1
    ensures |r.sugs| == |s.sugs| && |r.rows| == |s.rows| && r.modes == s.modes
    ensures Quiet(s.world, r.world)
    decreases |s.sugs| + 1 - n
  {
    if n > |s.sugs| then s
    else
      var sug := Sug(s, n);
      if sug.status == Accepted && sug.weekOf == CurrentWeek(now) && sug.account == a
          && sug.order.ticker !in tickers then
        var s1 := SetStatus(s, n, Expired, Some(now));
        DropFrom(if adapter then CancelOpenOf(s1, 0, n, a) else s1, n + 1, a, tickers, adapter, now)
      else DropFrom(s, n + 1, a, tickers, adapter, now)
  }

  function DropRemoved(s: State, a: Account, tickers: set<Ticker>, adapter: bool, now: Time): State {
    DropFrom(s, 1, a, tickers, adapter, now)
  }

  // ---- Modes ---------------------------------------------------------------------------------------------------

  function Promote(s: State, a: Account, mode: Mode): State {
    s.(modes := s.modes[a := mode])
  }
}
