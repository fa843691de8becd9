// Runs of the whole system: any interleaving of the steps that change suggestions, rows,
// modes or the broker.
module Runs {
  import opened Options
  import opened OrderIds
  import opened Trading
  import opened Broker
  import opened AutoTrade
  import opened Ledger
  import opened Storage
  import opened Reconciliation
  import opened Consistency
  import opened PassSafety
  import opened Rollback

  datatype Step =
    | Decides(n: nat, accept: bool, now: Time)
    | Passes(a: Account, caps: Option<Caps>, now: Time)
    | Unaccepts(n: nat, a: Account, now: Time)
    | Sweeps(scope: Option<Account>, adapter: Option<Account>, picks: map<nat, nat>, now: Time)
    | Reconciles(a: Account, acts: seq<Activity>, now: Time)
    | Syncs(a: Account, now: Time)
    | Infers(a: Account, hours: int, now: Time)
    | CancelsAll(accounts: set<Account>, adapters: set<Account>)
    | ResetsWeek(accounts: set<Account>, adapters: set<Account>, side: Option<Side>, now: Time)
    | DropsRemoved(a: Account, tickers: set<Ticker>, reachable: bool, now: Time)
    | Stores(a: Account, week: int, drafts: seq<Draft>, notes: map<int, string>, expires: Time, now: Time)
    | Promotes(a: Account, mode: Mode)
    | Stops(a: Account, now: Time)
    | Elapses(next: Book)

  function Apply(s: State, step: Step): State {
    match step
    case Decides(n, accept, now) => Decide(s, n, accept, now)
    case Passes(a, caps, now) => Pass(s, a, caps, now).s
    case Unaccepts(n, a, now) => Unaccept(s, n, a, now).0
    case Sweeps(scope, adapter, picks, now) => Sweep(s, scope, adapter, picks, now)
    case Reconciles(a, acts, now) => Reconcile(s, a, acts, now)
    case Syncs(a, now) => Sync(s, a, now)
    case Infers(a, hours, now) => InferManualCancels(s, a, hours, now)
    case CancelsAll(accounts, adapters) => CancelAll(s, accounts, adapters)
    case ResetsWeek(accounts, adapters, side, now) => ResetWeek(s, accounts, adapters, side, now)
    case DropsRemoved(a, tickers, reachable, now) => DropRemoved(s, a, tickers, reachable, now)
    case Stores(a, week, drafts, notes, expires, now) => s.(sugs :=
        Finalize(s.sugs, a, week, drafts, notes, expires, now).0)
    case Promotes(a, mode) => Promote(s, a, mode)
    case Stops(a, now) => Kill(s, a, now)
    case Elapses(next) => s.(world := s.world.(book := next))
  }

  // An activity the broker may report for account a: a closed order of that account, with the
  // order's own client id. Ticker, side and fill may be anything.
  ghost predicate TrueActivity(b: Book, a: Account, act: Activity) {
    && Holds(b, a, act.order)
    && !IsLive(b.orders[act.order].status)
    && act.clientId == b.orders[act.order].clientId
  }

  // What a run may contain: activities are true and the broker moves lawfully.
  ghost predicate Enabled(s: State, step: Step) {
    match step
    case Reconciles(a, acts, _) => forall j :: 0 <= j < |acts| ==> TrueActivity(s.world.book, a, acts[j])
    case Elapses(next) => Evolves(s.world.book, next)
    case _ => true
  }

  function Run(s: State, steps: seq<Step>): State
    decreases |steps|
  {
    if steps == [] then s else Run(Apply(s, steps[0]), steps[1..])
  }

  ghost predicate Lawful(s: State, steps: seq<Step>)
    decreases |steps|
  {
    steps == [] || (Enabled(s, steps[0]) && Lawful(Apply(s, steps[0]), steps[1..]))
  }

  // ---- Order cancellation --------------------------------------------------------------------

  lemma ClosedIsNotWorking(o: BrokerOrder)
    requires !IsLive(o.status)
    ensures !Working(o)
  {
  }

  lemma CancelWorkingKeeps(s: State, i: nat, a: Account)
    requires Inv(s) && i < |s.rows| && s.rows[i].orderId.Some? && !s.rows[i].dryRun
    ensures Inv(CancelWorking(s, i, a).0)
  {
    hide Inv, GetOrder, CancelOrder, Working, Holds;
    var o := s.rows[i].orderId.value;
    GetOrderKeeps(s, a, o);
    var (w1, conf) := GetOrder(s.world, a, o);
    var s1 := s.(world := w1);
    CancelOrderKeeps(s1, a, o);
    var (w2, ok) := CancelOrder(w1, a, o);
    if ok {
      SettleKeeps(s.(world := w2), i, MarkCancelled(s.rows[i]));
    }
    if conf.Some? && IsTerminal(conf.value.status) {
      ClosedIsNotWorking(w1.book.orders[o]);
      SettleKeeps(s1, i, MarkCancelled(s.rows[i]));
    }
  }

  lemma TryCancelKeeps(s: State, i: nat, a: Account)
    requires Inv(s) && i < |s.rows| && s.rows[i].orderId.Some? && !s.rows[i].dryRun
    ensures Inv(TryCancel(s, i, a))
  {
    hide Inv, CancelOrder, Working, Holds;
    var o := s.rows[i].orderId.value;
    CancelOrderKeeps(s, a, o);
    var (w1, ok) := CancelOrder(s.world, a, o);
    if ok {
      SettleKeeps(s.(world := w1), i, MarkCancelled(s.rows[i]));
    }
  }

  lemma SetStatusKeeps(s: State, n: nat, st: SugStatus, acted: Option<Time>)
    requires Inv(s) && Known(s.sugs, n)
    ensures Inv(SetStatus(s, n, st, acted))
  {
    SugsKeep(s, SetStatus(s, n, st, acted).sugs);
  }

  lemma UnacceptKeeps(s: State, n: nat, a: Account, now: Time)
    requires Inv(s)
    ensures Inv(Unaccept(s, n, a, now).0)
  {
    hide Inv, CancelWorking;
    if Known(s.sugs, n) && Sug(s, n).account == a && Sug(s, n).status == Accepted {
      var i := Newest(s.rows, Placed(n, a), |s.rows|);
      if i < |s.rows| {
        CancelWorkingKeeps(s, i, a);
        SetStatusKeeps(CancelWorking(s, i, a).0, n, SugStatus.Cancelled, Some(now));
      } else {
        SetStatusKeeps(s, n, SugStatus.Cancelled, Some(now));
      }
    }
  }

  // ---- Sweep, sync, inference -------------------------------------------------------------------

  lemma {:induction false} SweepAcceptedKeeps(s: State, n: nat, scope: Option<Account>, adapter: Option<Account>,
                                              picks: map<nat, nat>, now: Time)
    requires Inv(s) && n >= 1
    ensures Inv(SweepAccepted(s, n, scope, adapter, picks, now))
    decreases |s.sugs| + 1 - n
  {
    hide Inv, CancelWorking, PlacedRow;
    if n <= |s.sugs| {
      if Stale(Sug(s, n), Accepted, scope, now) {
        var i := PlacedRow(s.rows, n, picks);
        var s1 := if adapter.Some? && i < |s.rows| then CancelWorking(s, i, adapter.value).0 else s;
        if adapter.Some? && i < |s.rows| {
          CancelWorkingKeeps(s, i, adapter.value);
        }
        SetStatusKeeps(s1, n, Expired, Some(now));
        SweepAcceptedKeeps(ExpireAccepted(s, n, adapter, picks, now), n + 1, scope, adapter, picks, now);
      } else {
        SweepAcceptedKeeps(s, n + 1, scope, adapter, picks, now);
      }
    }
  }

  lemma {:induction false} SweepPendingKeeps(s: State, n: nat, scope: Option<Account>, now: Time)
    requires Inv(s) && n >= 1
    ensures Inv(SweepPending(s, n, scope, now))
    decreases |s.sugs| + 1 - n
  {
    hide Inv;
    if n <= |s.sugs| {
      if Stale(Sug(s, n), Pending, scope, now) {
        SetStatusKeeps(s, n, Expired, Some(now));
        SweepPendingKeeps(SetStatus(s, n, Expired, Some(now)), n + 1, scope, now);
      } else {
        SweepPendingKeeps(s, n + 1, scope, now);
      }
    }
  }

  lemma {:induction false} SyncFromKeeps(s: State, i: nat, a: Account, closed: map<nat, OrderStatus>, now: Time)
    requires Inv(s) && i <= |s.rows|
    requires forall o :: o in closed && o in s.world.book.orders ==> !Working(s.world.book.orders[o])
    ensures Inv(s.(rows := SyncFrom(s.rows, i, a, closed, now)))
    decreases |s.rows| - i
  {
    hide Inv, Working;
    if i == |s.rows| {
      assert s.(rows := s.rows) == s;
    } else if Open(a)(s.rows[i]) && ReportedTerminal(closed, s.rows[i]) {
      var q := MarkCancelled(s.rows[i]).(cancelledAt := Some(now));
      SettleKeeps(s, i, q);
      SyncFromKeeps(s.(rows := s.rows[i := q]), i + 1, a, closed, now);
    } else {
      SyncFromKeeps(s, i + 1, a, closed, now);
    }
  }

  lemma SyncKeeps(s: State, a: Account, now: Time)
    requires Inv(s)
    ensures Inv(Sync(s, a, now))
  {
    hide Inv;
    BeginKeeps(s, ListCall(a));
    var (w1, closed) := ClosedOrders(s.world, a);
    if closed.Some? {
      SyncFromKeeps(s.(world := w1), 0, a, closed.value, now);
    }
  }

  lemma {:induction false} InferFromKeeps(s: State, n: nat, a: Account, cutoff: Time, now: Time)
    requires Inv(s) && n >= 1
    ensures Inv(InferFrom(s, n, a, cutoff, now))
    decreases |s.sugs| + 1 - n
  {
    hide Inv, CancelledOutside;
    if n <= |s.sugs| {
      SetStatusKeeps(s, n, SugStatus.Cancelled, Some(now));
      InferFromKeeps(SetStatus(s, n, SugStatus.Cancelled, Some(now)), n + 1, a, cutoff, now);
      InferFromKeeps(s, n + 1, a, cutoff, now);
    }
  }

  // ---- Bulk cancel, reset, reload -----------------------------------------------------------------

  lemma {:induction false} CancelAllFromKeeps(s: State, i: nat, scope: set<Account>, adapters: set<Account>)
    requires Inv(s) && i <= |s.rows|
    ensures Inv(CancelAllFrom(s, i, scope, adapters))
    decreases |s.rows| - i
  {
    hide Inv, TryCancel;
    if i < |s.rows| {
      if CancelTarget(s.rows[i]) {
        TryCancelKeeps(s, i, s.rows[i].account);
        CancelAllFromKeeps(TryCancel(s, i, s.rows[i].account), i + 1, scope, adapters);
      }
      CancelAllFromKeeps(s, i + 1, scope, adapters);
    }
  }

  lemma {:induction false} CancelOrdersOfKeeps(s: State, i: nat, n: nat, a: Account)
    requires Inv(s) && i <= |s.rows|
    ensures Inv(CancelOrdersOf(s, i, n, a))
    decreases |s.rows| - i
  {
    hide Inv, TryCancel;
    if i < |s.rows| {
      if CancelTarget(s.rows[i]) {
        TryCancelKeeps(s, i, a);
        CancelOrdersOfKeeps(TryCancel(s, i, a), i + 1, n, a);
      }
      CancelOrdersOfKeeps(s, i + 1, n, a);
    }
  }

  lemma {:induction false} ResetFromKeeps(s: State, n: nat, scope: set<Account>, adapters: set<Account>,
                                          side: Option<Side>, week: int)
    requires Inv(s) && n >= 1
    ensures Inv(ResetFrom(s, n, scope, adapters, side, week))
    decreases |s.sugs| + 1 - n
  {
    hide Inv, ResetTarget, CancelOrdersOf;
    if n <= |s.sugs| {
      if ResetTarget(s, n, scope, side, week) {
        var a := Sug(s, n).account;
        CancelOrdersOfKeeps(s, 0, n, a);
        var s1 := if a in adapters then CancelOrdersOf(s, 0, n, a) else s;
        SetStatusKeeps(s1, n, Pending, None);
        ResetFromKeeps(SetStatus(s1, n, Pending, None), n + 1, scope, adapters, side, week);
      } else {
        ResetFromKeeps(s, n + 1, scope, adapters, side, week);
      }
    }
  }

  lemma {:induction false} CancelOpenOfKeeps(s: State, i: nat, n: nat, a: Account)
    requires Inv(s) && i <= |s.rows|
    ensures Inv(CancelOpenOf(s, i, n, a))
    decreases |s.rows| - i
  {
    hide Inv, TryCancel;
    if i < |s.rows| {
      if Open(a)(s.rows[i]) {
        TryCancelKeeps(s, i, a);
        CancelOpenOfKeeps(TryCancel(s, i, a), i + 1, n, a);
      }
      CancelOpenOfKeeps(s, i + 1, n, a);
    }
  }

  lemma {:induction false} DropFromKeeps(s: State, n: nat, a: Account, tickers: set<Ticker>, adapter: bool, now: Time)
    requires Inv(s) && n >= 1
    ensures Inv(DropFrom(s, n, a, tickers, adapter, now))
    decreases |s.sugs| + 1 - n
  {
    hide Inv, CancelOpenOf;
    if n <= |s.sugs| {
      var sug := Sug(s, n);
      if sug.status == Accepted && sug.weekOf == CurrentWeek(now) && sug.account == a && sug.order.ticker !in tickers {
        var s1 := SetStatus(s, n, Expired, Some(now));
        SetStatusKeeps(s, n, Expired, Some(now));
        CancelOpenOfKeeps(s1, 0, n, a);
        DropFromKeeps(if adapter then CancelOpenOf(s1, 0, n, a) else s1, n + 1, a, tickers, adapter, now);
      } else {
        DropFromKeeps(s, n + 1, a, tickers, adapter, now);
      }
    }
  }

  lemma {:induction false} StoreFromKeeps(s: State, a: Account, week: int, ds: seq<Draft>, j: nat, expires: Time,
                                          now: Time, ids: seq<nat>)
    requires Inv(s) && j <= |ds|
    ensures Inv(s.(sugs := StoreFrom(s.sugs, a, week, ds, j, expires, now, ids).0))
    decreases |ds| - j
  {
    hide Inv;
    if j == |ds| {
      assert s.(sugs := s.sugs) == s;
    } else {
      var sugs := Store(s.sugs, a, week, ds[j], expires, now);
      SugsKeep(s, sugs);
      StoreFromKeeps(s.(sugs := sugs), a, week, ds, j + 1, expires, now, ids + [Slot(s.sugs, a, week, ds[j])]);
    }
  }

  lemma {:induction false} AnnotateKeeps(s: State, ids: seq<nat>, notes: map<int, string>, j: nat)
    requires Inv(s) && j <= |ids|
    ensures Inv(s.(sugs := Annotate(s.sugs, ids, notes, j)))
    decreases |ids| - j
  {
    hide Inv;
    if j == |ids| {
      assert s.(sugs := s.sugs) == s;
    } else {
      var n := ids[j];
      if j in notes && Known(s.sugs, n) {
        var sugs := s.sugs[n - 1 := s.sugs[n - 1].(rationale := Some(notes[j]))];
        SugsKeep(s, sugs);
        AnnotateKeeps(s.(sugs := sugs), ids, notes, j + 1);
      }
      AnnotateKeeps(s, ids, notes, j + 1);
    }
  }

  lemma FinalizeKeeps(s: State, a: Account, week: int, ds: seq<Draft>, notes: map<int, string>, expires: Time,
                      now: Time)
    requires Inv(s)
    ensures Inv(s.(sugs := Finalize(s.sugs, a, week, ds, notes, expires, now).0))
  {
    hide Inv;
    StoreFromKeeps(s, a, week, ds, 0, expires, now, []);
    var (stored, ids) := StoreAll(s.sugs, a, week, ds, expires, now);
    AnnotateKeeps(s.(sugs := stored), ids, notes, 0);
  }

  // ---- Reconciliation --------------------------------------------------------------------------------

  // The match names a suggestion of this account, and the one a printed id names.
  ghost predicate GoodMatch(sugs: seq<Suggestion>, a: Account, m: MatchResult) {
    && (m.sug.Some? ==> Known(sugs, m.sug.value) && sugs[m.sug.value - 1].account == a)
    && (EngineSuggestion(m.act).Some? ==> m.sug == EngineSuggestion(m.act))
  }

  lemma MatchIsGood(s: State, a: Account, act: Activity)
    requires Inv(s) && TrueActivity(s.world.book, a, act)
    ensures GoodMatch(s.sugs, a, Match(s.sugs, a, act))
  {
    var order := s.world.book.orders[act.order];
    assert OrderOK(order, s.sugs, s.rows);
    if order.origin.Some? {
      ParsePrint(order.origin.value.sug, order.origin.value.retry);
    }
  }

  lemma PersistRowKeeps(s: State, m: MatchResult, a: Account, now: Time)
    requires Inv(s) && TrueActivity(s.world.book, a, m.act) && GoodMatch(s.sugs, a, m) && m.act.filledAt.Some?
    ensures Inv(s.(rows := PersistRow(s.rows, m, a, now)))
  {
    var order := s.world.book.orders[m.act.order];
    assert OrderOK(order, s.sugs, s.rows);
    hide Inv, RealizedPnl;
    assert !Working(order);
    var i := First(s.rows, Records(a, m.act.order));
    var rows := PersistRow(s.rows, m, a, now);
    if i < |s.rows| {
      assert rows == s.rows[i := rows[i]];
      SettleKeeps(s, i, rows[i]);
    } else {
      var r := rows[|s.rows|];
      forall n: nat, k: nat {:trigger Print(n, k)} | r.clientId == Some(Print(n, k))
        ensures r.sug == Some(n) && k <= Count(s.rows, RealOf(n))
      {
        ParsePrint(n, k);
        PrintInjective(order.origin.value.sug, order.origin.value.retry, n, k);
      }
      AddKeeps(s, r, s.world.unrecorded);
      assert s.world.(unrecorded := s.world.unrecorded) == s.world;
    }
  }

  lemma {:induction false} PersistFromKeeps(s: State, ms: seq<MatchResult>, j: nat, a: Account, now: Time)
    requires Inv(s) && Timed(ms) && j <= |ms|
    requires forall i :: 0 <= i < |ms| ==> TrueActivity(s.world.book, a, ms[i].act) && GoodMatch(s.sugs, a, ms[i])
    ensures Inv(PersistFrom(s, ms, j, a, now))
    decreases |ms| - j
  {
    hide Inv, PersistRow, TrueActivity;
    if j < |ms| {
      PersistRowKeeps(s, ms[j], a, now);
      var s1 := s.(rows := PersistRow(s.rows, ms[j], a, now));
      SugsKeep(s1, PersistSug(s.sugs, ms[j]));
      PersistFromKeeps(s1.(sugs := PersistSug(s.sugs, ms[j])), ms, j + 1, a, now);
    }
  }

  lemma ReconcileKeeps(s: State, a: Account, acts: seq<Activity>, now: Time)
    requires Inv(s) && forall j :: 0 <= j < |acts| ==> TrueActivity(s.world.book, a, acts[j])
    ensures Inv(Reconcile(s, a, acts, now))
  {
    hide Inv, TrueActivity;
    var ms := MatchAll(s.sugs, a, acts);
    forall i | 0 <= i < |ms|
      ensures TrueActivity(s.world.book, a, ms[i].act) && GoodMatch(s.sugs, a, ms[i])
    {
      MatchIsGood(s, a, ms[i].act);
    }
    PersistFromKeeps(s, ms, 0, a, now);
  }

  // ---- Every step, every run ----------------------------------------------------------------------------

  lemma PromoteKeeps(s: State, a: Account, mode: Mode)
    requires Inv(s)
    ensures Inv(Promote(s, a, mode))
  {
  }

  lemma ElapseKeeps(s: State, next: Book)
    requires Inv(s) && Evolves(s.world.book, next)
    ensures Inv(s.(world := s.world.(book := next)))
  {
  }

  lemma StepKeeps(s: State, step: Step)
    requires Inv(s) && Enabled(s, step)
    ensures Inv(Apply(s, step))
  {
    hide Inv, Pass, Kill, Unaccept, Evolves, TrueActivity;
    match step
    case Decides(n, accept, now) =>
      if Known(s.sugs, n) {
        SetStatusKeeps(s, n, if accept then Accepted else Rejected, Some(now));
      }
    case Passes(a, caps, now) =>
      if Pass(s, a, caps, now).escaped {
        EscapedPassForgets(s, a, caps, now);
      } else {
        PassIsSafe(s, a, caps, now);
      }
    case Unaccepts(n, a, now) => UnacceptKeeps(s, n, a, now);
    case Sweeps(scope, adapter, picks, now) =>
      SweepAcceptedKeeps(s, 1, scope, adapter, picks, now);
      SweepPendingKeeps(SweepAccepted(s, 1, scope, adapter, picks, now), 1, scope, now);
    case Reconciles(a, acts, now) => ReconcileKeeps(s, a, acts, now);
    case Syncs(a, now) => SyncKeeps(s, a, now);
    case Infers(a, hours, now) => InferFromKeeps(s, 1, a, now - hours * 3600, now);
    case CancelsAll(accounts, adapters) => CancelAllFromKeeps(s, 0, accounts, adapters);
    case ResetsWeek(accounts, adapters, side, now) => ResetFromKeeps(s, 1, accounts, adapters, side,
        NextMonday(now / DAY));
    case DropsRemoved(a, tickers, reachable, now) => DropFromKeeps(s, 1, a, tickers, reachable, now);
    case Stores(a, week, drafts, notes, expires, now) => FinalizeKeeps(s, a, week, drafts, notes, expires, now);
    case Promotes(a, mode) => PromoteKeeps(s, a, mode);
    case Stops(a, now) => KillKeeps(s, a, now);
    case Elapses(next) => ElapseKeeps(s, next);
  }

  // The ledger simulates the broker over every lawful run: each working engine order that is
  // recorded has a real row in accepted_for_routing, and no account and ticker has two such
  // rows. Passes an exception escapes from are included.
  lemma {:induction false} RunKeeps(s: State, steps: seq<Step>)
    requires Inv(s) && Lawful(s, steps)
    ensures Inv(Run(s, steps))
    decreases |steps|
  {
    hide Inv, Enabled, Apply;
    if steps != [] {
      StepKeeps(s, steps[0]);
      RunKeeps(Apply(s, steps[0]), steps[1..]);
    }
  }

  // A ledger with no rows, and a broker the engine never used.
  ghost predicate Initial(s: State) {
    && s.rows == [] && s.world.unrecorded == {}
    && forall o :: o in s.world.book.orders ==>
         o < s.world.book.nextId && s.world.book.orders[o].origin == None
             && NotEngineId(s.world.book.orders[o].clientId)
  }

  // ---- Two orders for one ticker ---------------------------------------------------------------------

  // The kill switch stopped the pass at the submission that created order o.
  ghost predicate Kills(s: State, step: Step, o: nat) {
    && step.Passes?
    && var r := Pass(s, step.a, step.caps, step.now);
    && !r.escaped && ModeOf(s.modes, step.a) != Off && ModeOf(r.s.modes, step.a) == Off
    && StrandedBy(s.world, r, step.a, o)
  }

  // An exception escaped from the pass after it had order o accepted.
  ghost predicate Forgets(s: State, step: Step, o: nat) {
    && step.Passes?
    && var r := Pass(s, step.a, step.caps, step.now);
    && r.escaped && o in r.s.world.book.orders && o !in s.world.book.orders
    && r.s.world.book.orders[o].origin.Some? && NextFor(r.s, r.s.world.book.orders[o])
  }

  // An accepted order is left without a row only so.
  lemma StepStrands(s: State, step: Step, o: nat)
    requires Inv(s) && o in Apply(s, step).world.unrecorded && o !in s.world.unrecorded
    ensures Kills(s, step, o) || Forgets(s, step, o)
  {
    hide Inv, Kill, PassFrom, SweepAccepted, CancelAllFrom, ResetFrom, DropFrom, CancelWorking, PersistFrom,
        ClosedOrders, StrandedBy, NextFor;
    match step
    case Passes(a, caps, now) =>
      if ModeOf(s.modes, a) != Off {
        if Pass(s, a, caps, now).escaped {
          EscapedPassForgets(s, a, caps, now);
        } else {
          PassIsSafe(s, a, caps, now);
        }
      }
    case _ =>
  }

  // Order o was left without a row by the i-th step of the run.
  ghost predicate StrandedAt(s: State, steps: seq<Step>, i: nat, o: nat) {
    && i < |steps|
    && (Kills(Run(s, steps[..i]), steps[i], o) || Forgets(Run(s, steps[..i]), steps[i], o))
  }

  lemma {:induction false} RunStrands(s: State, steps: seq<Step>, o: nat) returns (i: nat)
    requires Inv(s) && Lawful(s, steps) && o in Run(s, steps).world.unrecorded && o !in s.world.unrecorded
    ensures StrandedAt(s, steps, i, o)
    decreases |steps|
  {
    hide Inv, Apply, Enabled, Kills, Forgets;
    var s1 := Apply(s, steps[0]);
    if o in s1.world.unrecorded {
      StepStrands(s, steps[0], o);
      i := 0;
      assert steps[..0] == [];
    } else {
      StepKeeps(s, steps[0]);
      var i1 := RunStrands(s1, steps[1..], o);
      i := i1 + 1;
      assert steps[..i][1..] == steps[1..][..i1] && steps[..i][0] == steps[0];
    }
  }

  // From the start of the system on: of two distinct orders the engine has working for one
  // account and ticker, one was left without a row by a step of the run: by the submission
  // that fired the kill switch, or by a pass an exception escaped from.
  lemma AtMostOneWorkingOrder(s: State, steps: seq<Step>, o: nat, p: nat)
    requires Initial(s) && Lawful(s, steps) && o != p
    requires var b := Run(s, steps).world.book;
             && o in b.orders && p in b.orders
             && Working(b.orders[o]) && Working(b.orders[p])
             && b.orders[o].account == b.orders[p].account && b.orders[o].ticker == b.orders[p].ticker
    ensures exists i, x :: x in {o, p} && StrandedAt(s, steps, i, x)
  {
    assert Inv(s);
    hide Inv, Lawful, Run, StrandedAt;
    RunKeeps(s, steps);
    var t := Run(s, steps);
    if o !in t.world.unrecorded && p !in t.world.unrecorded {
      OneWorkingOrder(t, o, p);
    } else {
      var x := if o in t.world.unrecorded then o else p;
      var i := RunStrands(s, steps, x);
    }
  }

  // So in a run no exception escapes from, only an order whose submission fired the kill
  // switch can be a second one.
  lemma OnlyKilledOrdersAreExtra(s: State, steps: seq<Step>, o: nat, p: nat)
    requires Initial(s) && Lawful(s, steps) && o != p
    requires forall i :: 0 <= i < |steps| && steps[i].Passes? ==>
               !Pass(Run(s, steps[..i]), steps[i].a, steps[i].caps, steps[i].now).escaped
    requires var b := Run(s, steps).world.book;
             && o in b.orders && p in b.orders
             && Working(b.orders[o]) && Working(b.orders[p])
             && b.orders[o].account == b.orders[p].account && b.orders[o].ticker == b.orders[p].ticker
    ensures exists i, x :: x in {o, p} && 0 <= i < |steps| && Kills(Run(s, steps[..i]), steps[i], x)
  {
    hide Inv, Lawful, Run, Pass, Initial, Working;
    AtMostOneWorkingOrder(s, steps, o, p);
    var i: nat, x: nat :| x in {o, p} && StrandedAt(s, steps, i, x);
    assert Kills(Run(s, steps[..i]), steps[i], x);
  }

  // Every order the broker ever accepted from the engine has a real row naming it, and while
  // it works one claiming it, unless a step of the run left it without one.
  lemma EveryOrderIsAccounted(s: State, steps: seq<Step>, o: nat)
    requires Initial(s) && Lawful(s, steps)
    requires o in Run(s, steps).world.book.orders && Run(s, steps).world.book.orders[o].origin.Some?
    requires forall i: nat :: !StrandedAt(s, steps, i, o)
    ensures exists i :: 0 <= i < |Run(s, steps).rows| && Names(Run(s, steps).rows[i], o)
    ensures Working(Run(s, steps).world.book.orders[o]) ==>
              exists i :: 0 <= i < |Run(s, steps).rows| && Covers(Run(s, steps).rows[i], o)
  {
    assert Inv(s);
    hide Run, Lawful, StrandedAt;
    RunKeeps(s, steps);
    if o in Run(s, steps).world.unrecorded {
      var i := RunStrands(s, steps, o);
    }
  }

  // Either way, after a promotion the order is still the one the suggestion's next submission
  // asks for: it is handed over and recorded, and no other is created.
  lemma StrandedOrderIsRecovered(s: State, step: Step, o: nat, mode: Mode, now: Time)
    requires Inv(s) && (Kills(s, step, o) || Forgets(s, step, o))
    requires var t := Promoted(s, step, o, mode);
             var order := t.world.book.orders[o];
             Undisturbed(t.world, order.account, Print(order.origin.value.sug,
                 NextRetry(t.rows, order.origin.value.sug)), o)
    ensures var t := Promoted(s, step, o, mode);
            var order := t.world.book.orders[o];
            Known(t.sugs, order.origin.value.sug) && Recovers(t, order.account, order.origin.value.sug, o, now)
  {
    StrandedIsNext(s, step, o);
    hide Inv, Apply, Kills, Forgets, Undisturbed, Print, Count, AllCancelled, Recovers;
    var t := Promoted(s, step, o, mode);
    var order := t.world.book.orders[o];
    PromoteKeeps(Apply(s, step), order.account, mode);
    SameLedgerSameNext(Apply(s, step), t, order);
    ForgottenOrderIsRecovered(t, order.account, order.origin.value.sug, o, now);
  }

  lemma StrandedIsNext(s: State, step: Step, o: nat)
    requires Inv(s) && (Kills(s, step, o) || Forgets(s, step, o))
    ensures var t := Apply(s, step);
            && Inv(t) && o in t.world.book.orders
            && var order := t.world.book.orders[o];
            && order.origin.Some? && NextFor(t, order)
            && Known(t.sugs, order.origin.value.sug) && Sug(t, order.origin.value.sug).account == order.account
  {
    StepKeeps(s, step);
    hide Inv, Pass, Count, AllCancelled, Print;
    assert Apply(s, step) == Pass(s, step.a, step.caps, step.now).s;
  }

  // The state after the step that left order o without a row, its account promoted.
  function Promoted(s: State, step: Step, o: nat, mode: Mode): State
    requires o in Apply(s, step).world.book.orders
  {
    Promote(Apply(s, step), Apply(s, step).world.book.orders[o].account, mode)
  }

  // Two recorded ones are the same order, and it has its open row.
  lemma OneRecordedWorkingOrder(s: State, steps: seq<Step>, o: nat, p: nat)
    requires Initial(s) && Lawful(s, steps)
    requires var b := Run(s, steps).world.book;
             && o in b.orders && p in b.orders
             && Working(b.orders[o]) && Working(b.orders[p])
             && b.orders[o].account == b.orders[p].account && b.orders[o].ticker == b.orders[p].ticker
    requires o !in Run(s, steps).world.unrecorded && p !in Run(s, steps).world.unrecorded
    ensures o == p
    ensures exists i :: 0 <= i < |Run(s, steps).rows| && Covers(Run(s, steps).rows[i], o)
  {
    assert Inv(s);
    RunKeeps(s, steps);
    OneWorkingOrder(Run(s, steps), o, p);
  }

  // The pass runs to its end: nothing escapes and the kill switch stays untouched.
  predicate Completes(s: State, step: Step) {
    step.Passes? ==>
      ModeOf(s.modes, step.a) == Off
      || (!Pass(s, step.a, step.caps, step.now).escaped && ModeOf(Apply(s, step).modes, step.a) != Off)
  }

  predicate AllComplete(s: State, steps: seq<Step>)
    decreases |steps|
  {
    steps == [] || (Completes(s, steps[0]) && AllComplete(Apply(s, steps[0]), steps[1..]))
  }

  // Only a pass that is cut short leaves an accepted order without a row.
  lemma StepLosesNothing(s: State, step: Step)
    requires Inv(s) && Completes(s, step)
    ensures Apply(s, step).world.unrecorded <= s.world.unrecorded
  {
    hide Inv, Kill, PassFrom, SweepAccepted, CancelAllFrom, ResetFrom, DropFrom, CancelWorking, PersistFrom,
        ClosedOrders;
    match step
    case Passes(a, caps, now) =>
      if ModeOf(s.modes, a) != Off {
        PassIsSafe(s, a, caps, now);
      }
    case _ =>
  }

  lemma {:induction false} RunLosesNothing(s: State, steps: seq<Step>)
    requires Inv(s) && Lawful(s, steps) && AllComplete(s, steps)
    ensures Run(s, steps).world.unrecorded <= s.world.unrecorded
    decreases |steps|
  {
    hide Inv, Enabled, Apply, Completes;
    if steps != [] {
      StepKeeps(s, steps[0]);
      StepLosesNothing(s, steps[0]);
      RunLosesNothing(Apply(s, steps[0]), steps[1..]);
    }
  }

  // If every pass completes, every order the broker ever accepted from the engine has a real
  // row naming it, and every working one a row claiming it.
  lemma NoOrderIsLost(s: State, steps: seq<Step>, o: nat)
    requires Initial(s) && Lawful(s, steps) && AllComplete(s, steps)
    requires o in Run(s, steps).world.book.orders && Run(s, steps).world.book.orders[o].origin.Some?
    ensures exists i :: 0 <= i < |Run(s, steps).rows| && Names(Run(s, steps).rows[i], o)
    ensures Working(Run(s, steps).world.book.orders[o]) ==>
              exists i :: 0 <= i < |Run(s, steps).rows| && Covers(Run(s, steps).rows[i], o)
  {
    assert Inv(s);
    hide Run, Lawful, AllComplete;
    RunKeeps(s, steps);
    RunLosesNothing(s, steps);
  }

  // ---- The kill switch sticks ---------------------------------------------------------------------------

  lemma SubmitTouchesOneAccount(s: State, b: Account, n: nat, now: Time, a: Account)
    requires Known(s.sugs, n) && a != b
    ensures var t := SubmitFresh(s, b, n, now);
            ModeOf(t.s.modes, a) == ModeOf(s.modes, a) && NoSubmitsOf(s.world.calls, t.s.world.calls, a)
  {
    hide Kill, SubmitOrder, GetOrder;
  }

  lemma TurnTouchesOneAccount(s: State, b: Account, mode: Mode, n: nat, caps: Option<Caps>, now: Time, a: Account)
    requires Known(s.sugs, n) && a != b
    ensures var t := Process(s, b, mode, n, caps, now);
            ModeOf(t.s.modes, a) == ModeOf(s.modes, a) && NoSubmitsOf(s.world.calls, t.s.world.calls, a)
  {
    hide Guards, SubmitFresh, GetOrder, Newest;
    var s1 := Guards(s, b, mode, n, caps, now).0;
    SubmitTouchesOneAccount(s1, b, n, now, a);
    var i := Newest(s1.rows, Readoptable(n), |s1.rows|);
    if i < |s1.rows| {
      SubmitTouchesOneAccount(s1.(world := GetOrder(s1.world, b, s1.rows[i].orderId.value).0), b, n, now, a);
    }
  }

  lemma {:induction false} PassTouchesOneAccount(s: State, b: Account, mode: Mode, ids: seq<nat>, j: nat,
                                                 caps: Option<Caps>, now: Time, outcomes: seq<Outcome>, a: Account)
    requires AllKnown(s, ids) && j <= |ids| && a != b
    ensures var r := PassFrom(s, b, mode, ids, j, caps, now, outcomes);
            && ModeOf(r.s.modes, a) == ModeOf(s.modes, a)
            && NoSubmitsOf(s.world.calls, r.s.world.calls, a)
    decreases |ids| - j
  {
    hide Process;
    if j < |ids| {
      TurnTouchesOneAccount(s, b, mode, ids[j], caps, now, a);
      var t := Process(s, b, mode, ids[j], caps, now);
      if t.Turn? && !t.stop {
        PassTouchesOneAccount(t.s, b, mode, ids, j + 1, caps, now, outcomes + [t.outcome], a);
      }
    }
  }

  lemma StepKeepsOff(s: State, step: Step, a: Account)
    requires ModeOf(s.modes, a) == Off
    requires step.Promotes? && step.a == a ==> step.mode == Off
    ensures ModeOf(Apply(s, step).modes, a) == Off
    ensures NoSubmitsOf(s.world.calls, Apply(s, step).world.calls, a)
  {
    hide Kill, PassFrom, SweepAccepted, CancelAllFrom, ResetFrom, DropFrom, CancelWorking, PersistFrom;
    match step
    case Passes(b, caps, now) =>
      if a != b {
        PassTouchesOneAccount(s, b, ModeOf(s.modes, b), Fetch(s, b, now), 0, caps, now, [], a);
      }
    case _ =>
  }

  // Once an account's mode is OFF (the kill switch leaves it there), no run of any length
  // submits an order for it until an operator promotes it again.
  lemma {:induction false} OffSticks(s: State, steps: seq<Step>, a: Account)
    requires ModeOf(s.modes, a) == Off
    requires forall i :: 0 <= i < |steps| && steps[i].Promotes? && steps[i].a == a ==> steps[i].mode == Off
    ensures ModeOf(Run(s, steps).modes, a) == Off
    ensures NoSubmitsOf(s.world.calls, Run(s, steps).world.calls, a)
    decreases |steps|
  {
    hide Apply;
    if steps != [] {
      StepKeepsOff(s, steps[0], a);
      OffSticks(Apply(s, steps[0]), steps[1..], a);
    }
  }
}
