// The life of a suggestion over all runs, lawful or not.
module Lifecycle {
  import opened Options
  import opened Trading
  import opened AutoTrade
  import opened Ledger
  import opened Storage
  import opened Reconciliation
  import opened Runs

  // `acted_at` is set exactly when the suggestion is not pending.
  predicate Stamped(x: Suggestion) {
    x.actedAt.Some? <==> x.status != Pending
  }

  predicate Terminal(st: SugStatus) {
    st == SugStatus.Filled || st == Expired || st == Rejected || st == SugStatus.Cancelled
  }

  // What one step may do to a suggestion: a permitted change of status with the terms kept,
  // or new terms for a suggestion that is and stays pending.
  ghost predicate Moves(x: Suggestion, y: Suggestion) {
    && y.account == x.account && y.weekOf == x.weekOf && y.createdAt == x.createdAt && y.expiresAt == x.expiresAt
    && y.order.ticker == x.order.ticker && y.order.side == x.order.side
    && (y.order != x.order ==> x.status == Pending && y.status == Pending)
    && (Terminal(x.status) ==> y == x)
    && (Stamped(x) ==> Stamped(y))
    && match x.status
       case Pending => y.status in {Pending, Accepted, Rejected, Expired}
       case Accepted => y.status in {Accepted, SugStatus.Filled, SugStatus.Cancelled, Expired, Pending}
       case _ => y.status == x.status
  }

  // Unchanged, or moved from one status to another and stamped accordingly.
  predicate Became(x: Suggestion, y: Suggestion, from: SugStatus, to: SugStatus) {
    || y == x
    || (x.status == from && y == x.(status := to, actedAt := y.actedAt) && Stamped(y))
  }

  // From position n - 1 on, suggestions became `to`; earlier ones are untouched.
  ghost predicate AllBecame(xs: seq<Suggestion>, ys: seq<Suggestion>, n: nat, from: SugStatus, to: SugStatus) {
    && |xs| == |ys|
    && forall i :: 0 <= i < |xs| ==> if i + 1 < n then ys[i] == xs[i] else Became(xs[i], ys[i], from, to)
  }

  ghost predicate AllMove(xs: seq<Suggestion>, ys: seq<Suggestion>) {
    && |xs| <= |ys|
    && (forall i :: 0 <= i < |xs| ==> Moves(xs[i], ys[i]))
    && (forall i :: |xs| <= i < |ys| ==> Stamped(ys[i]))
  }

  lemma {:induction false} SweepAcceptedMoves(s: State, n: nat, scope: Option<Account>, adapter: Option<Account>,
                                              picks: map<nat, nat>, now: Time)
    requires n >= 1
    ensures AllBecame(s.sugs, SweepAccepted(s, n, scope, adapter, picks, now).sugs, n, Accepted, Expired)
    decreases |s.sugs| + 1 - n
  {
    hide CancelWorking, PlacedRow;
    if n <= |s.sugs| {
      var s1 := if Stale(Sug(s, n), Accepted, scope, now) then ExpireAccepted(s, n, adapter, picks, now) else s;
      SweepAcceptedMoves(s1, n + 1, scope, adapter, picks, now);
    }
  }

  lemma {:induction false} SweepPendingMoves(s: State, n: nat, scope: Option<Account>, now: Time)
    requires n >= 1
    ensures AllBecame(s.sugs, SweepPending(s, n, scope, now).sugs, n, Pending, Expired)
    decreases |s.sugs| + 1 - n
  {
    if n <= |s.sugs| {
      SweepPendingMoves(if Stale(Sug(s, n), Pending, scope, now) then SetStatus(s, n, Expired, Some(now)) else s,
          n + 1, scope, now);
    }
  }

  lemma {:induction false} InferMoves(s: State, n: nat, a: Account, cutoff: Time, now: Time)
    requires n >= 1
    ensures AllBecame(s.sugs, InferFrom(s, n, a, cutoff, now).sugs, n, Accepted, SugStatus.Cancelled)
    decreases |s.sugs| + 1 - n
  {
    hide CancelledOutside;
    if n <= |s.sugs| {
      var hit := Sug(s, n).account == a && Sug(s, n).status == Accepted && CancelledOutside(s.rows, n, cutoff);
      InferMoves(if hit then SetStatus(s, n, SugStatus.Cancelled, Some(now)) else s, n + 1, a, cutoff, now);
    }
  }

  lemma {:induction false} ResetMoves(s: State, n: nat, scope: set<Account>, adapters: set<Account>,
                                      side: Option<Side>, week: int)
    requires n >= 1
    ensures AllBecame(s.sugs, ResetFrom(s, n, scope, adapters, side, week).sugs, n, Accepted, Pending)
    decreases |s.sugs| + 1 - n
  {
    hide CancelOrdersOf, Count;
    if n <= |s.sugs| {
      if ResetTarget(s, n, scope, side, week) {
        var a := Sug(s, n).account;
        var s1 := if a in adapters then CancelOrdersOf(s, 0, n, a) else s;
        ResetMoves(SetStatus(s1, n, Pending, None), n + 1, scope, adapters, side, week);
      } else {
        ResetMoves(s, n + 1, scope, adapters, side, week);
      }
    }
  }

  lemma {:induction false} DropMoves(s: State, n: nat, a: Account, tickers: set<Ticker>, adapter: bool, now: Time)
    requires n >= 1
    ensures AllBecame(s.sugs, DropFrom(s, n, a, tickers, adapter, now).sugs, n, Accepted, Expired)
    decreases |s.sugs| + 1 - n
  {
    hide CancelOpenOf;
    if n <= |s.sugs| {
      var sug := Sug(s, n);
      if sug.status == Accepted && sug.weekOf == CurrentWeek(now) && sug.account == a && sug.order.ticker !in tickers {
        var s1 := SetStatus(s, n, Expired, Some(now));
        DropMoves(if adapter then CancelOpenOf(s1, 0, n, a) else s1, n + 1, a, tickers, adapter, now);
      } else {
        DropMoves(s, n + 1, a, tickers, adapter, now);
      }
    }
  }

  lemma {:induction false} PersistMoves(s: State, ms: seq<MatchResult>, j: nat, a: Account, now: Time)
    requires Timed(ms) && j <= |ms|
    ensures AllBecame(s.sugs, PersistFrom(s, ms, j, a, now).sugs, 1, Accepted, SugStatus.Filled)
    decreases |ms| - j
  {
    hide PersistRow;
    if j < |ms| {
      PersistMoves(s.(rows := PersistRow(s.rows, ms[j], a, now), sugs := PersistSug(s.sugs, ms[j])), ms, j + 1, a, now);
    }
  }

  // Storing drafts rewrites the terms and the rationale of pending suggestions and appends
  // pending ones.
  ghost predicate Rewritten(x: Suggestion, y: Suggestion) {
    y == x || (x.status == Pending && y == x.(order := y.order, rationale := y.rationale)
        && y.order.ticker == x.order.ticker && y.order.side == x.order.side)
  }

  lemma {:induction false} StoreMoves(sugs: seq<Suggestion>, a: Account, week: int, ds: seq<Draft>, j: nat,
                                      expires: Time, now: Time, ids: seq<nat>)
    requires j <= |ds|
    ensures var ys := StoreFrom(sugs, a, week, ds, j, expires, now, ids).0;
            && |sugs| <= |ys|
            && (forall i :: 0 <= i < |sugs| ==> Rewritten(sugs[i], ys[i]))
            && (forall i :: |sugs| <= i < |ys| ==> ys[i].status == Pending && ys[i].actedAt == None)
    decreases |ds| - j
  {
    if j < |ds| {
      StoreMoves(Store(sugs, a, week, ds[j], expires, now), a, week, ds, j + 1, expires, now,
          ids + [Slot(sugs, a, week, ds[j])]);
    }
  }

  lemma {:induction false} AnnotateMoves(sugs: seq<Suggestion>, ids: seq<nat>, notes: map<int, string>, j: nat)
    requires j <= |ids|
    ensures var ys := Annotate(sugs, ids, notes, j);
            forall i :: 0 <= i < |sugs| ==>
              ys[i] == sugs[i] || (sugs[i].status == Pending && ys[i] == sugs[i].(rationale := ys[i].rationale))
    decreases |ids| - j
  {
    if j < |ids| {
      AnnotateMoves(Noting(sugs, ids, notes, j), ids, notes, j + 1);
    }
  }

  lemma FinalizeMoves(sugs: seq<Suggestion>, a: Account, week: int, ds: seq<Draft>, notes: map<int, string>,
                      expires: Time, now: Time)
    ensures var ys := Finalize(sugs, a, week, ds, notes, expires, now).0;
            && |sugs| <= |ys|
            && (forall i :: 0 <= i < |sugs| ==> Rewritten(sugs[i], ys[i]))
            && (forall i :: |sugs| <= i < |ys| ==> ys[i].status == Pending && ys[i].actedAt == None)
  {
    hide StoreFrom, Annotate;
    StoreMoves(sugs, a, week, ds, 0, expires, now, []);
    var (stored, ids) := StoreAll(sugs, a, week, ds, expires, now);
    AnnotateMoves(stored, ids, notes, 0);
  }

  lemma PassKeepsSugs(s: State, a: Account, mode: Mode, ids: seq<nat>, j: nat, caps: Option<Caps>, now: Time,
                      outcomes: seq<Outcome>)
    requires AllKnown(s, ids) && j <= |ids|
    ensures PassFrom(s, a, mode, ids, j, caps, now, outcomes).s.sugs == s.sugs
    decreases |ids| - j
  {
    hide Process;
  }

  lemma PassLeavesSugs(s: State, a: Account, caps: Option<Caps>, now: Time)
    ensures Pass(s, a, caps, now).s.sugs == s.sugs
  {
    hide PassFrom;
    PassKeepsSugs(s, a, ModeOf(s.modes, a), Fetch(s, a, now), 0, caps, now, []);
  }

  lemma UnacceptMoves(s: State, n: nat, a: Account, now: Time)
    ensures AllMove(s.sugs, Unaccept(s, n, a, now).0.sugs)
  {
    hide CancelWorking, Newest;
  }

  // Every step moves every suggestion only as permitted, whatever the broker does and
  // whether or not the step is lawful.
  lemma StepMoves(s: State, step: Step)
    ensures AllMove(s.sugs, Apply(s, step).sugs)
  {
    hide Pass, Kill, Unaccept, SweepAccepted, SweepPending, InferFrom, ResetFrom, DropFrom, PersistFrom, Finalize,
        CancelAllFrom;
    match step
    case Passes(a, caps, now) => PassLeavesSugs(s, a, caps, now);
    case Unaccepts(n, a, now) => UnacceptMoves(s, n, a, now);
    case Sweeps(scope, adapter, picks, now) =>
      SweepAcceptedMoves(s, 1, scope, adapter, picks, now);
      SweepPendingMoves(SweepAccepted(s, 1, scope, adapter, picks, now), 1, scope, now);
    case Reconciles(a, acts, now) => PersistMoves(s, MatchAll(s.sugs, a, acts), 0, a, now);
    case Infers(a, hours, now) => InferMoves(s, 1, a, now - hours * 3600, now);
    case ResetsWeek(accounts, adapters, side, now) => ResetMoves(s, 1, accounts, adapters, side, NextMonday(now / DAY));
    case DropsRemoved(a, tickers, reachable, now) => DropMoves(s, 1, a, tickers, reachable, now);
    case Stores(a, week, drafts, notes, expires, now) => FinalizeMoves(s.sugs, a, week, drafts, notes, expires, now);
    case _ =>
  }

  // Over any run, a suggestion that is filled, expired, rejected or cancelled is never
  // touched again, and stamps stay right.
  lemma {:induction false} RunKeepsTerminal(s: State, steps: seq<Step>)
    ensures |s.sugs| <= |Run(s, steps).sugs|
    ensures forall i :: 0 <= i < |s.sugs| && Terminal(s.sugs[i].status) ==> Run(s, steps).sugs[i] == s.sugs[i]
    ensures (forall i :: 0 <= i < |s.sugs| ==> Stamped(s.sugs[i])) ==>
              forall i :: 0 <= i < |Run(s, steps).sugs| ==> Stamped(Run(s, steps).sugs[i])
    decreases |steps|
  {
    hide Apply;
    if steps != [] {
      StepMoves(s, steps[0]);
      RunKeepsTerminal(Apply(s, steps[0]), steps[1..]);
    }
  }

  // One suggestion per account, week, ticker and side.
  ghost predicate OnePerSlot(sugs: seq<Suggestion>) {
    forall i, j :: 0 <= i < j < |sugs| ==> !SameSlot(sugs[j], sugs[i].account, sugs[i].weekOf, sugs[i].order)
  }

  lemma {:induction false} StoreKeepsSlots(sugs: seq<Suggestion>, a: Account, week: int, ds: seq<Draft>, j: nat,
                                           expires: Time, now: Time, ids: seq<nat>)
    requires OnePerSlot(sugs) && j <= |ds|
    ensures OnePerSlot(StoreFrom(sugs, a, week, ds, j, expires, now, ids).0)
    decreases |ds| - j
  {
    if j < |ds| {
      StoreKeepsSlots(Store(sugs, a, week, ds[j], expires, now), a, week, ds, j + 1, expires, now,
          ids + [Slot(sugs, a, week, ds[j])]);
    }
  }

  lemma {:induction false} RunKeepsSlots(s: State, steps: seq<Step>)
    requires OnePerSlot(s.sugs)
    ensures OnePerSlot(Run(s, steps).sugs)
    decreases |steps|
  {
    hide Apply;
    if steps != [] {
      StepKeepsSlots(s, steps[0]);
      RunKeepsSlots(Apply(s, steps[0]), steps[1..]);
    }
  }

  lemma StepKeepsSlots(s: State, step: Step)
    requires OnePerSlot(s.sugs)
    ensures OnePerSlot(Apply(s, step).sugs)
  {
    StepMoves(s, step);
    if step.Stores? {
      StoreKeepsSlots(s.sugs, step.a, step.week, step.drafts, 0, step.expires, step.now, []);
      var (stored, ids) := StoreAll(s.sugs, step.a, step.week, step.drafts, step.expires, step.now);
      AnnotateMoves(stored, ids, step.notes, 0);
    } else {
      OnlyStoresAppend(s, step);
    }
  }

  lemma OnlyStoresAppend(s: State, step: Step)
    requires !step.Stores?
    ensures |Apply(s, step).sugs| == |s.sugs|
  {
    hide Pass, Kill, CancelWorking, SweepAccepted, SweepPending, InferFrom, ResetFrom, DropFrom, PersistFrom,
        CancelAllFrom;
    match step
    case Passes(a, caps, now) => PassLeavesSugs(s, a, caps, now);
    case _ =>
  }
}
