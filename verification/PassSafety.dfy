// What one auto-trade pass keeps.
module PassSafety {
  import opened Options
  import opened OrderIds
  import opened Trading
  import opened Broker
  import opened AutoTrade
  import opened Consistency

  // Some blocking rows were cleared; nothing else changed.
  ghost predicate OnlyCleared(rows: seq<Row>, rows': seq<Row>, a: Account, ticker: Ticker, n: nat) {
    && |rows| == |rows'|
    && forall j :: 0 <= j < |rows| ==>
         rows'[j] == rows[j] || (Blocks(a, ticker, n)(rows[j]) && rows'[j] == MarkCancelled(rows[j]))
  }

  lemma ClearStaleKeeps(s: State, i: nat, a: Account, ticker: Ticker, n: nat)
    requires Inv(s) && i < |s.rows| && Blocks(a, ticker, n)(s.rows[i])
    ensures var (s1, v) := ClearStale(s, i, a);
            && Inv(s1) && s1.world.unrecorded == s.world.unrecorded
            && s1.rows == if v == Go then s.rows[i := MarkCancelled(s.rows[i])] else s.rows
  {
    hide Inv, GetOrder, CancelOrder;
    if s.rows[i].orderId == None {
      SettleKeeps(s, i, MarkCancelled(s.rows[i]));
    } else {
      var o := s.rows[i].orderId.value;
      GetOrderKeeps(s, a, o);
      var (w1, conf) := GetOrder(s.world, a, o);
      if conf.Some? {
        if IsLive(conf.value.status) {
          CancelOrderKeeps(s.(world := w1), a, o);
          var (w2, ok) := CancelOrder(w1, a, o);
          if ok {
            SettleKeeps(s.(world := w2), i, MarkCancelled(s.rows[i]));
          }
        } else {
          SettleKeeps(s.(world := w1), i, MarkCancelled(s.rows[i]));
        }
      }
    }
  }

  lemma {:induction false} ClearStaleFromKeeps(s: State, i: nat, a: Account, ticker: Ticker, n: nat)
    requires Inv(s) && i <= |s.rows|
    ensures var (s1, v) := ClearStaleFrom(s, i, a, ticker, n);
            && Inv(s1) && s1.world.unrecorded == s.world.unrecorded
            && OnlyCleared(s.rows, s1.rows, a, ticker, n)
            && (forall j :: 0 <= j < i ==> s1.rows[j] == s.rows[j])
            && (v == Go ==> forall j :: i <= j < |s.rows| ==> !Blocks(a, ticker, n)(s1.rows[j]))
    decreases |s.rows| - i
  {
    if i < |s.rows| {
      if Blocks(a, ticker, n)(s.rows[i]) {
        ClearStaleKeeps(s, i, a, ticker, n);
        var (s1, v) := ClearStale(s, i, a);
        if v == Go {
          ClearStaleFromKeeps(s1, i + 1, a, ticker, n);
          var s2 := ClearStaleFrom(s1, i + 1, a, ticker, n).0;
          assert s2.rows[i] == s1.rows[i];
          forall j | 0 <= j < |s.rows| && j != i
            ensures s1.rows[j] == s.rows[j]
          {
          }
        }
      } else {
        ClearStaleFromKeeps(s, i + 1, a, ticker, n);
      }
    }
  }

  // Every real row of the suggestion has been cancelled.
  ghost predicate AllCancelled(rows: seq<Row>, n: nat) {
    forall i :: 0 <= i < |rows| && RealOf(n)(rows[i]) ==> rows[i].status == BrokerCancelled
  }

  ghost predicate Free(rows: seq<Row>, a: Account, ticker: Ticker) {
    forall j :: 0 <= j < |rows| ==> !Claims(rows[j], a, ticker)
  }

  lemma ClearedMeansFree(sugs: seq<Suggestion>, rows: seq<Row>, rows': seq<Row>, b: Book, a: Account, ticker: Ticker,
                         n: nat)
    requires OnlyCleared(rows, rows', a, ticker, n) && RowsOK(rows', b) && OwnersOK(sugs, rows')
    requires Known(sugs, n) && sugs[n - 1].account == a
    requires Count(rows, Replays(n, a, false)) == 0
    requires forall j :: 0 <= j < |rows'| ==> !Blocks(a, ticker, n)(rows'[j])
    ensures Free(rows', a, ticker) && AllCancelled(rows', n)
  {
    CountZero(rows, Replays(n, a, false));
    forall j | 0 <= j < |rows'|
      ensures !Claims(rows'[j], a, ticker)
      ensures RealOf(n)(rows'[j]) ==> rows'[j].status == BrokerCancelled
    {
      assert RowOK(rows'[j], b) && OwnerOK(rows'[j], sugs);
      assert !Replays(n, a, false)(rows[j]);
      assert !Blocks(a, ticker, n)(rows'[j]);
    }
  }

  lemma CheckStaleKeeps(s: State, a: Account, mode: Mode, n: nat)
    requires Inv(s) && Known(s.sugs, n) && Sug(s, n).account == a
    requires Count(s.rows, Replays(n, a, mode == DryRun)) == 0
    ensures var (s1, v) := CheckStale(s, a, mode, n);
            && Inv(s1) && s1.world.unrecorded == s.world.unrecorded
            && OnlyCleared(s.rows, s1.rows, a, Sug(s, n).order.ticker, n)
            && (mode != Live ==> s1.rows == s.rows)
            && (v == Go && mode == Live ==> Free(s1.rows, a, Sug(s, n).order.ticker) && AllCancelled(s1.rows, n))
  {
    if mode == Live {
      var ticker := Sug(s, n).order.ticker;
      ClearStaleFromKeeps(s, 0, a, ticker, n);
      var (s1, v1) := ClearStaleFrom(s, 0, a, ticker, n);
      if v1 == Go {
        ClearedMeansFree(s1.sugs, s.rows, s1.rows, s1.world.book, a, ticker, n);
      }
    }
  }

  // A live suggestion that passes the guards finds no claim on its ticker and no live row of
  // its own; guards never record or lose anything.
  lemma GuardsKeep(s: State, a: Account, mode: Mode, n: nat, caps: Option<Caps>, now: Time)
    requires Inv(s) && Known(s.sugs, n) && Sug(s, n).account == a
    ensures var (s1, v) := Guards(s, a, mode, n, caps, now);
            && Inv(s1) && s1.world.unrecorded == s.world.unrecorded
            && OnlyCleared(s.rows, s1.rows, a, Sug(s, n).order.ticker, n)
            && (mode != Live ==> s1.rows == s.rows)
            && (v == Go && mode == Live ==> Free(s1.rows, a, Sug(s, n).order.ticker) && AllCancelled(s1.rows, n))
  {
    if Count(s.rows, Replays(n, a, mode == DryRun)) == 0 {
      CheckStaleKeeps(s, a, mode, n);
      var (s1, v1) := CheckStale(s, a, mode, n);
      BeginKeeps(s1, AccountCall(a));
      GuardsOnlyClear(s, a, mode, n, caps, now);
    }
  }

  // After the stale check, the guards change nothing but, at most, the broker's clock.
  lemma GuardsOnlyClear(s: State, a: Account, mode: Mode, n: nat, caps: Option<Caps>, now: Time)
    requires Known(s.sugs, n)
    ensures var (s1, v1) := CheckStale(s, a, mode, n);
            var (s2, v) := Guards(s, a, mode, n, caps, now);
            Count(s.rows, Replays(n, a, mode == DryRun)) == 0 ==>
              && (s2 == s1 || s2 == s1.(world := Begin(s1.world, AccountCall(a))))
              && (v == Go ==> v1 == Go)
  {
  }

  lemma {:induction false} KillFromKeeps(s: State, i: nat, a: Account, cutoff: Time)
    requires Inv(s) && i <= |s.rows|
    ensures Inv(KillFrom(s, i, a, cutoff)) && KillFrom(s, i, a, cutoff).world.unrecorded == s.world.unrecorded
    decreases |s.rows| - i
  {
    if i < |s.rows| {
      if RecentlyPlaced(a, cutoff)(s.rows[i]) {
        CancelOrderKeeps(s, a, s.rows[i].orderId.value);
        KillFromKeeps(s.(world := CancelOrder(s.world, a, s.rows[i].orderId.value).0), i + 1, a, cutoff);
      } else {
        KillFromKeeps(s, i + 1, a, cutoff);
      }
    }
  }

  lemma KillKeeps(s: State, a: Account, now: Time)
    requires Inv(s)
    ensures Inv(Kill(s, a, now)) && Kill(s, a, now).world.unrecorded == s.world.unrecorded
  {
    KillFromKeeps(s.(modes := s.modes[a := Off]), 0, a, now - DAY);
  }

  // With every real row of n cancelled, the next retry number counts all of them.
  lemma RetryCountsAll(rows: seq<Row>, n: nat)
    requires AllCancelled(rows, n)
    ensures NextRetry(rows, n) == Count(rows, RealOf(n))
  {
    CountMonotone(rows, CancelledReal(n), RealOf(n));
    CountMonotone(rows, RealOf(n), CancelledReal(n));
  }

  // The id of the next submission is not the id of any real row of any suggestion.
  lemma NextIdIsFresh(s: State, n: nat)
    requires Inv(s) && AllCancelled(s.rows, n)
    ensures forall i :: 0 <= i < |s.rows| && !s.rows[i].dryRun ==>
              s.rows[i].clientId != Some(Print(n, NextRetry(s.rows, n)))
  {
    var k := NextRetry(s.rows, n);
    RetryCountsAll(s.rows, n);
    forall i | 0 <= i < |s.rows| && !s.rows[i].dryRun
      ensures s.rows[i].clientId != Some(Print(n, k))
    {
      if s.rows[i].clientId == Some(Print(n, k)) {
        CountPrefix(s.rows, i, RealOf(n));
      }
    }
  }

  // An order a submission from state s may create: right for the rows of s, for a suggestion
  // whose real rows are all cancelled, and under its next id. Orders placed by hand come under
  // ids of their own.
  ghost predicate NextFor(s: State, o: BrokerOrder) {
    && OrderOK(o, s.sugs, s.rows)
    && (o.origin.Some? ==>
          && AllCancelled(s.rows, o.origin.value.sug)
          && o.origin.value.retry == Count(s.rows, RealOf(o.origin.value.sug)))
  }

  // In state s order o of account a has no row; the next submission for n asks for its id.
  ghost predicate Stranded(s: State, a: Account, n: nat, o: nat) {
    && o in s.world.unrecorded && o in s.world.book.orders
    && var order := s.world.book.orders[o];
    && order.account == a && order.origin.Some? && order.origin.value.sug == n
    && NextFor(s, order)
    && forall i :: 0 <= i < |s.rows| ==> !Names(s.rows[i], o)
  }

  // There is at most one stranded order of a suggestion.
  lemma OneIsStranded(s: State, a: Account, n: nat, o: nat, p: nat)
    requires Inv(s) && Stranded(s, a, n, o) && Stranded(s, a, n, p)
    ensures o == p
  {
    hide Print, Count;
    assert SameId(s.world.book.orders[o], s.world.book.orders[p]);
  }

  predicate SubmissionFailed(o: Outcome) {
    !o.placed && o.reason in {Some(BrokerError), Some(ReadbackFailed), Some(ReadbackMismatch)}
  }

  // The orders that came to be without a row since world w, are stranded at n and new.
  ghost predicate OnlyStrands(w: World, s: State, a: Account, n: nat) {
    forall o :: o in s.world.unrecorded && o !in w.unrecorded ==> w.book.nextId <= o && Stranded(s, a, n, o)
  }

  // A turn keeps the invariant, touches at most this account's mode, and leaves an accepted
  // order without a row only by stopping the pass with the mode at OFF: the order of the
  // submission that failed.
  ghost predicate SafeTurn(s: State, t: Turn, a: Account, n: nat) {
    && Inv(t.s)
    && t.s.sugs == s.sugs && s.world.book.nextId <= t.s.world.book.nextId
    && match t
       case Escaped(s1) => s1.modes == s.modes
       case Turn(s1, o, stop) =>
         && o.sug == n
         && (if stop then s1.modes == s.modes[a := Off] && SubmissionFailed(o) && OnlyStrands(s.world, s1, a, n)
             else s1.modes == s.modes && s1.world.unrecorded <= s.world.unrecorded)
  }

  // An accepted suggestion of this account and week.
  predicate Due(s: State, a: Account, n: nat, now: Time) {
    Known(s.sugs, n) && Sug(s, n).account == a && Sug(s, n).weekOf == CurrentWeek(now)
  }

  // Recording a confirmed engine order of this suggestion on a free ticker.
  lemma RecordKeeps(s: State, a: Account, n: nat, k: nat, o: nat, now: Time)
    requires Inv(s) && Due(s, a, n, now)
    requires Free(s.rows, a, Sug(s, n).order.ticker) && k <= Count(s.rows, RealOf(n))
    requires Holds(s.world.book, a, o)
    requires s.world.book.orders[o].ticker == Sug(s, n).order.ticker
             && s.world.book.orders[o].origin == Some(Origin(n, k))
    ensures Inv(Record(s, Placement(s, a, n, Print(n, k), o, now)))
  {
    var row := Placement(s, a, n, Print(n, k), o, now);
    forall m: nat, j: nat {:trigger Print(m, j)} | row.clientId == Some(Print(m, j))
      ensures m == n && j == k
    {
      PrintInjective(m, j, n, k);
    }
    AddKeeps(s, row, s.world.unrecorded - {o});
  }

  // The orders of book b are still there in book c.
  ghost predicate Kept(b: Book, c: Book) {
    forall o :: o in b.orders ==>
      && o in c.orders
      && c.orders[o] == b.orders[o].(status := c.orders[o].status, cancelAcknowledged := c.orders[o].cancelAcknowledged)
  }

  lemma {:induction false} KillFromKeepsOrders(s: State, i: nat, a: Account, cutoff: Time)
    requires i <= |s.rows|
    ensures Kept(s.world.book, KillFrom(s, i, a, cutoff).world.book)
    decreases |s.rows| - i
  {
    if i < |s.rows| {
      if RecentlyPlaced(a, cutoff)(s.rows[i]) {
        var s1 := s.(world := CancelOrder(s.world, a, s.rows[i].orderId.value).0);
        assert Kept(s.world.book, s1.world.book);
        hide CancelOrder;
        KillFromKeepsOrders(s1, i + 1, a, cutoff);
      } else {
        KillFromKeepsOrders(s, i + 1, a, cutoff);
      }
    }
  }

  // A failed submission strands the order it created, if it created one, and no other.
  lemma FailureStrands(s: State, a: Account, n: nat, t: State)
    requires Inv(s) && Known(s.sugs, n) && Sug(s, n).account == a && AllCancelled(s.rows, n)
    requires t.rows == s.rows && t.sugs == s.sugs
    requires var w1 := SubmitOrder(s.world, a, Sug(s, n).order, Origin(n, NextRetry(s.rows, n))).0;
             t.world.unrecorded == w1.unrecorded && Kept(w1.book, t.world.book)
    ensures OnlyStrands(s.world, t, a, n)
  {
    RetryCountsAll(s.rows, n);
    hide Print, Count, HolderFrom, Begin, AllCancelled;
    var g := Origin(n, NextRetry(s.rows, n));
    BeginKeeps(s, SubmitCall(a, Print(n, g.retry)));
    forall o | o in t.world.unrecorded && o !in s.world.unrecorded
      ensures s.world.book.nextId <= o && Stranded(t, a, n, o)
    {
      assert t.world.book.orders[o].origin == Some(g);
      forall i | 0 <= i < |s.rows|
        ensures !Names(s.rows[i], o)
      {
        assert RowOK(s.rows[i], s.world.book);
      }
    }
  }

  lemma KilledSafely(s: State, s1: State, a: Account, n: nat, order: Option<nat>, reason: Reason, now: Time)
    requires Inv(s) && Known(s.sugs, n) && Sug(s, n).account == a && AllCancelled(s.rows, n)
    requires Inv(s1) && s1 == s.(world := s1.world) && s.world.book.nextId <= s1.world.book.nextId
    requires var w1 := SubmitOrder(s.world, a, Sug(s, n).order, Origin(n, NextRetry(s.rows, n))).0;
             s1.world.unrecorded == w1.unrecorded && Kept(w1.book, s1.world.book)
    requires reason in {BrokerError, ReadbackFailed, ReadbackMismatch}
    ensures SafeTurn(s, KillAt(s1, a, n, order, reason, now), a, n)
  {
    hide Inv, SubmitOrder, AllCancelled, OnlyStrands;
    KillKeeps(s1, a, now);
    KillFromKeepsOrders(s1.(modes := s1.modes[a := Off]), 0, a, now - DAY);
    FailureStrands(s, a, n, Kill(s1, a, now));
  }

  // A submission either is recorded, or is invalid, or stops the pass with the mode at OFF.
  lemma SubmitFreshKeeps(s: State, a: Account, n: nat, now: Time)
    requires Inv(s) && Due(s, a, n, now)
    requires Free(s.rows, a, Sug(s, n).order.ticker) && AllCancelled(s.rows, n)
    ensures SafeTurn(s, SubmitFresh(s, a, n, now), a, n)
  {
    hide Inv, Kill, SubmitOrder, GetOrder, Free, AllCancelled, OnlyStrands, Kept;
    var d, k := Sug(s, n).order, NextRetry(s.rows, n);
    RetryCountsAll(s.rows, n);
    SubmitKeeps(s, a, d, Origin(n, k));
    var (w1, sent) := SubmitOrder(s.world, a, d, Origin(n, k));
    KeptAsIs(w1.book);
    SubmitOnlyAddsRecorded(s.world, a, d, Origin(n, k));
    match sent
    case Invalid =>
    case Failed =>
      KilledSafely(s, s.(world := w1), a, n, None, BrokerError, now);
    case Confirmed(o) =>
      GetOrderKeeps(s.(world := w1), a, o);
      GetOrderEvolves(w1, a, o);
      var (w2, back) := GetOrder(w1, a, o);
      var s2 := s.(world := w2);
      if back == None {
        KilledSafely(s, s2, a, n, Some(o), ReadbackFailed, now);
      } else if back.value.clientId != Some(Print(n, k)) {
        KilledSafely(s, s2, a, n, Some(o), ReadbackMismatch, now);
      } else {
        RecordKeeps(s2, a, n, k, o, now);
      }
  }

  lemma KeptAsIs(b: Book)
    ensures Kept(b, b)
  {
  }

  lemma GetOrderEvolves(w: World, a: Account, o: nat)
    ensures Evolves(w.book, GetOrder(w, a, o).0.book) && Kept(w.book, GetOrder(w, a, o).0.book)
  {
  }

  // A submission leaves at most the order it names unrecorded; an invalid one leaves none.
  lemma SubmitOnlyAddsRecorded(w: World, a: Account, d: Draft, g: Origin)
    ensures var (w1, sent) := SubmitOrder(w, a, d, g);
            && (sent == Invalid ==> w1.unrecorded == w.unrecorded)
            && (sent.Confirmed? ==> w1.unrecorded <= w.unrecorded + {sent.order})
  {
  }

  // Taking back a live order of the suggestion on a free ticker.
  lemma ReadoptionKeeps(s: State, i: nat, a: Account, n: nat, now: Time)
    requires Inv(s) && Due(s, a, n, now) && Free(s.rows, a, Sug(s, n).order.ticker)
    requires i < |s.rows| && Readoptable(n)(s.rows[i])
    requires var o := s.rows[i].orderId.value; Holds(s.world.book, a, o) && IsLive(s.world.book.orders[o].status)
    ensures Inv(Readopt(s, i, now))
  {
    assert RowOK(s.rows[i], s.world.book) && OwnerOK(s.rows[i], s.sugs);
    assert OrderOK(s.world.book.orders[s.rows[i].orderId.value], s.sugs, s.rows);
    hide Inv;
    ReadoptKeeps(s, i, now);
  }

  lemma PlaceLiveKeeps(s: State, a: Account, n: nat, now: Time)
    requires Inv(s) && Due(s, a, n, now)
    requires Free(s.rows, a, Sug(s, n).order.ticker) && AllCancelled(s.rows, n)
    ensures SafeTurn(s, PlaceLive(s, a, n, now), a, n)
  {
    hide Inv, Newest, GetOrder, SubmitFresh, Free, AllCancelled, Stranded, SubmissionFailed;
    var i := Newest(s.rows, Readoptable(n), |s.rows|);
    if i == |s.rows| {
      SubmitFreshKeeps(s, a, n, now);
    } else {
      var o := s.rows[i].orderId.value;
      GetOrderKeeps(s, a, o);
      var (w1, conf) := GetOrder(s.world, a, o);
      var s1 := s.(world := w1);
      if conf.Some? && IsLive(conf.value.status) {
        ReadoptionKeeps(s1, i, a, n, now);
      } else {
        SubmitFreshKeeps(s1, a, n, now);
      }
    }
  }

  lemma SimulateKeeps(s: State, a: Account, n: nat, now: Time)
    requires Inv(s) && Known(s.sugs, n)
    ensures SafeTurn(s, Simulate(s, a, n, now), a, n)
  {
    var row := Simulate(s, a, n, now).s.rows[|s.rows|];
    AddKeeps(s, row, s.world.unrecorded);
    assert s.world.(unrecorded := s.world.unrecorded) == s.world;
  }

  lemma ProcessKeeps(s: State, a: Account, mode: Mode, n: nat, caps: Option<Caps>, now: Time)
    requires Inv(s) && Due(s, a, n, now) && mode != Off
    ensures SafeTurn(s, Process(s, a, mode, n, caps, now), a, n)
  {
    hide Guards, PlaceLive, Inv, Simulate, Stranded;
    GuardsKeep(s, a, mode, n, caps, now);
    var (s1, v) := Guards(s, a, mode, n, caps, now);
    if v == Go {
      if mode == DryRun {
        SimulateKeeps(s1, a, n, now);
      } else {
        PlaceLiveKeeps(s1, a, n, now);
      }
    }
  }

  // The state before the turn of the j-th suggestion; None if the pass ends before it.
  function Before(s: State, a: Account, mode: Mode, ids: seq<nat>, j: nat, caps: Option<Caps>,
                  now: Time): (r: Option<State>)
    requires AllKnown(s, ids) && j <= |ids|
    ensures r.Some? ==> r.value.sugs == s.sugs
  {
    if j == 0 then Some(s)
    else
      match Before(s, a, mode, ids, j - 1, caps, now)
      case None => None
      case Some(s1) =>
        match Process(s1, a, mode, ids[j - 1], caps, now)
        case Turn(s2, _, stop) => if stop then None else Some(s2)
        case Escaped(_) => None
  }

  lemma {:induction false} BeforeKeeps(s: State, a: Account, mode: Mode, ids: seq<nat>, j: nat, caps: Option<Caps>,
                                       now: Time)
    requires Inv(s) && Ours(s, a, ids, now) && j <= |ids| && mode != Off
    ensures Before(s, a, mode, ids, j, caps, now).Some? ==> Inv(Before(s, a, mode, ids, j, caps, now).value)
  {
    hide Inv, Process;
    if j > 0 {
      BeforeKeeps(s, a, mode, ids, j - 1, caps, now);
      var s1 := Before(s, a, mode, ids, j - 1, caps, now);
      if s1.Some? {
        ProcessKeeps(s1.value, a, mode, ids[j - 1], caps, now);
      }
    }
  }

  // The pass from turn j on ends before the k-th turn, when there is none left, or with it.
  lemma {:induction false} PassFromEndsAt(s: State, a: Account, mode: Mode, ids: seq<nat>, j: nat, caps: Option<Caps>,
                                          now: Time, outcomes: seq<Outcome>) returns (k: nat)
    requires AllKnown(s, ids) && j <= |ids| && Before(s, a, mode, ids, j, caps, now).Some?
    ensures j <= k <= |ids| && Before(s, a, mode, ids, k, caps, now).Some?
    ensures forall i :: k < i <= |ids| ==> Before(s, a, mode, ids, i, caps, now) == None
    ensures var r := PassFrom(Before(s, a, mode, ids, j, caps, now).value, a, mode, ids, j, caps, now, outcomes);
            var b := Before(s, a, mode, ids, k, caps, now).value;
            if k == |ids| then r.s == b && !r.escaped
            else
              var t := Process(b, a, mode, ids[k], caps, now);
              r.s == t.s && (r.escaped <==> t.Escaped?) && (t.Turn? ==> t.stop)
    decreases |ids| - j
  {
    hide Process;
    k := j;
    if j < |ids| {
      var t := Process(Before(s, a, mode, ids, j, caps, now).value, a, mode, ids[j], caps, now);
      if t.Turn? && !t.stop {
        k := PassFromEndsAt(s, a, mode, ids, j + 1, caps, now, outcomes + [t.outcome]);
      } else {
        NothingAfter(s, a, mode, ids, j + 1, caps, now);
      }
    }
  }

  lemma {:induction false} NothingAfter(s: State, a: Account, mode: Mode, ids: seq<nat>, j: nat, caps: Option<Caps>,
                                        now: Time)
    requires AllKnown(s, ids) && j <= |ids| && Before(s, a, mode, ids, j, caps, now) == None
    ensures forall i :: j <= i <= |ids| ==> Before(s, a, mode, ids, i, caps, now) == None
    decreases |ids| - j
  {
    hide Process;
    if j < |ids| {
      NothingAfter(s, a, mode, ids, j + 1, caps, now);
    }
  }

  lemma PassEndsAt(s: State, a: Account, mode: Mode, ids: seq<nat>, caps: Option<Caps>, now: Time) returns (k: nat)
    requires AllKnown(s, ids)
    ensures k <= |ids| && Before(s, a, mode, ids, k, caps, now).Some?
    ensures forall i :: k < i <= |ids| ==> Before(s, a, mode, ids, i, caps, now) == None
    ensures var r := PassFrom(s, a, mode, ids, 0, caps, now, []);
            var b := Before(s, a, mode, ids, k, caps, now).value;
            if k == |ids| then r.s == b && !r.escaped
            else
              var t := Process(b, a, mode, ids[k], caps, now);
              r.s == t.s && (r.escaped <==> t.Escaped?) && (t.Turn? ==> t.stop)
  {
    hide Process, PassFrom;
    k := PassFromEndsAt(s, a, mode, ids, 0, caps, now, []);
  }

  ghost predicate Ours(s: State, a: Account, ids: seq<nat>, now: Time) {
    forall j :: 0 <= j < |ids| ==> Due(s, a, ids[j], now)
  }

  // The outcomes are one per processed suggestion, in order.
  ghost predicate Prefix(ids: seq<nat>, outcomes: seq<Outcome>) {
    |outcomes| <= |ids| && forall j :: 0 <= j < |outcomes| ==> outcomes[j].sug == ids[j]
  }

  // The pass stopped at the submission that created order o, and o has no row.
  ghost predicate StrandedBy(w: World, r: PassResult, a: Account, o: nat) {
    && r.outcomes != [] && SubmissionFailed(r.outcomes[|r.outcomes| - 1])
    && w.book.nextId <= o && Stranded(r.s, a, r.outcomes[|r.outcomes| - 1].sug, o)
  }

  lemma {:induction false} PassFromKeeps(s: State, a: Account, mode: Mode, ids: seq<nat>, j: nat, caps: Option<Caps>,
                                         now: Time, outcomes: seq<Outcome>)
    requires Inv(s) && Ours(s, a, ids, now) && j <= |ids| && mode != Off
    requires Prefix(ids, outcomes) && |outcomes| == j && ModeOf(s.modes, a) == mode
    ensures var r := PassFrom(s, a, mode, ids, j, caps, now, outcomes);
            && Inv(r.s) && r.s.sugs == s.sugs
            && outcomes <= r.outcomes && Prefix(ids, r.outcomes)
            && (r.escaped || r.s.modes == s.modes || r.s.modes == s.modes[a := Off])
            && (r.escaped ==> r.s.modes == s.modes)
            && (ModeOf(r.s.modes, a) != Off && !r.escaped ==>
                  r.s.world.unrecorded <= s.world.unrecorded && |r.outcomes| == |ids|)
            && (!r.escaped ==> forall o :: o in r.s.world.unrecorded && o !in s.world.unrecorded ==>
                 StrandedBy(s.world, r, a, o))
    decreases |ids| - j
  {
    hide Process, Inv, Stranded, SubmissionFailed;
    if j < |ids| {
      ProcessKeeps(s, a, mode, ids[j], caps, now);
      var t := Process(s, a, mode, ids[j], caps, now);
      if t.Turn? && !t.stop {
        PassFromKeeps(t.s, a, mode, ids, j + 1, caps, now, outcomes + [t.outcome]);
      }
    }
  }

  // A pass that returns keeps the invariant. If the mode is still what it was, every
  // suggestion has its outcome and every order the broker accepted in the pass has a row;
  // otherwise the mode of this account, and of no other, is OFF, and every accepted order has
  // a row but at most one: that of the last, failed submission.
  lemma PassIsSafe(s: State, a: Account, caps: Option<Caps>, now: Time)
    requires Inv(s) && !Pass(s, a, caps, now).escaped
    ensures var r := Pass(s, a, caps, now);
            && Inv(r.s) && r.s.sugs == s.sugs
            && Prefix(Fetch(s, a, now), r.outcomes)
            && (r.s.modes == s.modes || r.s.modes == s.modes[a := Off])
            && (ModeOf(r.s.modes, a) != Off ==>
                  && |r.outcomes| == |Fetch(s, a, now)|
                  && r.s.world.unrecorded <= s.world.unrecorded
                  && forall o :: o in r.s.world.book.orders && r.s.world.book.orders[o].origin.Some? &&
                                 o !in s.world.unrecorded ==>
                       exists i :: 0 <= i < |r.s.rows| && Names(r.s.rows[i], o))
            && (forall o :: o in r.s.world.unrecorded && o !in s.world.unrecorded ==>
                  ModeOf(r.s.modes, a) == Off && StrandedBy(s.world, r, a, o))
            && (forall o :: o in r.s.world.book.orders && r.s.world.book.orders[o].origin.Some? &&
                            o !in s.world.unrecorded && !StrandedBy(s.world, r, a, o) ==>
                  exists i :: 0 <= i < |r.s.rows| && Names(r.s.rows[i], o))
            && (forall o, p :: StrandedBy(s.world, r, a, o) && StrandedBy(s.world, r, a, p) ==> o == p)
  {
    hide PassFrom, Stranded, SubmissionFailed, Inv;
    var mode, r := ModeOf(s.modes, a), Pass(s, a, caps, now);
    if mode != Off {
      PassFromKeeps(s, a, mode, Fetch(s, a, now), 0, caps, now, []);
    }
    InvRecords(r.s);
    forall o, p | StrandedBy(s.world, r, a, o) && StrandedBy(s.world, r, a, p)
      ensures o == p
    {
      OneIsStranded(r.s, a, r.outcomes[|r.outcomes| - 1].sug, o, p);
    }
  }

  lemma InvRecords(s: State)
    requires Inv(s)
    ensures Recorded(s.rows, s.world.book, s.world.unrecorded)
  {
  }
}
