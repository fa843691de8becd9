// Passes an exception escapes from: the ledger is rolled back, the broker is not.
module Rollback {
  import opened Options
  import opened OrderIds
  import opened Trading
  import opened Broker
  import opened AutoTrade
  import opened Consistency
  import opened PassSafety

  // The same order, later.
  predicate Descends(o: BrokerOrder, p: BrokerOrder) {
    && p == o.(status := p.status, cancelAcknowledged := p.cancelAcknowledged)
    && (o.cancelAcknowledged ==> p.cancelAcknowledged)
    && (IsLive(p.status) ==> IsLive(o.status))
  }

  // The book as it may be after calls made from state s: what was there is still there, and
  // a new engine order carries the next id of its suggestion.
  ghost predicate Grew(s: State, b: Book) {
    && BookOK(b) && s.world.book.nextId <= b.nextId
    && (forall o :: o in s.world.book.orders ==> o in b.orders && Descends(s.world.book.orders[o], b.orders[o]))
    && (forall o :: o in b.orders && o !in s.world.book.orders ==> s.world.book.nextId <= o && NextFor(s, b.orders[o]))
  }

  lemma BeginGrows(s: State, w: World, c: Call)
    requires Grew(s, w.book)
    ensures Grew(s, Begin(w, c).book)
  {
    hide OrderOK;
    var b, d := w.book, Begin(w, c).book;
    forall o | o in d.orders && o !in s.world.book.orders
      ensures s.world.book.nextId <= o && NextFor(s, d.orders[o])
    {
      if o in b.orders {
        LaterIsNextFor(s, b.orders[o], d.orders[o]);
      } else {
        ByHandIsNextFor(s, d.orders[o]);
      }
    }
  }

  lemma LaterIsNextFor(s: State, o: BrokerOrder, p: BrokerOrder)
    requires NextFor(s, o) && p == o.(status := p.status, cancelAcknowledged := p.cancelAcknowledged)
    ensures NextFor(s, p)
  {
  }

  lemma ByHandIsNextFor(s: State, o: BrokerOrder)
    requires o.origin == None && NotEngineId(o.clientId)
    ensures NextFor(s, o)
  {
  }

  lemma GetOrderGrows(s: State, w: World, a: Account, o: nat)
    requires Grew(s, w.book)
    ensures Grew(s, GetOrder(w, a, o).0.book)
  {
    BeginGrows(s, w, GetOrderCall(a, o));
  }

  lemma CancelGrows(s: State, w: World, a: Account, o: nat)
    requires Grew(s, w.book)
    ensures Grew(s, CancelOrder(w, a, o).0.book)
  {
    hide Begin, Grew;
    BeginGrows(s, w, CancelCall(a, o));
    var b := Begin(w, CancelCall(a, o)).book;
    if o in b.orders {
      AcknowledgeGrows(s, b, o);
    }
  }

  lemma AcknowledgeGrows(s: State, b: Book, o: nat)
    requires Grew(s, b) && o in b.orders
    ensures Grew(s, Acknowledge(b, o))
  {
    hide NextFor;
    if o !in s.world.book.orders {
      LaterIsNextFor(s, b.orders[o], b.orders[o].(cancelAcknowledged := true));
    }
  }

  lemma SubmitGrows(s: State, w: World, a: Account, d: Draft, g: Origin)
    requires Grew(s, w.book) && Known(s.sugs, g.sug)
    requires s.sugs[g.sug - 1].account == a && s.sugs[g.sug - 1].order.ticker == d.ticker
    requires g.retry == Count(s.rows, RealOf(g.sug)) && AllCancelled(s.rows, g.sug)
    ensures Grew(s, SubmitOrder(w, a, d, g).0.book)
  {
    hide Begin, Print, Count, HolderFrom, Descends;
    BeginGrows(s, w, SubmitCall(a, Print(g.sug, g.retry)));
  }

  // The same rows as far as suggestions are concerned.
  ghost predicate SameOwners(rows: seq<Row>, rows': seq<Row>) {
    && |rows| == |rows'|
    && forall i :: 0 <= i < |rows| ==> rows'[i].sug == rows[i].sug && rows'[i].dryRun == rows[i].dryRun
  }

  lemma {:induction false} SameOwnersSameCount(rows: seq<Row>, rows': seq<Row>, n: nat)
    requires SameOwners(rows, rows')
    ensures Count(rows', RealOf(n)) == Count(rows, RealOf(n))
  {
    if rows != [] {
      SameOwnersSameCount(rows[..|rows| - 1], rows'[..|rows| - 1], n);
    }
  }

  lemma ClearStaleGrows(s: State, s1: State, i: nat, a: Account)
    requires Grew(s, s1.world.book) && i < |s1.rows|
    ensures var s2 := ClearStale(s1, i, a).0; Grew(s, s2.world.book) && SameOwners(s1.rows, s2.rows)
  {
    hide Grew, GetOrder, CancelOrder;
    if s1.rows[i].orderId.Some? {
      var o := s1.rows[i].orderId.value;
      GetOrderGrows(s, s1.world, a, o);
      CancelGrows(s, GetOrder(s1.world, a, o).0, a, o);
    }
  }

  lemma {:induction false} ClearStaleFromGrows(s: State, s1: State, i: nat, a: Account, ticker: Ticker, n: nat)
    requires Grew(s, s1.world.book) && i <= |s1.rows|
    ensures var s2 := ClearStaleFrom(s1, i, a, ticker, n).0; Grew(s, s2.world.book) && SameOwners(s1.rows, s2.rows)
    decreases |s1.rows| - i
  {
    hide Grew, ClearStale, Blocks;
    if i < |s1.rows| {
      if Blocks(a, ticker, n)(s1.rows[i]) {
        ClearStaleGrows(s, s1, i, a);
        var (s2, v) := ClearStale(s1, i, a);
        if v == Go {
          ClearStaleFromGrows(s, s2, i + 1, a, ticker, n);
        }
      } else {
        ClearStaleFromGrows(s, s1, i + 1, a, ticker, n);
      }
    }
  }

  lemma GuardsGrow(s: State, s1: State, a: Account, mode: Mode, n: nat, caps: Option<Caps>, now: Time)
    requires Grew(s, s1.world.book) && Known(s1.sugs, n)
    ensures var s2 := Guards(s1, a, mode, n, caps, now).0; Grew(s, s2.world.book) && SameOwners(s1.rows, s2.rows)
  {
    hide Grew, ClearStaleFrom, Count, Sum, Begin;
    ClearStaleFromGrows(s, s1, 0, a, Sug(s1, n).order.ticker, n);
    var s2 := CheckStale(s1, a, mode, n).0;
    BeginGrows(s, s2.world, AccountCall(a));
  }

  lemma {:induction false} KillFromGrows(s: State, s1: State, i: nat, a: Account, cutoff: Time)
    requires Grew(s, s1.world.book) && i <= |s1.rows|
    ensures Grew(s, KillFrom(s1, i, a, cutoff).world.book)
    decreases |s1.rows| - i
  {
    hide Grew, CancelOrder;
    if i < |s1.rows| {
      if RecentlyPlaced(a, cutoff)(s1.rows[i]) {
        CancelGrows(s, s1.world, a, s1.rows[i].orderId.value);
        KillFromGrows(s, s1.(world := CancelOrder(s1.world, a, s1.rows[i].orderId.value).0), i + 1, a, cutoff);
      } else {
        KillFromGrows(s, s1, i + 1, a, cutoff);
      }
    }
  }

  lemma KillGrows(s: State, s1: State, a: Account, now: Time)
    requires Grew(s, s1.world.book)
    ensures Grew(s, Kill(s1, a, now).world.book)
  {
    KillFromGrows(s, s1.(modes := s1.modes[a := Off]), 0, a, now - DAY);
  }

  // The rows of every other suggestion are as many as before.
  ghost predicate OthersCount(rows: seq<Row>, rows': seq<Row>, n: nat) {
    forall m: nat :: m != n ==> Count(rows', RealOf(m)) == Count(rows, RealOf(m))
  }

  lemma AddedCounts(rows: seq<Row>, r: Row, n: nat)
    requires r.sug == Some(n)
    ensures OthersCount(rows, rows + [r], n)
  {
  }

  lemma OwnersCount(rows: seq<Row>, rows': seq<Row>, n: nat)
    requires SameOwners(rows, rows')
    ensures OthersCount(rows, rows', n) && Count(rows', RealOf(n)) == Count(rows, RealOf(n))
  {
    hide SameOwners, Count;
    SameOwnersSameCount(rows, rows', n);
    forall m: nat | m != n
      ensures Count(rows', RealOf(m)) == Count(rows, RealOf(m))
    {
      SameOwnersSameCount(rows, rows', m);
    }
  }

  lemma SubmitFreshGrows(s: State, s1: State, a: Account, n: nat, now: Time)
    requires Grew(s, s1.world.book) && s1.sugs == s.sugs && Known(s.sugs, n) && Sug(s, n).account == a
    requires Count(s1.rows, RealOf(n)) == Count(s.rows, RealOf(n))
    requires AllCancelled(s1.rows, n) && AllCancelled(s.rows, n)
    ensures var t := SubmitFresh(s1, a, n, now);
            t.Turn? && Grew(s, t.s.world.book) && t.s.sugs == s.sugs && OthersCount(s1.rows, t.s.rows, n)
  {
    RetryCountsAll(s1.rows, n);
    hide Grew, SubmitOrder, GetOrder, Kill, Count, Print, AllCancelled;
    var k, d := NextRetry(s1.rows, n), Sug(s1, n).order;
    SubmitGrows(s, s1.world, a, d, Origin(n, k));
    var (w1, sent) := SubmitOrder(s1.world, a, d, Origin(n, k));
    match sent
    case Invalid =>
    case Failed => KillGrows(s, s1.(world := w1), a, now);
    case Confirmed(o) =>
      GetOrderGrows(s, w1, a, o);
      var (w2, back) := GetOrder(w1, a, o);
      KillGrows(s, s1.(world := w2), a, now);
      AddedCounts(s1.rows, Placement(s1, a, n, Print(n, k), o, now), n);
  }

  lemma ProcessGrows(s: State, s1: State, a: Account, mode: Mode, n: nat, caps: Option<Caps>, now: Time)
    requires Grew(s, s1.world.book) && s1.sugs == s.sugs && Known(s.sugs, n) && Sug(s, n).account == a
    requires Count(s1.rows, RealOf(n)) == Count(s.rows, RealOf(n)) && AllCancelled(s.rows, n) && Inv(s1) && mode != Off
    ensures var t := Process(s1, a, mode, n, caps, now);
            Grew(s, t.s.world.book) && t.s.sugs == s.sugs && (t.Turn? ==> OthersCount(s1.rows, t.s.rows, n))
  {
    hide Grew, Guards, Count, GetOrder, SubmitFresh, Newest, SameOwners, Print, Inv, AllCancelled;
    GuardsGrow(s, s1, a, mode, n, caps, now);
    GuardsKeep(s1, a, mode, n, caps, now);
    var (s2, v) := Guards(s1, a, mode, n, caps, now);
    OwnersCount(s1.rows, s2.rows, n);
    if v == Go && mode == DryRun {
      AddedCounts(s2.rows, Simulate(s2, a, n, now).s.rows[|s2.rows|], n);
    } else if v == Go {
      var i := Newest(s2.rows, Readoptable(n), |s2.rows|);
      SubmitFreshGrows(s, s2, a, n, now);
      if i < |s2.rows| {
        var o := s2.rows[i].orderId.value;
        GetOrderGrows(s, s2.world, a, o);
        var w1 := GetOrder(s2.world, a, o).0;
        SubmitFreshGrows(s, s2.(world := w1), a, n, now);
        ReadoptedOwners(s2, i, now);
        OwnersCount(s2.rows, Readopt(s2, i, now).rows, n);
      }
    }
  }

  lemma ReadoptedOwners(s: State, i: nat, now: Time)
    requires i < |s.rows|
    ensures SameOwners(s.rows, Readopt(s, i, now).rows)
  {
  }

  lemma {:induction false} PassFromGrows(s: State, s1: State, a: Account, mode: Mode, ids: seq<nat>, j: nat,
                                         caps: Option<Caps>, now: Time, outcomes: seq<Outcome>)
    requires Grew(s, s1.world.book) && s1.sugs == s.sugs && Ours(s, a, ids, now) && j <= |ids|
    requires Inv(s1) && mode != Off
    requires forall i, k :: 0 <= i < k < |ids| ==> ids[i] < ids[k]
    requires forall k :: j <= k < |ids| ==>
               Count(s1.rows, RealOf(ids[k])) == Count(s.rows, RealOf(ids[k])) && AllCancelled(s.rows, ids[k])
    ensures Grew(s, PassFrom(s1, a, mode, ids, j, caps, now, outcomes).s.world.book)
    decreases |ids| - j
  {
    hide Grew, Process, Count, Inv, AllCancelled;
    if j < |ids| {
      ProcessGrows(s, s1, a, mode, ids[j], caps, now);
      ProcessKeeps(s1, a, mode, ids[j], caps, now);
      var t := Process(s1, a, mode, ids[j], caps, now);
      if t.Turn? && !t.stop {
        PassFromGrows(s, t.s, a, mode, ids, j + 1, caps, now, outcomes + [t.outcome]);
      }
    }
  }

  lemma GrownOrders(s: State, w: World, o: nat)
    requires Inv(s) && Grew(s, w.book) && o in w.book.orders
    ensures OrderOK(w.book.orders[o], s.sugs, s.rows)
    ensures var u := Forgotten(s.world, w).unrecorded;
            && (Working(w.book.orders[o]) && o !in u ==> exists i :: 0 <= i < |s.rows| && Covers(s.rows[i], o))
            && (w.book.orders[o].origin.Some? && o !in u ==> exists i :: 0 <= i < |s.rows| && Names(s.rows[i], o))
  {
    if o in s.world.book.orders {
      assert OrderOK(s.world.book.orders[o], s.sugs, s.rows);
    } else {
      assert NextFor(s, w.book.orders[o]);
    }
  }

  lemma GrownIsConsistent(s: State, w: World)
    requires Inv(s) && Grew(s, w.book)
    ensures Inv(s.(world := Forgotten(s.world, w)))
  {
    forall o | o in w.book.orders
      ensures OrderOK(w.book.orders[o], s.sugs, s.rows)
      ensures var u := Forgotten(s.world, w).unrecorded;
              && (Working(w.book.orders[o]) && o !in u ==> exists i :: 0 <= i < |s.rows| && Covers(s.rows[i], o))
              && (w.book.orders[o].origin.Some? && o !in u ==> exists i :: 0 <= i < |s.rows| && Names(s.rows[i], o))
    {
      GrownOrders(s, w, o);
    }
    forall i | 0 <= i < |s.rows|
      ensures RowOK(s.rows[i], w.book)
      ensures OpenRowOK(s.rows[i], s.sugs, w.book, Forgotten(s.world, w).unrecorded)
    {
      assert RowOK(s.rows[i], s.world.book);
      assert OpenRowOK(s.rows[i], s.sugs, s.world.book, s.world.unrecorded);
    }
    hide OrderOK, BookOK, NextFor, Working, Covers, Names, Forgotten;
  }

  // A pass an exception escapes from keeps the invariant too. No row names an order it got
  // accepted, and everything else is as well recorded as before. Each such order carries the
  // next id of its suggestion still.
  lemma EscapedPassForgets(s: State, a: Account, caps: Option<Caps>, now: Time)
    requires Inv(s) && Pass(s, a, caps, now).escaped
    ensures var r := Pass(s, a, caps, now);
            && Inv(r.s) && r.s == s.(world := r.s.world) && r.outcomes == []
            && forall o :: o in r.s.world.book.orders && o !in s.world.book.orders ==>
                 && (forall i :: 0 <= i < |r.s.rows| ==> !Names(r.s.rows[i], o))
                 && NextFor(r.s, r.s.world.book.orders[o])
  {
    hide PassFrom, Inv, Count, NextFor, OrderOK, BookOK, AllCancelled;
    var mode, ids := ModeOf(s.modes, a), Fetch(s, a, now);
    NothingGrew(s);
    FetchedAreCancelled(s, a, now);
    PassFromGrows(s, s, a, mode, ids, 0, caps, now, []);
    var w := PassFrom(s, a, mode, ids, 0, caps, now, []).s.world;
    GrownIsConsistent(s, w);
    OldRowsNameOldOrders(s);
    forall o | o in w.book.orders && o !in s.world.book.orders
      ensures NextFor(s.(world := Forgotten(s.world, w)), w.book.orders[o])
    {
      assert NextFor(s, w.book.orders[o]);
      SameLedgerSameNext(s, s.(world := Forgotten(s.world, w)), w.book.orders[o]);
    }
  }

  // A suggestion is fetched only when its real rows, if any, are all cancelled.
  lemma FetchedAreCancelled(s: State, a: Account, now: Time)
    ensures forall k :: 0 <= k < |Fetch(s, a, now)| ==> AllCancelled(s.rows, Fetch(s, a, now)[k])
  {
    hide Fetch;
    forall k | 0 <= k < |Fetch(s, a, now)|
      ensures AllCancelled(s.rows, Fetch(s, a, now)[k])
    {
      var n := Fetch(s, a, now)[k];
      FetchIsEligible(s, a, now, 1, n);
    }
  }

  lemma SameLedgerSameNext(s: State, s1: State, o: BrokerOrder)
    requires NextFor(s, o) && s1.sugs == s.sugs && s1.rows == s.rows
    ensures NextFor(s1, o)
  {
  }

  lemma NothingGrew(s: State)
    requires Inv(s)
    ensures Grew(s, s.world.book)
  {
  }

  lemma OldRowsNameOldOrders(s: State)
    requires Inv(s)
    ensures forall i, o :: 0 <= i < |s.rows| && Names(s.rows[i], o) ==> o in s.world.book.orders
  {
    forall i, o | 0 <= i < |s.rows| && Names(s.rows[i], o)
      ensures o in s.world.book.orders
    {
      assert RowOK(s.rows[i], s.world.book);
    }
  }

  // ---- Which calls let an exception escape ------------------------------------------------------

  // How the broker's script has call k go, counting the calls made from world w on.
  function FaultOf(w: World, k: nat): Fault
    requires |w.calls| <= k
  {
    if k - |w.calls| < |w.ticks| then w.ticks[k - |w.calls|].fault else Raises
  }

  // Call k, made since w, asks for a cancel or for the buying power, and raises.
  predicate AskRaises(w: World, calls: seq<Call>, k: nat) {
    |w.calls| <= k < |calls| && (calls[k].CancelCall? || calls[k].AccountCall?) && FaultOf(w, k) != Fine
  }

  predicate SomeAskRaises(w: World, calls: seq<Call>) {
    exists k :: |w.calls| <= k < |calls| && AskRaises(w, calls, k)
  }

  // One tick of the script was used per call.
  predicate Used(w: World, w': World) {
    && w.calls <= w'.calls
    && var used := |w'.calls| - |w.calls|;
    w'.ticks == if used <= |w.ticks| then w.ticks[used..] else []
  }

  lemma AsksJoin(w: World, w1: World, w2: World)
    requires Used(w, w1) && Used(w1, w2)
    ensures Used(w, w2)
    ensures SomeAskRaises(w, w2.calls) <==> SomeAskRaises(w, w1.calls) || SomeAskRaises(w1, w2.calls)
  {
    forall k | |w.calls| <= k < |w2.calls|
      ensures AskRaises(w, w2.calls, k) <==> if k < |w1.calls| then AskRaises(w, w1.calls, k) else
                AskRaises(w1, w2.calls, k)
    {
    }
  }

  lemma ClearStaleEscapesIff(s: State, i: nat, a: Account)
    requires i < |s.rows|
    ensures var (s1, v) := ClearStale(s, i, a);
            Used(s.world, s1.world) && (v == Escapes <==> SomeAskRaises(s.world, s1.world.calls))
  {
    NothingAsked(s.world);
    if s.rows[i].orderId.Some? {
      var o := s.rows[i].orderId.value;
      var w1 := GetOrder(s.world, a, o).0;
      ReadingNeverEscapes(s.world, a, o);
      CancelEscapesIff(w1, a, o);
      AsksJoin(s.world, w1, CancelOrder(w1, a, o).0);
      hide GetOrder, CancelOrder, Used, SomeAskRaises, Holds;
    }
  }

  lemma ReadingNeverEscapes(w: World, a: Account, o: nat)
    ensures var (w1, conf) := GetOrder(w, a, o);
            Used(w, w1) && !SomeAskRaises(w, w1.calls) && (conf.Some? ==> Holds(w1.book, a, o))
  {
    OneCall(w, GetOrderCall(a, o));
  }

  lemma CancelEscapesIff(w: World, a: Account, o: nat)
    ensures var (w1, ok) := CancelOrder(w, a, o);
            Used(w, w1) && (Holds(w.book, a, o) ==> (ok <==> !SomeAskRaises(w, w1.calls)))
  {
    OneCall(w, CancelCall(a, o));
    var w1 := Begin(w, CancelCall(a, o));
    assert Holds(w.book, a, o) ==> Holds(w1.book, a, o);
    hide Begin, SomeAskRaises;
    assert CancelOrder(w, a, o).0.calls == w1.calls && CancelOrder(w, a, o).0.ticks == w1.ticks;
  }

  lemma {:induction false} ClearStaleFromEscapesIff(s: State, i: nat, a: Account, ticker: Ticker, n: nat)
    requires i <= |s.rows|
    ensures var (s1, v) := ClearStaleFrom(s, i, a, ticker, n);
            Used(s.world, s1.world) && (v == Escapes <==> SomeAskRaises(s.world, s1.world.calls))
    decreases |s.rows| - i
  {
    hide ClearStale, SomeAskRaises, Used;
    if i == |s.rows| {
      NothingAsked(s.world);
    } else if Blocks(a, ticker, n)(s.rows[i]) {
      ClearStaleEscapesIff(s, i, a);
      var (s1, v) := ClearStale(s, i, a);
      if v == Go {
        ClearStaleFromEscapesIff(s1, i + 1, a, ticker, n);
        AsksJoin(s.world, s1.world, ClearStaleFrom(s1, i + 1, a, ticker, n).0.world);
      }
    } else {
      ClearStaleFromEscapesIff(s, i + 1, a, ticker, n);
    }
  }

  lemma NothingAsked(w: World)
    ensures Used(w, w) && !SomeAskRaises(w, w.calls)
  {
  }

  // The guards let an exception escape exactly when a cancel they ask for, or the reading of
  // the buying power, raises. A reading of an order that raises is a refusal, never an escape.
  lemma GuardsEscapeIff(s: State, a: Account, mode: Mode, n: nat, caps: Option<Caps>, now: Time)
    requires Known(s.sugs, n)
    ensures var (s1, v) := Guards(s, a, mode, n, caps, now);
            v == Escapes <==> SomeAskRaises(s.world, s1.world.calls)
  {
    hide CheckStale, CheckCash, CheckCaps, Count, Used, SomeAskRaises;
    NothingAsked(s.world);
    CheckStaleEscapesIff(s, a, mode, n);
    var s1 := CheckStale(s, a, mode, n).0;
    CheckCashEscapesIff(s1, a, Sug(s, n).order);
    AsksJoin(s.world, s1.world, CheckCash(s1, a, Sug(s, n).order).0.world);
  }

  lemma CheckStaleEscapesIff(s: State, a: Account, mode: Mode, n: nat)
    requires Known(s.sugs, n)
    ensures var (s1, v) := CheckStale(s, a, mode, n);
            Used(s.world, s1.world) && (v == Escapes <==> SomeAskRaises(s.world, s1.world.calls))
  {
    hide ClearStaleFrom, Count, Used, SomeAskRaises;
    NothingAsked(s.world);
    ClearStaleFromEscapesIff(s, 0, a, Sug(s, n).order.ticker, n);
  }

  lemma CheckCashEscapesIff(s: State, a: Account, order: Draft)
    ensures var (s1, v) := CheckCash(s, a, order);
            Used(s.world, s1.world) && (v == Escapes <==> SomeAskRaises(s.world, s1.world.calls))
  {
    NothingAsked(s.world);
    OneCall(s.world, AccountCall(a));
  }

  // One call uses one tick; it is one that lets an exception escape only if it raises.
  lemma OneCall(w: World, c: Call)
    ensures Used(w, Begin(w, c))
    ensures SomeAskRaises(w, Begin(w, c).calls) <==> (c.CancelCall? || c.AccountCall?) && Now(w).fault != Fine
  {
    assert AskRaises(w, Begin(w, c).calls, |w.calls|) <==> (c.CancelCall? || c.AccountCall?) && Now(w).fault != Fine;
  }

  // The pass gets to its j-th turn, and there a call of the guards raises that must not.
  predicate RaisesAt(s: State, a: Account, mode: Mode, ids: seq<nat>, j: nat, caps: Option<Caps>, now: Time)
    requires AllKnown(s, ids) && j < |ids|
  {
    var b := Before(s, a, mode, ids, j, caps, now);
    b.Some? && SomeAskRaises(b.value.world, Guards(b.value, a, mode, ids[j], caps, now).0.world.calls)
  }

  // An exception escapes from a pass exactly when it gets to such a turn.
  lemma PassEscapesIff(s: State, a: Account, caps: Option<Caps>, now: Time)
    requires ModeOf(s.modes, a) != Off
    ensures var mode, ids := ModeOf(s.modes, a), Fetch(s, a, now);
            Pass(s, a, caps, now).escaped <==> exists j :: 0 <= j < |ids| && RaisesAt(s, a, mode, ids, j, caps, now)
  {
    hide PassFrom, Fetch, Guards, SomeAskRaises, Process, Before;
    var mode, ids := ModeOf(s.modes, a), Fetch(s, a, now);
    var k := PassEndsAt(s, a, mode, ids, caps, now);
    forall j | 0 <= j < |ids| && RaisesAt(s, a, mode, ids, j, caps, now)
      ensures j == k
    {
      RaisingEndsThePass(s, a, mode, ids, j, caps, now);
    }
    if k < |ids| {
      TurnEscapesIff(Before(s, a, mode, ids, k, caps, now).value, a, mode, ids[k], caps, now);
      assert RaisesAt(s, a, mode, ids, k, caps, now) <==> Pass(s, a, caps, now).escaped;
    }
  }

  lemma TurnEscapesIff(s: State, a: Account, mode: Mode, n: nat, caps: Option<Caps>, now: Time)
    requires Known(s.sugs, n)
    ensures Process(s, a, mode, n, caps, now).Escaped? <==>
              SomeAskRaises(s.world, Guards(s, a, mode, n, caps, now).0.world.calls)
  {
    hide Guards, SomeAskRaises;
    GuardsEscapeIff(s, a, mode, n, caps, now);
  }

  lemma RaisingEndsThePass(s: State, a: Account, mode: Mode, ids: seq<nat>, j: nat, caps: Option<Caps>, now: Time)
    requires AllKnown(s, ids) && j < |ids| && RaisesAt(s, a, mode, ids, j, caps, now)
    ensures forall i :: j < i <= |ids| ==> Before(s, a, mode, ids, i, caps, now) == None
  {
    hide Guards, SomeAskRaises, Process;
    TurnEscapesIff(Before(s, a, mode, ids, j, caps, now).value, a, mode, ids[j], caps, now);
    NothingAfter(s, a, mode, ids, j + 1, caps, now);
  }

  // ---- What becomes of a forgotten order ------------------------------------------------------

  // The order was submitted for these terms.
  predicate HasTerms(o: BrokerOrder, d: Draft) {
    o.ticker == d.ticker && o.side == d.side && o.qty == d.qty && o.limit == Some(d.limit)
  }

  // The row shows the order's own terms.
  predicate SameTerms(r: Row, o: BrokerOrder) {
    r.ticker == o.ticker && r.side == o.side && r.submittedQty == Some(o.qty) && r.limit == o.limit
  }

  // The broker is undisturbed for the two calls of a submission, and order o stays open.
  predicate Undisturbed(w: World, a: Account, id: string, o: nat) {
    var w1 := Begin(w, SubmitCall(a, id));
    && Now(w).fault == Fine && Now(w1).fault == Fine && Now(w1).echo == None
    && o in w1.book.orders && IsLive(w1.book.orders[o].status) && w1.book.orders[o].status != PendingCancel
  }

  // The suggestion's next submission asks for the same id, is handed the open order, and
  // records it: the order is recovered, and no other is created. The row is given the terms
  // the suggestion has now; they are the order's own exactly when those are still the same.
  ghost predicate Recovers(s: State, a: Account, n: nat, o: nat, now: Time)
    requires Known(s.sugs, n) && o in s.world.book.orders
  {
    var t := SubmitFresh(s, a, n, now);
    && t.Turn? && !t.stop && t.outcome == Outcome(n, true, false, Some(o), None)
    && t.s.rows == s.rows + [Placement(s, a, n, Print(n, NextRetry(s.rows, n)), o, now)]
    && o !in t.s.world.unrecorded && o in t.s.world.book.orders
    && (SameTerms(t.s.rows[|s.rows|], t.s.world.book.orders[o]) <==>
          HasTerms(s.world.book.orders[o], Sug(s, n).order))
    && forall p :: p in t.s.world.book.orders && t.s.world.book.orders[p].origin.Some? ==> p in s.world.book.orders
  }

  lemma ForgottenOrderIsRecovered(s: State, a: Account, n: nat, o: nat, now: Time)
    requires Inv(s) && Known(s.sugs, n) && Sug(s, n).account == a
    requires o in s.world.book.orders && NextFor(s, s.world.book.orders[o])
    requires s.world.book.orders[o].origin.Some? && s.world.book.orders[o].origin.value.sug == n
    requires Undisturbed(s.world, a, Print(n, NextRetry(s.rows, n)), o)
    ensures Recovers(s, a, n, o, now)
  {
    RetryCountsAll(s.rows, n);
    var g := Origin(n, NextRetry(s.rows, n));
    assert s.world.book.orders[o].origin == Some(g) && s.world.book.orders[o].account == a;
    assert s.world.book.orders[o].clientId == Some(Print(n, g.retry));
    hide Print, NextRetry, AllCancelled, NextFor, Inv, SubmitOrder, GetOrder, Undisturbed;
    ItIsHandedOver(s, a, Sug(s, n).order, g, o);
  }

  // Submission and read-back name the order, and it stays as it is but for its status.
  lemma ItIsHandedOver(s: State, a: Account, d: Draft, g: Origin, o: nat)
    requires Inv(s) && o in s.world.book.orders && Undisturbed(s.world, a, Print(g.sug, g.retry), o)
    requires var order := s.world.book.orders[o];
             order.account == a && order.origin == Some(g) && order.clientId == Some(Print(g.sug, g.retry))
    ensures var (w1, sent) := SubmitOrder(s.world, a, d, g);
            var (w2, back) := GetOrder(w1, a, o);
            && sent == Confirmed(o) && back.Some? && back.value.clientId == Some(Print(g.sug, g.retry))
            && o in w2.book.orders && w2.book.orders[o] == s.world.book.orders[o].(status := w2.book.orders[o].status)
            && w2.unrecorded == s.world.unrecorded
            && forall p :: p in w2.book.orders && w2.book.orders[p].origin.Some? ==> p in s.world.book.orders
  {
    hide Print, Inv, Begin, HolderFrom;
    var id := Print(g.sug, g.retry);
    BeginKeeps(s, SubmitCall(a, id));
    var w1 := Begin(s.world, SubmitCall(a, id));
    SameOrderLater(s.world, SubmitCall(a, id), o);
    TheHolder(s.(world := w1), a, g, o);
    assert SubmitOrder(s.world, a, d, g) == (w1, Confirmed(o));
    SameOrderLater(w1, GetOrderCall(a, o), o);
    var w2 := Begin(w1, GetOrderCall(a, o));
    assert GetOrder(w1, a, o) == (w2, Some(Confirmation(w2.book.orders[o].status, Some(id))));
    forall p | p in w2.book.orders && w2.book.orders[p].origin.Some?
      ensures p in s.world.book.orders
    {
      assert p in w1.book.orders && w1.book.orders[p].origin.Some?;
    }
  }

  lemma SameOrderLater(w: World, c: Call, o: nat)
    requires o in w.book.orders
    ensures var w1 := Begin(w, c);
            && o in w1.book.orders && w1.book.orders[o] == w.book.orders[o].(status := w1.book.orders[o].status)
            && forall p :: p in w1.book.orders && w1.book.orders[p].origin.Some? ==>
                 p in w.book.orders && w.book.orders[p].origin == w1.book.orders[p].origin
  {
  }

  // The order of an account that came from a submission is the one under that submission's id.
  lemma TheHolder(s: State, a: Account, g: Origin, o: nat)
    requires Inv(s) && o in s.world.book.orders
    requires s.world.book.orders[o].account == a && s.world.book.orders[o].origin == Some(g)
    requires s.world.book.orders[o].clientId == Some(Print(g.sug, g.retry))
    ensures HolderFrom(s.world.book, a, Print(g.sug, g.retry), 0) == Some(o)
  {
    hide Print;
    var b, id := s.world.book, Print(g.sug, g.retry);
    var holder := HolderFrom(b, a, id, 0);
    assert holder.Some? by {
      assert o < b.nextId && b.orders[o].clientId == Some(id);
    }
    assert OrderOK(b.orders[holder.value], s.sugs, s.rows);
    hide OrderOK;
    IdNamesOrigin(b.orders[holder.value], s.sugs, s.rows, g);
    assert SameId(b.orders[holder.value], b.orders[o]);
  }

  // Whatever a submission records: the row shows the terms of its order exactly when the order
  // is new or, being one the broker had already, was submitted for the suggestion's present
  // terms. An order the broker had already is one that no row names.
  lemma RecordedTermsIff(s: State, a: Account, n: nat, now: Time)
    requires Inv(s) && Known(s.sugs, n) && Sug(s, n).account == a && AllCancelled(s.rows, n)
    requires SubmitFresh(s, a, n, now).Turn? && SubmitFresh(s, a, n, now).outcome.placed
    ensures var t, b := SubmitFresh(s, a, n, now), s.world.book;
            && t.outcome.order.Some? && t.outcome.order.value in t.s.world.book.orders && |t.s.rows| == |s.rows| + 1
            && var o := t.outcome.order.value;
            && (o in b.orders ==> o in s.world.unrecorded && forall i :: 0 <= i < |s.rows| ==> !Names(s.rows[i], o))
            && (SameTerms(t.s.rows[|s.rows|], t.s.world.book.orders[o]) <==>
                  (o in b.orders ==> HasTerms(b.orders[o], Sug(s, n).order)))
  {
    hide SubmitOrder, GetOrder, Print, NextRetry, AllCancelled, Inv, Kill;
    var g, d := Origin(n, NextRetry(s.rows, n)), Sug(s, n).order;
    var (w1, sent) := SubmitOrder(s.world, a, d, g);
    assert sent.Confirmed?;
    ConfirmedOrder(s, a, d, g);
    GetOrderEvolves(w1, a, sent.order);
    if sent.order in s.world.book.orders {
      UnderNextIdHasNoRow(s, n, sent.order);
    }
  }

  // An order under the id the next submission asks for is named by no row.
  lemma UnderNextIdHasNoRow(s: State, n: nat, o: nat)
    requires Inv(s) && AllCancelled(s.rows, n) && o in s.world.book.orders && s.world.book.orders[o].origin.Some?
    requires s.world.book.orders[o].clientId == Some(Print(n, NextRetry(s.rows, n)))
    ensures o in s.world.unrecorded && forall i :: 0 <= i < |s.rows| ==> !Names(s.rows[i], o)
  {
    NextIdIsFresh(s, n);
    hide Print, NextRetry, AllCancelled, OrderOK;
    forall i | 0 <= i < |s.rows|
      ensures !Names(s.rows[i], o)
    {
      assert RowOK(s.rows[i], s.world.book);
    }
    assert Recorded(s.rows, s.world.book, s.world.unrecorded);
  }

  // A confirmed order carries the id asked for. It is the one created for these terms, or one
  // the broker had already.
  lemma ConfirmedOrder(s: State, a: Account, d: Draft, g: Origin)
    requires Inv(s) && SubmitOrder(s.world, a, d, g).1.Confirmed?
    ensures var (w1, sent) := SubmitOrder(s.world, a, d, g);
            && sent.order in w1.book.orders
            && var b, order := s.world.book, w1.book.orders[sent.order];
            && order.clientId == Some(Print(g.sug, g.retry)) && order.origin.Some?
            && if sent.order in b.orders then order == b.orders[sent.order].(status := order.status)
               else HasTerms(order, d)
  {
    var id := Print(g.sug, g.retry);
    BeginKeeps(s, SubmitCall(a, id));
    var w1 := Begin(s.world, SubmitCall(a, id));
    var holder := HolderFrom(w1.book, a, id, 0);
    if holder.Some? {
      IdNamesOrigin(w1.book.orders[holder.value], s.sugs, s.rows, g);
    }
  }

  // ---- A pass that forgets an order --------------------------------------------------------------

  const SELL := Draft("X", Sell, 1.0, 10.0, "", None, None, 1.0, Regular)
  const BUY := Draft("Y", Buy, 1.0, 10.0, "", None, None, 1.0, Regular)
  const CAPS := Caps(50.0, 50.0, 50.0, 5)
  // A Tuesday of the week that starts on day 4.
  const TUESDAY := 5 * DAY

  // A sell and a buy accepted for the week, and a broker that answers two calls.
  function SellAndBuy(): State {
    var calm := Tick(Book(map[], 0), Fine, None, 0.0, {});
    State([Suggestion(0, 4, SELL, Accepted, None, 0, Some(0), None),
        Suggestion(0, 4, BUY, Accepted, None, 0, Some(0), None)],
          [], map[0 := Live], World(Book(map[], 0), [calm, calm], [], {}))
  }

  function Sold(): Row {
    Placement(SellAndBuy(), 0, 1, Print(1, 0), 0, TUESDAY)
  }

  lemma TheSellIsPlaced()
    ensures var t := Process(SellAndBuy(), 0, Live, 1, Some(CAPS), TUESDAY);
            && t.Turn? && !t.stop && t.s.rows == [Sold()]
            && t.s.sugs == SellAndBuy().sugs && t.s.modes == SellAndBuy().modes && t.s.world.ticks == []
            && 0 in t.s.world.book.orders && Working(t.s.world.book.orders[0])
  {
    hide Print;
    assert CheckCaps([], 0, false, SELL, CAPS, TUESDAY) == Go;
  }

  lemma TheBuyEscapes(s: State)
    requires s.rows == [Sold()] && s.sugs == SellAndBuy().sugs && s.world.ticks == []
    ensures var t := Process(s, 0, Live, 2, Some(CAPS), TUESDAY);
            t.Escaped? && t.s.modes == s.modes && t.s.world.book == s.world.book
  {
    hide Print;
    var row := Sold();
    assert [row][..0] == [];
    assert ClearStaleFrom(s, 1, 0, "Y", 2) == (s, Go);
    assert ClearStaleFrom(s, 0, 0, "Y", 2) == (s, Go);
    assert CheckStale(s, 0, Live, 2) == (s, Go);
    assert Count([row], Replays(2, 0, false)) == 0 && Count([row], LossSell(0, "Y", TUESDAY - 30 * DAY)) == 0;
    TheBuyFits(row);
    hide CheckCaps, CheckStale, Count;
    assert Guards(s, 0, Live, 2, Some(CAPS), TUESDAY).1 == Escapes;
  }

  lemma TheBuyFits(row: Row)
    requires row == Sold()
    ensures CheckCaps([row], 0, false, BUY, CAPS, TUESDAY) == Go
  {
    hide Print;
    assert [row][..0] == [];
    assert Notional(row) == 10.0 && Cost(BUY) == 10.0;
    assert Sum([row], DaySpend(0, false, DayStart(TUESDAY))) == 10.0;
    assert Sum([row], TickerSpend(0, false, "Y", WeekStart(TUESDAY))) == 0.0;
    assert Count([row], InDay(0, false, DayStart(TUESDAY))) == 1;
  }

  // The sell is submitted, read back and recorded; then the account call for the buy raises.
  // The sell stays working at the broker and the mode stays LIVE, but the ledger has no row.
  lemma EscapeForgetsAnOrder()
    ensures Inv(SellAndBuy())
    ensures var r := Pass(SellAndBuy(), 0, Some(CAPS), TUESDAY);
            && r.escaped && ModeOf(r.s.modes, 0) == Live && r.s.rows == []
            && 0 in r.s.world.book.orders && Working(r.s.world.book.orders[0])
  {
    var s := SellAndBuy();
    assert Inv(s) && ModeOf(s.modes, 0) == Live;
    BothAreFetched();
    TheSellIsPlaced();
    hide Process, Fetch, Inv;
    var t := Process(s, 0, Live, 1, Some(CAPS), TUESDAY);
    TheBuyEscapes(t.s);
    assert PassFrom(t.s, 0, Live, [1, 2], 1, Some(CAPS), TUESDAY, [t.outcome]).escaped;
  }

  lemma BothAreFetched()
    ensures Fetch(SellAndBuy(), 0, TUESDAY) == [1, 2]
  {
    assert CurrentWeek(TUESDAY) == 4;
    assert Fetch(SellAndBuy(), 0, TUESDAY, 3) == [];
    assert Fetch(SellAndBuy(), 0, TUESDAY, 2) == [2];
  }
}
