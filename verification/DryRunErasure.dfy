// Simulated rows never influence a live pass, and a simulating pass never touches an order.
module DryRunErasure {
  import opened Options
  import opened OrderIds
  import opened Trading
  import opened Broker
  import opened AutoTrade

  // The ledger with every simulated row removed.
  function Erase(s: State): State {
    s.(rows := RealRows(s.rows))
  }

  function EraseTurn(t: Turn): Turn {
    match t
    case Turn(s, o, stop) => Turn(Erase(s), o, stop)
    case Escaped(s) => Escaped(Erase(s))
  }

  lemma EraseUpdate(s: State, i: nat, q: Row, w: World)
    requires i < |s.rows| && !s.rows[i].dryRun && !q.dryRun
    ensures Rank(s.rows, i) < |RealRows(s.rows)| && RealRows(s.rows)[Rank(s.rows, i)] == s.rows[i]
    ensures Erase(s.(rows := s.rows[i := q], world := w)) ==
            Erase(s).(rows := Erase(s).rows[Rank(s.rows, i) := q], world := w)
  {
    RankNext(s.rows, i);
    RealUpdate(s.rows, i, q);
  }

  lemma ClearStaleErased(s: State, i: nat, a: Account)
    requires i < |s.rows| && !s.rows[i].dryRun
    ensures Rank(s.rows, i) < |RealRows(s.rows)|
    ensures var (s1, v) := ClearStale(s, i, a);
            && ClearStale(Erase(s), Rank(s.rows, i), a) == (Erase(s1), v)
            && Rank(s1.rows, i + 1) == Rank(s.rows, i + 1)
  {
    hide GetOrder, CancelOrder, RealRows;
    var o := s.rows[i].orderId;
    var w0 := s.world;
    EraseUpdate(s, i, MarkCancelled(s.rows[i]), w0);
    RankUpdate(s.rows, i, MarkCancelled(s.rows[i]), i + 1);
    assert s.(rows := s.rows[i := MarkCancelled(s.rows[i])], world := w0) ==
        s.(rows := s.rows[i := MarkCancelled(s.rows[i])]);
    if o.Some? {
      var w1 := GetOrder(s.world, a, o.value).0;
      EraseUpdate(s, i, MarkCancelled(s.rows[i]), w1);
      EraseUpdate(s, i, MarkCancelled(s.rows[i]), CancelOrder(w1, a, o.value).0);
    }
  }

  lemma {:induction false} ClearStaleFromErased(s: State, i: nat, a: Account, ticker: Ticker, n: nat)
    requires i <= |s.rows|
    ensures Rank(s.rows, i) <= |RealRows(s.rows)|
    ensures var (s1, v) := ClearStaleFrom(s, i, a, ticker, n);
            ClearStaleFrom(Erase(s), Rank(s.rows, i), a, ticker, n) == (Erase(s1), v)
    decreases |s.rows| - i
  {
    hide ClearStale, RealRows;
    if i == |s.rows| {
      assert s.rows[..i] == s.rows;
    } else {
      RankNext(s.rows, i);
      if s.rows[i].dryRun {
        ClearStaleFromErased(s, i + 1, a, ticker, n);
      } else if !Blocks(a, ticker, n)(s.rows[i]) {
        ClearStaleFromErased(s, i + 1, a, ticker, n);
      } else {
        ClearStaleErased(s, i, a);
        var (s1, v) := ClearStale(s, i, a);
        if v == Go {
          ClearStaleFromErased(s1, i + 1, a, ticker, n);
        }
      }
    }
  }

  lemma CheckCapsErased(rows: seq<Row>, a: Account, order: Draft, caps: Caps, now: Time)
    ensures CheckCaps(RealRows(rows), a, false, order, caps, now) == CheckCaps(rows, a, false, order, caps, now)
  {
    SumReal(rows, DaySpend(a, false, DayStart(now)));
    SumReal(rows, TickerSpend(a, false, order.ticker, WeekStart(now)));
    CountReal(rows, InDay(a, false, DayStart(now)));
  }

  lemma GuardsErased(s: State, a: Account, n: nat, caps: Option<Caps>, now: Time)
    requires Known(s.sugs, n)
    ensures var (s1, v) := Guards(s, a, Live, n, caps, now);
            Guards(Erase(s), a, Live, n, caps, now) == (Erase(s1), v)
  {
    hide ClearStaleFrom, CheckCaps, RealRows, BuyingPower, Count;
    var order := Sug(s, n).order;
    CountReal(s.rows, Replays(n, a, false));
    ClearStaleFromErased(s, 0, a, order.ticker, n);
    assert s.rows[..0] == [];
    assert Rank(s.rows, 0) == 0 by { EraseNothing(s.rows); }
    var s1 := CheckStale(s, a, Live, n).0;
    CountReal(s1.rows, LossSell(a, order.ticker, now - 30 * DAY));
    if caps.Some? {
      CheckCapsErased(s1.rows, a, order, caps.value, now);
    }
  }

  lemma EraseNothing(rows: seq<Row>)
    ensures Rank(rows, 0) == 0
  {
  }

  lemma {:induction false} KillFromErased(s: State, i: nat, a: Account, cutoff: Time)
    requires i <= |s.rows|
    ensures Rank(s.rows, i) <= |RealRows(s.rows)|
    ensures KillFrom(Erase(s), Rank(s.rows, i), a, cutoff) == Erase(KillFrom(s, i, a, cutoff))
    decreases |s.rows| - i
  {
    hide RealRows, CancelOrder;
    if i == |s.rows| {
      assert s.rows[..i] == s.rows;
    } else {
      RankNext(s.rows, i);
      if !s.rows[i].dryRun && RecentlyPlaced(a, cutoff)(s.rows[i]) {
        KillFromErased(s.(world := CancelOrder(s.world, a, s.rows[i].orderId.value).0), i + 1, a, cutoff);
      } else {
        KillFromErased(s, i + 1, a, cutoff);
      }
    }
  }

  lemma KillErased(s: State, a: Account, now: Time)
    ensures Kill(Erase(s), a, now) == Erase(Kill(s, a, now))
  {
    KillFromErased(s.(modes := s.modes[a := Off]), 0, a, now - DAY);
    EraseNothing(s.rows);
  }

  lemma SubmitFreshErased(s: State, a: Account, n: nat, now: Time)
    requires Known(s.sugs, n)
    ensures SubmitFresh(Erase(s), a, n, now) == EraseTurn(SubmitFresh(s, a, n, now))
  {
    hide RealRows, Kill, SubmitOrder, GetOrder, Count;
    CountReal(s.rows, CancelledReal(n));
    var g := Origin(n, NextRetry(s.rows, n));
    var (w1, sent) := SubmitOrder(s.world, a, Sug(s, n).order, g);
    KillErased(s.(world := w1), a, now);
    if sent.Confirmed? {
      var w2 := GetOrder(w1, a, sent.order).0;
      KillErased(s.(world := w2), a, now);
      RealAppend(s.rows, Placement(s, a, n, Print(g.sug, g.retry), sent.order, now));
    }
  }

  lemma PlaceLiveErased(s: State, a: Account, n: nat, now: Time)
    requires Known(s.sugs, n)
    ensures PlaceLive(Erase(s), a, n, now) == EraseTurn(PlaceLive(s, a, n, now))
  {
    hide RealRows, SubmitFresh, GetOrder;
    NewestReal(s.rows, Readoptable(n), |s.rows|);
    assert s.rows[..|s.rows|] == s.rows;
    SubmitFreshErased(s, a, n, now);
    var i := Newest(s.rows, Readoptable(n), |s.rows|);
    if i < |s.rows| {
      RankNext(s.rows, i);
      var w1 := GetOrder(s.world, a, s.rows[i].orderId.value).0;
      EraseUpdate(s, i, s.rows[i].(status := AcceptedForRouting, createdAt := now), w1);
      SubmitFreshErased(s.(world := w1), a, n, now);
    }
  }

  lemma ProcessErased(s: State, a: Account, n: nat, caps: Option<Caps>, now: Time)
    requires Known(s.sugs, n)
    ensures Process(Erase(s), a, Live, n, caps, now) == EraseTurn(Process(s, a, Live, n, caps, now))
  {
    hide Guards, PlaceLive, RealRows;
    GuardsErased(s, a, n, caps, now);
    PlaceLiveErased(Guards(s, a, Live, n, caps, now).0, a, n, now);
  }

  lemma {:induction false} PassFromErased(s: State, a: Account, ids: seq<nat>, j: nat, caps: Option<Caps>, now: Time,
                                          outcomes: seq<Outcome>)
    requires AllKnown(s, ids) && j <= |ids|
    ensures var r := PassFrom(s, a, Live, ids, j, caps, now, outcomes);
            PassFrom(Erase(s), a, Live, ids, j, caps, now, outcomes) == r.(s := Erase(r.s))
    decreases |ids| - j
  {
    hide Process, RealRows;
    if j < |ids| {
      ProcessErased(s, a, ids[j], caps, now);
      var t := Process(s, a, Live, ids[j], caps, now);
      if t.Turn? && !t.stop {
        PassFromErased(t.s, a, ids, j + 1, caps, now, outcomes + [t.outcome]);
      }
    }
  }

  lemma {:induction false} FetchErased(s: State, a: Account, now: Time, n: nat)
    ensures Fetch(Erase(s), a, now, n) == Fetch(s, a, now, n)
    decreases |s.sugs| + 1 - n
  {
    hide RealRows, Count;
    if n <= |s.sugs| {
      CountReal(s.rows, Executes(n));
      FetchErased(s, a, now, n + 1);
    }
  }

  // A live pass on a ledger and on the same ledger without its simulated rows: the same
  // outcomes, the same broker calls with the same effect, the same real rows.
  lemma LivePassIgnoresSimulations(s: State, a: Account, caps: Option<Caps>, now: Time)
    requires ModeOf(s.modes, a) == Live
    ensures var r := Pass(s, a, caps, now);
            Pass(Erase(s), a, caps, now) == r.(s := Erase(r.s))
  {
    hide PassFrom, Fetch, RealRows;
    FetchErased(s, a, now, 1);
    PassFromErased(s, a, Fetch(s, a, now), 0, caps, now, []);
  }

  // ---- Simulating passes ---------------------------------------------------------------------

  // Between the two worlds the broker was asked for account figures only.
  ghost predicate OnlyReadsAccount(w: World, w': World) {
    && |w.calls| <= |w'.calls| && w'.calls[..|w.calls|] == w.calls
    && forall k :: |w.calls| <= k < |w'.calls| ==> w'.calls[k].AccountCall?
  }

  lemma SimulatedTurn(s: State, a: Account, n: nat, caps: Option<Caps>, now: Time)
    requires Known(s.sugs, n)
    ensures var t := Process(s, a, DryRun, n, caps, now);
            && RealRows(t.s.rows) == RealRows(s.rows)
            && t.s.modes == s.modes && (t.Turn? ==> !t.stop)
            && OnlyReadsAccount(s.world, t.s.world)
  {
    hide CheckCaps, RealRows, Count;
    var s1 := Guards(s, a, DryRun, n, caps, now).0;
    assert s1.rows == s.rows;
    assert s1.world == s.world || s1.world.calls == s.world.calls + [AccountCall(a)];
    assert s1.world.calls[..|s.world.calls|] == s.world.calls;
    RealAppend(s.rows, Simulate(s1, a, n, now).s.rows[|s.rows|]);
  }

  lemma {:induction false} SimulatedPass(s: State, a: Account, ids: seq<nat>, j: nat, caps: Option<Caps>, now: Time,
                                         outcomes: seq<Outcome>)
    requires AllKnown(s, ids) && j <= |ids|
    ensures var r := PassFrom(s, a, DryRun, ids, j, caps, now, outcomes);
            && RealRows(r.s.rows) == RealRows(s.rows) && r.s.sugs == s.sugs && r.s.modes == s.modes
            && OnlyReadsAccount(s.world, r.s.world)
    decreases |ids| - j
  {
    hide Process, RealRows;
    if j < |ids| {
      SimulatedTurn(s, a, ids[j], caps, now);
      var t := Process(s, a, DryRun, ids[j], caps, now);
      if t.Turn? {
        SimulatedPass(t.s, a, ids, j + 1, caps, now, outcomes + [t.outcome]);
        var w, w1, w2 := s.world, t.s.world, PassFrom(s, a, DryRun, ids, j, caps, now, outcomes).s.world;
        assert w2.calls[..|w.calls|] == w2.calls[..|w1.calls|][..|w.calls|];
        forall k | |w.calls| <= k < |w2.calls|
          ensures w2.calls[k].AccountCall?
        {
          assert k < |w1.calls| ==> w2.calls[k] == w2.calls[..|w1.calls|][k];
        }
      }
    }
  }

  // A simulating pass submits, cancels and reads no order and leaves every suggestion, every
  // mode and every real row as it was.
  lemma DryRunPassTouchesNothing(s: State, a: Account, caps: Option<Caps>, now: Time)
    requires ModeOf(s.modes, a) == DryRun
    ensures var r := Pass(s, a, caps, now);
            && RealRows(r.s.rows) == RealRows(s.rows) && r.s.sugs == s.sugs && r.s.modes == s.modes
            && OnlyReadsAccount(s.world, r.s.world)
  {
    hide PassFrom, Fetch, RealRows;
    SimulatedPass(s, a, Fetch(s, a, now), 0, caps, now, []);
  }
}
