// What matching and storing come to, said over the stored fields.
module ReconciliationFacts {
  import opened Options
  import opened OrderIds
  import opened Trading
  import opened AutoTrade
  import opened Reconciliation
  import opened Replay

  // ---- Matching ------------------------------------------------------------------------------

  // The activity may be the fill of this suggestion: same share and side, filled within two
  // days of it, at a price within half a percent of its limit. (A negative limit, which is
  // never sized, bounds nothing; a limit of zero matches nothing.)
  predicate MayFill(sug: Suggestion, a: Account, act: Activity) {
    && sug.account == a && sug.status == Accepted
    && act.ticker == sug.order.ticker && act.side == sug.order.side
    && act.filledAt.Some? && sug.createdAt <= act.filledAt.value < sug.createdAt + 2 * DAY
    && sug.order.limit != 0.0
    && (sug.order.limit > 0.0 ==> 0.995 * sug.order.limit <= act.price <= 1.005 * sug.order.limit)
  }

  function Apart(x: real, y: real): real {
    if x <= y then y - x else x - y
  }

  // How far off in quantity and price together.
  function Off(sug: Suggestion, act: Activity): real {
    Apart(act.qty, sug.order.qty) + Apart(act.price, sug.order.limit)
  }

  lemma WithinHalfPercent(price: real, limit: real)
    requires limit != 0.0
    ensures Abs(price - limit) / limit <= 0.5 / 100.0 <==>
              (limit > 0.0 ==> 0.995 * limit <= price <= 1.005 * limit)
  {
    var x, r := Abs(price - limit), Abs(price - limit) / limit;
    assert r * limit == x;
    if limit > 0.0 {
      assert r <= 0.005 <==> r * limit <= 0.005 * limit;
    } else {
      assert r <= 0.0;
    }
  }

  lemma CandidatesMayFill(sug: Suggestion, a: Account, act: Activity)
    ensures Candidate(sug, a, act) <==> MayFill(sug, a, act)
    ensures Distance(sug, act) == Off(sug, act)
  {
    if sug.order.limit != 0.0 {
      WithinHalfPercent(act.price, sug.order.limit);
    }
  }

  // An activity without an engine id goes to the accepted suggestion it may fill that is
  // closest in quantity and price together, the first of several as close; automatically exactly
  // when there is no other, and to none exactly when there is none.
  lemma MatchIsClosestFill(sugs: seq<Suggestion>, a: Account, act: Activity)
    requires EngineSuggestion(act) == None
    ensures var m := Match(sugs, a, act);
            && m.act == act
            && (m.sug == None <==> forall n :: 0 <= n < |sugs| ==> !MayFill(sugs[n], a, act))
            && (m.sug == None ==> m.matched == Untracked)
            && (m.sug.Some? ==>
                  && Known(sugs, m.sug.value) && MayFill(sugs[m.sug.value - 1], a, act)
                  && (forall n :: 0 <= n < |sugs| && MayFill(sugs[n], a, act) ==>
                        && Off(sugs[m.sug.value - 1], act) <= Off(sugs[n], act)
                        && (n < m.sug.value - 1 ==> Off(sugs[m.sug.value - 1], act) < Off(sugs[n], act)))
                  && m.matched == if forall n :: 0 <= n < |sugs| && MayFill(sugs[n], a, act) ==> n == m.sug.value - 1
                                  then AutoMatched else ManualReview)
  {
    MatchIsClosest(sugs, a, act);
    hide Candidate, Distance, MayFill, Off;
    forall n | 0 <= n < |sugs|
      ensures Candidate(sugs[n], a, act) <==> MayFill(sugs[n], a, act)
      ensures Distance(sugs[n], act) == Off(sugs[n], act)
    {
      CandidatesMayFill(sugs[n], a, act);
    }
  }

  // The engine's own ids decide without looking at the suggestions: an activity carries one
  // exactly when its id is of the printed grammar, and the number there is the suggestion.
  lemma EngineIdDecides(sugs: seq<Suggestion>, a: Account, act: Activity, n: nat)
    ensures EngineSuggestion(act) == Some(n) <==>
              act.clientId.Some? && exists ds, retry, end :: Denotes(act.clientId.value, n, ds, retry, end)
    ensures EngineSuggestion(act) == Some(n) ==> Match(sugs, a, act) == MatchResult(Some(n), act, AutoMatched)
    ensures forall k: nat :: act.clientId == Some(Print(n, k)) ==> EngineSuggestion(act) == Some(n)
  {
    if act.clientId.Some? {
      ParserMeetsGrammar(act.clientId.value, n);
    }
    forall k: nat | act.clientId == Some(Print(n, k))
      ensures EngineSuggestion(act) == Some(n)
    {
      ParsePrint(n, k);
    }
  }

  // The results are the matches of the activities that have a fill time, each once, in order.
  lemma {:induction false} EveryTimedIsMatched(sugs: seq<Suggestion>, a: Account, acts: seq<Activity>)
    returns (from: seq<nat>)
    ensures var r := MatchAll(sugs, a, acts);
            && |from| == |r|
            && (forall k :: 0 <= k < |from| ==>
                  from[k] < |acts| && acts[from[k]].filledAt.Some? && r[k] == Match(sugs, a, acts[from[k]]))
            && (forall k, l :: 0 <= k < l < |from| ==> from[k] < from[l])
            && (forall i :: 0 <= i < |acts| && acts[i].filledAt.Some? ==> i in from)
  {
    from := [];
    if acts != [] {
      var n := |acts| - 1;
      from := EveryTimedIsMatched(sugs, a, acts[..n]);
      MatchedSoFar(sugs, a, acts, from);
      if acts[n].filledAt.Some? {
        from := from + [n];
      }
    }
  }

  lemma MatchedSoFar(sugs: seq<Suggestion>, a: Account, acts: seq<Activity>, from: seq<nat>)
    requires acts != []
    requires var n, r := |acts| - 1, MatchAll(sugs, a, acts[..|acts| - 1]);
             && |from| == |r|
             && (forall k :: 0 <= k < |from| ==>
                   from[k] < n && acts[..n][from[k]].filledAt.Some? && r[k] == Match(sugs, a, acts[..n][from[k]]))
             && (forall i :: 0 <= i < n && acts[..n][i].filledAt.Some? ==> i in from)
    ensures var n, r := |acts| - 1, MatchAll(sugs, a, acts);
            && |r| == |from| + (if acts[n].filledAt.Some? then 1 else 0)
            && (forall k :: 0 <= k < |from| ==>
                  from[k] < n && acts[from[k]].filledAt.Some? && r[k] == Match(sugs, a, acts[from[k]]))
            && (acts[n].filledAt.Some? ==> r[|from|] == Match(sugs, a, acts[n]))
            && (forall i :: 0 <= i < n && acts[i].filledAt.Some? ==> i in from)
  {
    hide Match;
    var n := |acts| - 1;
    assert forall i :: 0 <= i < n ==> acts[..n][i] == acts[i];
  }

  // ---- Suggestions filled -----------------------------------------------------------------------

  // The result fills suggestion n: a whole fill, matched to it without a doubt.
  predicate FillOf(m: MatchResult, n: nat) {
    m.sug == Some(n) && m.matched == AutoMatched && m.act.status == ActFilled
  }

  // The first result from j on that fills suggestion n; |ms| when none does.
  function FirstFill(ms: seq<MatchResult>, n: nat, j: nat): (r: nat)
    requires j <= |ms|
    ensures j <= r <= |ms|
    ensures r < |ms| ==> FillOf(ms[r], n)
    ensures forall k :: j <= k < r ==> !FillOf(ms[k], n)
    decreases |ms| - j
  {
    if j == |ms| || FillOf(ms[j], n) then j else FirstFill(ms, n, j + 1)
  }

  // Storing the results makes exactly the accepted suggestions that a result fills filled,
  // stamped with the time of the first such fill, and leaves every other suggestion as it was.
  lemma {:induction false} FillsFillSuggestions(s: State, ms: seq<MatchResult>, j: nat, a: Account, now: Time, n: nat)
    requires Timed(ms) && j <= |ms| && Known(s.sugs, n)
    ensures var x, y := s.sugs[n - 1], PersistFrom(s, ms, j, a, now).sugs[n - 1];
            var k := FirstFill(ms, n, j);
            && (x.status == Accepted && k < |ms| ==>
                  y == x.(status := SugStatus.Filled, actedAt := ms[k].act.filledAt))
            && (x.status != Accepted || k == |ms| ==> y == x)
    decreases |ms| - j
  {
    hide PersistRow;
    if j < |ms| {
      var s1 := s.(rows := PersistRow(s.rows, ms[j], a, now), sugs := PersistSug(s.sugs, ms[j]));
      FillsFillSuggestions(s1, ms, j + 1, a, now, n);
    }
  }

  // So a suggestion is filled afterwards exactly when it was before, or was accepted and some
  // result fills it.
  lemma FilledAfterwardsIff(s: State, ms: seq<MatchResult>, a: Account, now: Time, n: nat)
    requires Timed(ms) && Known(s.sugs, n)
    ensures Persist(s, ms, a, now).sugs[n - 1].status == SugStatus.Filled <==>
              || s.sugs[n - 1].status == SugStatus.Filled
              || (s.sugs[n - 1].status == Accepted && exists k :: 0 <= k < |ms| && FillOf(ms[k], n))
  {
    hide FillOf, PersistFrom;
    FillsFillSuggestions(s, ms, 0, a, now, n);
  }

  // ---- Fills stored ----------------------------------------------------------------------------------

  // The row is of the account's real order and shows the activity's fill.
  predicate ShowsFill(r: Row, a: Account, act: Activity) {
    && r.account == a && !r.dryRun && r.orderId == Some(act.order)
    && r.filledQty == act.qty && r.filledPrice == Some(act.price) && r.filledAt == act.filledAt
    && r.status == Reported(act.status)
  }

  predicate OrderRow(r: Row, a: Account, order: nat) {
    r.orderId == Some(order) && r.account == a && !r.dryRun
  }

  // Storing one result: if the account has a real row for the order, the first such row gets
  // the fill (a sell's row also its profit) and keeps everything else; otherwise one row is
  // added for the activity as matched. No other row changes.
  lemma FillIsStored(rows: seq<Row>, m: MatchResult, a: Account, now: Time) returns (i: nat)
    requires m.act.filledAt.Some?
    ensures var rows' := PersistRow(rows, m, a, now);
            && i < |rows'| && ShowsFill(rows'[i], a, m.act)
            && (forall j :: 0 <= j < |rows| && j != i ==> rows'[j] == rows[j])
            && (if exists j :: 0 <= j < |rows| && OrderRow(rows[j], a, m.act.order) then
                  && i < |rows| == |rows'| && OrderRow(rows[i], a, m.act.order)
                  && (forall j :: 0 <= j < i ==> !OrderRow(rows[j], a, m.act.order))
                  && rows'[i] == rows[i].(filledQty := rows'[i].filledQty, filledPrice := rows'[i].filledPrice,
                                          filledAt := rows'[i].filledAt, status := rows'[i].status,
                                          pnl := rows'[i].pnl)
                  && (m.act.side == Buy ==> rows'[i].pnl == rows[i].pnl)
                else
                  && i == |rows| && |rows'| == |rows| + 1
                  && rows'[i].sug == m.sug && rows'[i].matched == m.matched && rows'[i].createdAt == now
                  && rows'[i].ticker == m.act.ticker && rows'[i].side == m.act.side
                  && rows'[i].clientId == m.act.clientId && rows'[i].cancelledAt == None
                  && rows'[i].submittedQty == None && rows'[i].limit == None
                  && (m.act.side == Buy ==> rows'[i].pnl == None))
  {
    hide RealizedPnl;
    i := First(rows, Records(a, m.act.order));
    forall j | 0 <= j < |rows|
      ensures Records(a, m.act.order)(rows[j]) <==> OrderRow(rows[j], a, m.act.order)
    {
    }
  }

  // Storing results of distinct orders: every one of them ends shown by a row of its order.
  lemma EveryFillIsStored(s: State, ms: seq<MatchResult>, a: Account, now: Time, j: nat)
    requires Timed(ms) && Distinct(ms) && j < |ms|
    ensures exists i :: 0 <= i < |Persist(s, ms, a, now).rows| &&
                        ShowsFill(Persist(s, ms, a, now).rows[i], a, ms[j].act)
  {
    PersistSettles(s, ms, 0, a, now);
    var rows := Persist(s, ms, a, now).rows;
    hide PersistFrom, Persist;
    assert Carried(rows, ms[j], a);
    assert ShowsFill(rows[RowFor(rows, ms[j], a)], a, ms[j].act);
  }
}
