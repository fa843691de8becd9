// Matching broker activities to suggestions, storing the matches, realised profit.
module Reconciliation {
  import opened Options
  import opened OrderIds
  import opened Trading
  import opened AutoTrade

  datatype Activity = Activity(
    order: nat, clientId: Option<string>, ticker: Ticker, side: Side, qty: real, price: real,
    filledAt: Option<Time>, status: ActivityStatus)

  datatype MatchResult = MatchResult(sug: Option<nat>, act: Activity, matched: MatchMethod)

  // ---- Matching ------------------------------------------------------------------------------

  predicate Candidate(sug: Suggestion, a: Account, act: Activity) {
    && sug.status == Accepted && sug.account == a
    && sug.order.ticker == act.ticker && sug.order.side == act.side
    && act.filledAt.Some? && 0 <= act.filledAt.value - sug.createdAt < 48 * 3600
    && sug.order.limit != 0.0
    && Abs(act.price - sug.order.limit) / sug.order.limit <= 0.5 / 100.0
  }

  function Distance(sug: Suggestion, act: Activity): real {
    Abs(sug.order.qty - act.qty) + Abs(sug.order.limit - act.price)
  }

  // Number of candidates among the first n suggestions and the closest of them (the first
  // of several equally close; 0 if none).
  function Candidates(sugs: seq<Suggestion>, a: Account, act: Activity, n: nat): (r: (nat, nat))
    requires n <= |sugs|
    ensures r.0 > 0 ==> Known(sugs, r.1) && r.1 <= n && Candidate(sugs[r.1 - 1], a, act)
  {
    if n == 0 then (0, 0)
    else
      var (count, best) := Candidates(sugs, a, act, n - 1);
      if !Candidate(sugs[n - 1], a, act) then (count, best)
      else if count == 0 || Distance(sugs[n - 1], act) < Distance(sugs[best - 1], act) then (count + 1, n)
      else (count + 1, best)
  }

  function EngineSuggestion(act: Activity): Option<nat> {
    if act.clientId.Some? && "sug-" <= act.clientId.value then ParseSuggestionId(act.clientId.value) else None
  }

  function Match(sugs: seq<Suggestion>, a: Account, act: Activity): MatchResult {
    if EngineSuggestion(act).Some? then MatchResult(EngineSuggestion(act), act, AutoMatched)
    else
      var (count, best) := Candidates(sugs, a, act, |sugs|);
      if count == 1 then MatchResult(Some(best), act, AutoMatched)
      else if count > 1 then MatchResult(Some(best), act, ManualReview)
      else MatchResult(None, act, Untracked)
  }

  lemma {:induction false} ClosestSoFar(sugs: seq<Suggestion>, a: Account, act: Activity, n: nat)
    requires n <= |sugs|
    ensures var (count, best) := Candidates(sugs, a, act, n);
            && (forall m :: 0 <= m < n && Candidate(sugs[m], a, act) ==>
                  && count > 0 && Distance(sugs[best - 1], act) <= Distance(sugs[m], act)
                  && (m < best - 1 ==> Distance(sugs[best - 1], act) < Distance(sugs[m], act)))
            && (count == 1 ==> forall m :: 0 <= m < n && Candidate(sugs[m], a, act) ==> m == best - 1)
            && (count > 1 ==> exists m :: 0 <= m < n && Candidate(sugs[m], a, act) && m != best - 1)
  {
    hide Candidate, Distance;
    if n > 0 {
      ClosestSoFar(sugs, a, act, n - 1);
      var (count, best) := Candidates(sugs, a, act, n - 1);
      assert count > 0 ==> Candidate(sugs[best - 1], a, act);
    }
  }

  // Without an engine id the match is the candidate closest in size and price; it is
  // automatic exactly when there is no other candidate, and untracked when there is none.
  lemma MatchIsClosest(sugs: seq<Suggestion>, a: Account, act: Activity)
    requires EngineSuggestion(act) == None
    ensures var m := Match(sugs, a, act);
            && (m.sug == None <==> forall n :: 0 <= n < |sugs| ==> !Candidate(sugs[n], a, act))
            && (m.sug.Some? ==>
                  && Known(sugs, m.sug.value) && Candidate(sugs[m.sug.value - 1], a, act)
                  && (forall n :: 0 <= n < |sugs| && Candidate(sugs[n], a, act) ==>
                        && Distance(sugs[m.sug.value - 1], act) <= Distance(sugs[n], act)
                        && (n < m.sug.value - 1 ==>
                              Distance(sugs[m.sug.value - 1], act) < Distance(sugs[n], act)))
                  && (m.matched == AutoMatched <==>
                        forall n :: 0 <= n < |sugs| && Candidate(sugs[n], a, act) ==> n == m.sug.value - 1))
  {
    hide Candidate, Distance, Candidates;
    ClosestSoFar(sugs, a, act, |sugs|);
    var (count, best) := Candidates(sugs, a, act, |sugs|);
    assert count > 0 ==> Candidate(sugs[best - 1], a, act);
  }

  // One result per activity with a fill time.
  function MatchAll(sugs: seq<Suggestion>, a: Account, acts: seq<Activity>): (r: seq<MatchResult>)
    ensures forall j :: 0 <= j < |r| ==> r[j].act in acts && r[j].act.filledAt.Some? && r[j] == Match(sugs, a, r[j].act)
  {
    if acts == [] then []
    else
      var n := |acts| - 1;
      MatchAll(sugs, a, acts[..n]) + if acts[n].filledAt == None then [] else [Match(sugs, a, acts[n])]
  }

  // ---- FIFO cost -------------------------------------------------------------------------------

  datatype Lot = Lot(qty: real, price: real, at: Time)

  // Keeps lots in time order; equal times stay in insertion order.
  function Insert(lots: seq<Lot>, l: Lot): seq<Lot> {
    if lots == [] || lots[|lots| - 1].at <= l.at then lots + [l]
    else Insert(lots[..|lots| - 1], l) + [lots[|lots| - 1]]
  }

  predicate IsLot(r: Row, ticker: Ticker, until: Time) {
    r.ticker == ticker && r.side == Buy && !r.dryRun && r.filledQty > 0.0 && r.filledAt.Some?
        && r.filledAt.value <= until
  }

  function LotOf(r: Row): Lot
    requires r.filledAt.Some?
  {
    Lot(r.filledQty, if r.filledPrice.Some? then r.filledPrice.value else 0.0, r.filledAt.value)
  }

  // The buys of this ticker up to a time, oldest first.
  function PriorBuys(rows: seq<Row>, ticker: Ticker, until: Time): seq<Lot> {
    if rows == [] then []
    else
      var n := |rows| - 1;
      var rest := PriorBuys(rows[..n], ticker, until);
      if IsLot(rows[n], ticker, until) then Insert(rest, LotOf(rows[n])) else rest
  }

  function Charge(qty: real, price: real): real {
    qty * price
  }

  function FifoCost(lots: seq<Lot>, qty: real): real {
    if lots == [] || qty <= 0.0 then 0.0
    else
      var applied := if qty < lots[0].qty then qty else lots[0].qty;
      Charge(applied, lots[0].price) + FifoCost(lots[1..], qty - applied)
  }

  function RealizedPnl(rows: seq<Row>, sell: Activity): Option<real>
    requires sell.filledAt.Some?
  {
    var lots := PriorBuys(rows, sell.ticker, sell.filledAt.value);
    if lots == [] then None else Some(Charge(sell.qty, sell.price) - FifoCost(lots, sell.qty))
  }

  // ---- Storing matches -----------------------------------------------------------------------------

  function Records(a: Account, order: nat): Row -> bool {
    (r: Row) => r.orderId == Some(order) && r.account == a && !r.dryRun
  }

  function WithFill(r: Row, act: Activity): Row {
    r.(filledQty := act.qty, filledPrice := Some(act.price), filledAt := act.filledAt, status := Reported(act.status))
  }

  function NewRow(m: MatchResult, a: Account, pnl: Option<real>, now: Time): Row {
    Row(a, m.sug, m.act.ticker, m.act.side, None, None, m.act.qty, Some(m.act.price), m.act.filledAt,
        Some(m.act.order), m.act.clientId, false, Reported(m.act.status), pnl, m.matched, now, None)
  }

  function PersistRow(rows: seq<Row>, m: MatchResult, a: Account, now: Time): seq<Row>
    requires m.act.filledAt.Some?
  {
    var i := First(rows, Records(a, m.act.order));
    if i < |rows| then
      var filled := rows[i := WithFill(rows[i], m.act)];
      if m.act.side == Buy then filled
      else filled[i := filled[i].(pnl := RealizedPnl(filled, m.act))]
    else rows + [NewRow(m, a, if m.act.side == Sell then RealizedPnl(rows, m.act) else None, now)]
  }

  predicate Fills(m: MatchResult) {
    m.sug.Some? && m.sug.value != 0 && m.matched == AutoMatched && m.act.status == ActFilled
  }

  function PersistSug(sugs: seq<Suggestion>, m: MatchResult): (r: seq<Suggestion>)
    ensures |r| == |sugs|
  {
    if Fills(m) && Known(sugs, m.sug.value) && sugs[m.sug.value - 1].status == Accepted then
      sugs[m.sug.value - 1 := sugs[m.sug.value - 1].(status := SugStatus.Filled, actedAt := m.act.filledAt)]
    else sugs
  }

  predicate Timed(ms: seq<MatchResult>) {
    forall j :: 0 <= j < |ms| ==> ms[j].act.filledAt.Some?
  }

  function PersistFrom(s: State, ms: seq<MatchResult>, j: nat, a: Account, now: Time): (r: State)
    requires Timed(ms) && j <= |ms|
    ensures |r.sugs| == |s.sugs| && r.modes == s.modes && r.world == s.world
    decreases |ms| - j
  {
    if j == |ms| then s
    else PersistFrom(s.(rows := PersistRow(s.rows, ms[j], a, now), sugs := PersistSug(s.sugs, ms[j])), ms, j + 1, a,
        now)
  }

  function Persist(s: State, ms: seq<MatchResult>, a: Account, now: Time): State
    requires Timed(ms)
  {
    PersistFrom(s, ms, 0, a, now)
  }

  function Reconcile(s: State, a: Account, acts: seq<Activity>, now: Time): State {
    Persist(s, MatchAll(s.sugs, a, acts), a, now)
  }
}
