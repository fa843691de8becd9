// The stored entities: suggestions, execution rows and the queries run over them.
module Trading {
  import opened Options

  type Account = nat
  type Ticker = string
  // Seconds since 1970-01-01T00:00 UTC.
  type Time = int

  datatype Side = Buy | Sell
  datatype Mode = Off | DryRun | Live
  datatype Kind = Regular | Topup

  // What a suggestion asks for. Plain data until it is stored.
  datatype Draft = Draft(
    ticker: Ticker, side: Side, qty: real, limit: real, anchor: string, confidence: Option<real>,
    baseQty: Option<real>, sizeFactor: real, kind: Kind)

  datatype SugStatus = Pending | Accepted | Rejected | Filled | Cancelled | Expired

  datatype Suggestion = Suggestion(
    account: Account, weekOf: int, order: Draft, status: SugStatus,
    expiresAt: Option<Time>, createdAt: Time, actedAt: Option<Time>, rationale: Option<string>)

  datatype ActivityStatus = ActFilled | ActPartiallyFilled | ActRejected | ActExpired | ActCanceled

  datatype RowStatus = AcceptedForRouting | BrokerCancelled | Simulated | Reported(activity: ActivityStatus)

  datatype MatchMethod = AutoTradePlaced | AutoMatched | ManualReview | Untracked

  // An execution row. `sug` is None for a manual trade, `orderId` for a simulated one.
  datatype Row = Row(
    account: Account, sug: Option<nat>, ticker: Ticker, side: Side,
    submittedQty: Option<real>, limit: Option<real>,
    filledQty: real, filledPrice: Option<real>, filledAt: Option<Time>,
    orderId: Option<nat>, clientId: Option<string>, dryRun: bool, status: RowStatus,
    pnl: Option<real>, matched: MatchMethod, createdAt: Time, cancelledAt: Option<Time>)

  // Suggestion ids start at 1.
  predicate Known(sugs: seq<Suggestion>, id: nat) {
    1 <= id <= |sugs|
  }

  function Abs(x: real): real {
    if x < 0.0 then -x else x
  }

  const DAY := 86400

  function DayStart(now: Time): Time {
    now / DAY * DAY
  }

  // 1970-01-01 was a Thursday, so the weekday of day d (Monday is 0) is (d + 3) % 7.
  function MondayOf(day: int): int {
    day - (day + 3) % 7
  }

  function WeekStart(now: Time): Time {
    MondayOf(now / DAY) * DAY
  }

  // The day number of this week's Monday.
  function CurrentWeek(now: Time): int {
    MondayOf(now / DAY)
  }

  // ---- Queries ------------------------------------------------------------------------

  function Count(rows: seq<Row>, p: Row -> bool): nat {
    if rows == [] then 0 else Count(rows[..|rows| - 1], p) + if p(rows[|rows| - 1]) then 1 else 0
  }

  function Sum(rows: seq<Row>, w: Row -> real): real {
    if rows == [] then 0.0 else Sum(rows[..|rows| - 1], w) + w(rows[|rows| - 1])
  }

  // The rows of real orders, in order.
  function RealRows(rows: seq<Row>): seq<Row> {
    if rows == [] then []
    else RealRows(rows[..|rows| - 1]) + if rows[|rows| - 1].dryRun then [] else [rows[|rows| - 1]]
  }

  // First row satisfying p at or after i; |rows| when there is none.
  function First(rows: seq<Row>, p: Row -> bool, i: nat := 0): (r: nat)
    requires i <= |rows|
    ensures i <= r <= |rows|
    ensures r < |rows| ==> p(rows[r])
    ensures forall j :: i <= j < r ==> !p(rows[j])
    decreases |rows| - i
  {
    if i == |rows| || p(rows[i]) then i else First(rows, p, i + 1)
  }

  // Newest row satisfying p among the first n (the earliest of several equally new);
  // |rows| when there is none.
  function Newest(rows: seq<Row>, p: Row -> bool, n: nat): (r: nat)
    requires n <= |rows|
    ensures r < n || r == |rows|
    ensures r < |rows| ==> p(rows[r])
    ensures r == |rows| ==> forall j :: 0 <= j < n ==> !p(rows[j])
  {
    if n == 0 then |rows|
    else
      var best := Newest(rows, p, n - 1);
      if p(rows[n - 1]) && (best == |rows| || rows[best].createdAt < rows[n - 1].createdAt) then n - 1 else best
  }

  lemma RealAppend(rows: seq<Row>, r: Row)
    ensures RealRows(rows + [r]) == RealRows(rows) + if r.dryRun then [] else [r]
  {
    assert (rows + [r])[..|rows|] == rows;
  }

  lemma {:induction false} CountUpdate(rows: seq<Row>, i: nat, r: Row, p: Row -> bool)
    requires i < |rows|
    ensures Count(rows[i := r], p) == Count(rows, p) - (if p(rows[i]) then 1 else 0) + (if p(r) then 1 else 0)
  {
    var n := |rows| - 1;
    if i == n {
      assert rows[i := r][..n] == rows[..n];
    } else {
      assert rows[i := r][..n] == rows[..n][i := r];
      CountUpdate(rows[..n], i, r, p);
    }
  }

  lemma {:induction false} SumUpdate(rows: seq<Row>, i: nat, r: Row, w: Row -> real)
    requires i < |rows|
    ensures Sum(rows[i := r], w) == Sum(rows, w) - w(rows[i]) + w(r)
  {
    var n := |rows| - 1;
    if i == n {
      assert rows[i := r][..n] == rows[..n];
    } else {
      assert rows[i := r][..n] == rows[..n][i := r];
      SumUpdate(rows[..n], i, r, w);
    }
  }

  // A count is zero exactly when no row qualifies.
  lemma {:induction false} CountZero(rows: seq<Row>, p: Row -> bool)
    ensures Count(rows, p) == 0 <==> forall i :: 0 <= i < |rows| ==> !p(rows[i])
  {
    if rows != [] {
      var n := |rows| - 1;
      CountZero(rows[..n], p);
      forall i | 0 <= i < n
        ensures rows[..n][i] == rows[i]
      {
      }
      assert (forall i :: 0 <= i < n ==> !p(rows[i])) <==> (forall i :: 0 <= i < n ==> !p(rows[..n][i]));
    }
  }

  lemma {:induction false} CountMonotone(rows: seq<Row>, p: Row -> bool, q: Row -> bool)
    requires forall i :: 0 <= i < |rows| && p(rows[i]) ==> q(rows[i])
    ensures Count(rows, p) <= Count(rows, q)
  {
    if rows != [] {
      var n := |rows| - 1;
      assert forall i :: 0 <= i < n ==> rows[..n][i] == rows[i];
      CountMonotone(rows[..n], p, q);
    }
  }

  lemma {:induction false} CountPrefix(rows: seq<Row>, n: nat, p: Row -> bool)
    requires n <= |rows|
    ensures Count(rows[..n], p) <= Count(rows, p)
    ensures n < |rows| && p(rows[n]) ==> Count(rows[..n], p) < Count(rows, p)
  {
    if n == |rows| {
      assert rows[..n] == rows;
    } else {
      var m := |rows| - 1;
      assert rows[..m][..n] == rows[..n];
      CountPrefix(rows[..m], n, p);
    }
  }

  // ---- Erasing simulated rows ----------------------------------------------------------

  lemma {:induction false} CountReal(rows: seq<Row>, p: Row -> bool)
    requires forall r: Row :: r.dryRun ==> !p(r)
    ensures Count(RealRows(rows), p) == Count(rows, p)
  {
    if rows != [] {
      var n := |rows| - 1;
      CountReal(rows[..n], p);
      if rows[n].dryRun {
        assert RealRows(rows) == RealRows(rows[..n]);
      } else {
      }
    }
  }

  lemma {:induction false} SumReal(rows: seq<Row>, w: Row -> real)
    requires forall r: Row :: r.dryRun ==> w(r) == 0.0
    ensures Sum(RealRows(rows), w) == Sum(rows, w)
  {
    if rows != [] {
      var n := |rows| - 1;
      SumReal(rows[..n], w);
      if rows[n].dryRun {
        assert RealRows(rows) == RealRows(rows[..n]);
      } else {
      }
    }
  }

  // Position of row i once the simulated rows are erased.
  function Rank(rows: seq<Row>, i: nat): nat
    requires i <= |rows|
  {
    |RealRows(rows[..i])|
  }

  lemma {:induction false} RealSplit(a: seq<Row>, b: seq<Row>)
    ensures RealRows(a + b) == RealRows(a) + RealRows(b)
  {
    if b == [] {
      assert a + b == a;
    } else {
      var n := |b| - 1;
      assert a + b == (a + b[..n]) + [b[n]];
      RealSplit(a, b[..n]);
      RealAppend(a + b[..n], b[n]);
    }
  }

  lemma RankNext(rows: seq<Row>, i: nat)
    requires i < |rows|
    ensures Rank(rows, i + 1) == Rank(rows, i) + if rows[i].dryRun then 0 else 1
    ensures Rank(rows, i) <= Rank(rows, i + 1) <= Rank(rows, |rows|) == |RealRows(rows)|
    ensures !rows[i].dryRun ==> RealRows(rows)[Rank(rows, i)] == rows[i]
  {
    assert rows[..i + 1] == rows[..i] + [rows[i]];
    RealAppend(rows[..i], rows[i]);
    assert rows == rows[..i + 1] + rows[i + 1..];
    RealSplit(rows[..i + 1], rows[i + 1..]);
    assert rows[..|rows|] == rows;
  }

  lemma RealMiddle(rows: seq<Row>, i: nat)
    requires i < |rows| && !rows[i].dryRun
    ensures RealRows(rows) == RealRows(rows[..i]) + [rows[i]] + RealRows(rows[i + 1..])
  {
    assert rows == (rows[..i] + [rows[i]]) + rows[i + 1..];
    RealSplit(rows[..i] + [rows[i]], rows[i + 1..]);
    RealAppend(rows[..i], rows[i]);
  }

  lemma ReplaceMiddle<T>(x: seq<T>, y: T, z: seq<T>, r: T)
    ensures (x + [y] + z)[|x| := r] == x + [r] + z
  {
  }

  lemma RealUpdate(rows: seq<Row>, i: nat, r: Row)
    requires i < |rows| && !rows[i].dryRun && !r.dryRun
    ensures Rank(rows, i) < |RealRows(rows)|
    ensures RealRows(rows[i := r]) == RealRows(rows)[Rank(rows, i) := r]
  {
    var rows' := rows[i := r];
    assert rows'[..i] == rows[..i] && rows'[i + 1..] == rows[i + 1..];
    var x, z := RealRows(rows[..i]), RealRows(rows[i + 1..]);
    assert RealRows(rows) == x + [rows[i]] + z by { RealMiddle(rows, i); }
    assert RealRows(rows') == x + [r] + z by { RealMiddle(rows', i); }
    ReplaceMiddle(x, rows[i], z, r);
  }

  lemma RankUpdate(rows: seq<Row>, i: nat, r: Row, j: nat)
    requires i < |rows| && j <= |rows| && !rows[i].dryRun && !r.dryRun
    ensures Rank(rows[i := r], j) == Rank(rows, j)
  {
    if j <= i {
      assert rows[i := r][..j] == rows[..j];
    } else {
      var a, b := rows[..i], rows[i + 1..j];
      assert rows[..j] == a + [rows[i]] + b;
      assert rows[i := r][..j] == a + [r] + b;
      RealSplit(a + [rows[i]], b);
      RealSplit(a + [r], b);
      RealAppend(a, rows[i]);
      RealAppend(a, r);
    }
  }

  // The newest real row is found at the same place with the simulated rows erased.
  lemma {:induction false} NewestReal(rows: seq<Row>, p: Row -> bool, n: nat)
    requires n <= |rows|
    requires forall r: Row :: r.dryRun ==> !p(r)
    ensures Rank(rows, n) <= |RealRows(rows)|
    ensures Newest(rows, p, n) == |rows| ==> Newest(RealRows(rows), p, Rank(rows, n)) == |RealRows(rows)|
    ensures Newest(rows, p, n) < |rows| ==>
              Newest(RealRows(rows), p, Rank(rows, n)) == Rank(rows, Newest(rows, p, n)) < |RealRows(rows)|
  {
    if n > 0 {
      RankNext(rows, n - 1);
      NewestReal(rows, p, n - 1);
      var best := Newest(rows, p, n - 1);
      if best < |rows| {
        RankNext(rows, best);
      }
    }
  }
}
