// Price levels, rounding, and the choice of an anchor level.
module Levels {
  import opened Options
  import opened Trading

  datatype LevelType = Support | Resistance
  datatype Level = Level(price: real, levelType: LevelType, anchor: string, confidence: real)

  // ---- Rounding to cents --------------------------------------------------------------------

  // Truncation toward zero, as int() does.
  function Trunc(x: real): int {
    if x >= 0.0 then x.Floor else -((-x).Floor)
  }

  function HalfEven(x: real): int {
    var f := x.Floor;
    if x - f as real < 0.5 || (x - f as real == 0.5 && f % 2 == 0) then f else f + 1
  }

  function Round2(x: real): real {
    HalfEven(x * 100.0) as real / 100.0
  }

  function Round4(x: real): real {
    HalfEven(x * 10000.0) as real / 10000.0
  }

  function Floor2(x: real): real {
    (x * 100.0).Floor as real / 100.0
  }

  function Ceil2(x: real): real {
    -((-x * 100.0).Floor as real) / 100.0
  }

  lemma RoundingError(x: real)
    ensures Abs(Round2(x) - x) <= 0.005 && Abs(Round4(x) - x) <= 0.00005
    ensures x - 0.01 < Floor2(x) <= x <= Ceil2(x) < x + 0.01
  {
    assert Abs(HalfEven(x * 100.0) as real - x * 100.0) <= 0.5;
    assert Abs(HalfEven(x * 10000.0) as real - x * 10000.0) <= 0.5;
    assert -x * 100.0 == -(x * 100.0);
  }

  // Truncation drops the fraction, toward zero.
  lemma TruncationIsTowardZero(x: real)
    ensures x >= 0.0 ==> Trunc(x) as real <= x < Trunc(x) as real + 1.0
    ensures x < 0.0 ==> Trunc(x) as real - 1.0 < x <= Trunc(x) as real
  {
  }

  // A number of cents.
  predicate WholeCents(x: real) {
    (x * 100.0).Floor as real == x * 100.0
  }

  // Rounding ends on a cent: the nearest one, or the even one when two are as near.
  lemma RoundedToCents(x: real)
    ensures WholeCents(Round2(x)) && WholeCents(Floor2(x)) && WholeCents(Ceil2(x)) && WholeCents(Round4(x) * 100.0)
    ensures Abs(Round2(x) - x) == 0.005 ==> (Round2(x) * 100.0).Floor % 2 == 0
  {
    assert Round2(x) * 100.0 == HalfEven(x * 100.0) as real;
    assert Round4(x) * 100.0 * 100.0 == HalfEven(x * 10000.0) as real;
    assert Floor2(x) * 100.0 == (x * 100.0).Floor as real;
    assert Ceil2(x) * 100.0 == -((-x * 100.0).Floor as real) == (-((-x * 100.0).Floor)) as real;
  }

  // ---- Money -----------------------------------------------------------------------------------

  function Worth(shares: real, price: real): real {
    shares * price
  }

  lemma WorthSign(x: real, p: real)
    requires p > 0.0
    ensures x >= 0.0 ==> Worth(x, p) >= 0.0
    ensures x > 0.0 ==> Worth(x, p) > 0.0
  {
  }

  lemma WorthAdd(x: real, y: real, p: real)
    ensures Worth(x + y, p) == Worth(x, p) + Worth(y, p)
  {
  }

  lemma WorthOne(p: real)
    ensures Worth(1.0, p) == p
  {
  }

  lemma WorthOrder(x: real, y: real, p: real)
    requires p > 0.0
    ensures x <= y ==> Worth(x, p) <= Worth(y, p)
    ensures x < y ==> Worth(x, p) < Worth(y, p)
  {
    hide Worth;
    WorthAdd(y - x, x, p);
    WorthSign(y - x, p);
    assert y - x + x == y;
  }

  lemma Divide(d: real, p: real)
    requires p > 0.0
    ensures Worth(d / p, p) == d
  {
  }

  // Whole shares a sum buys: as many as it pays for, and not one more.
  lemma WholeShares(dollars: real, price: real)
    requires price > 0.0 && Trunc(dollars / price) >= 1
    ensures Worth(Trunc(dollars / price) as real, price) <= dollars
    ensures dollars < Worth(Trunc(dollars / price) as real, price) + price
  {
    hide Worth;
    var q := dollars / price;
    var n := Trunc(q) as real;
    Divide(dollars, price);
    assert n <= q < n + 1.0;
    WorthOrder(n, q, price);
    WorthOrder(q, n + 1.0, price);
    WorthAdd(n, 1.0, price);
    WorthOne(price);
  }

  // ---- Nearest levels --------------------------------------------------------------------------

  // A level of this type strictly on its own side of the price, no further than maxDist.
  predicate IsNear(lv: Level, t: LevelType, current: real, maxDist: real) {
    && lv.levelType == t
    && if t == Support then lv.price < current && current - lv.price <= maxDist
       else lv.price > current && lv.price - current <= maxDist
  }

  function InsertNear(lvs: seq<Level>, lv: Level, current: real): seq<Level> {
    if lvs == [] || Abs(lvs[|lvs| - 1].price - current) <= Abs(lv.price - current) then lvs + [lv]
    else InsertNear(lvs[..|lvs| - 1], lv, current) + [lvs[|lvs| - 1]]
  }

  // All near levels, nearest first.
  function Near(levels: seq<Level>, t: LevelType, current: real, maxDist: real): seq<Level> {
    if levels == [] then []
    else
      var rest := Near(levels[..|levels| - 1], t, current, maxDist);
      if IsNear(levels[|levels| - 1], t, current, maxDist) then InsertNear(rest, levels[|levels| - 1], current)
          else rest
  }

  // The (up to) n nearest.
  function Nearest(levels: seq<Level>, t: LevelType, current: real, maxDist: real, n: nat): seq<Level> {
    var all := Near(levels, t, current, maxDist);
    if |all| <= n then all else all[..n]
  }

  ghost predicate ByDistance(lvs: seq<Level>, current: real) {
    forall i, j :: 0 <= i < j < |lvs| ==> Abs(lvs[i].price - current) <= Abs(lvs[j].price - current)
  }

  lemma {:induction false} InsertNearAdds(lvs: seq<Level>, lv: Level, current: real)
    ensures multiset(InsertNear(lvs, lv, current)) == multiset(lvs) + multiset{lv}
  {
    if lvs != [] && Abs(lvs[|lvs| - 1].price - current) > Abs(lv.price - current) {
      var n := |lvs| - 1;
      InsertNearAdds(lvs[..n], lv, current);
      assert lvs == lvs[..n] + [lvs[n]];
    }
  }

  lemma InsertNearMember(lvs: seq<Level>, lv: Level, current: real, x: Level)
    ensures x in InsertNear(lvs, lv, current) <==> x in lvs || x == lv
  {
    InsertNearAdds(lvs, lv, current);
    assert x in InsertNear(lvs, lv, current) <==> x in multiset(InsertNear(lvs, lv, current));
  }

  // Inserting a level keeps all of them within a distance.
  lemma {:induction false} InsertNearWithin(lvs: seq<Level>, lv: Level, current: real, distance: real)
    requires Abs(lv.price - current) <= distance
    requires forall i :: 0 <= i < |lvs| ==> Abs(lvs[i].price - current) <= distance
    ensures forall i :: 0 <= i < |InsertNear(lvs, lv, current)| ==>
            Abs(InsertNear(lvs, lv, current)[i].price - current) <= distance
  {
    if lvs != [] && Abs(lvs[|lvs| - 1].price - current) > Abs(lv.price - current) {
      hide Abs;
      InsertNearWithin(lvs[..|lvs| - 1], lv, current, distance);
    }
  }

  lemma {:induction false} InsertNearSorts(lvs: seq<Level>, lv: Level, current: real)
    requires ByDistance(lvs, current)
    ensures ByDistance(InsertNear(lvs, lv, current), current)
  {
    if lvs != [] && Abs(lvs[|lvs| - 1].price - current) > Abs(lv.price - current) {
      var n := |lvs| - 1;
      InsertNearSorts(lvs[..n], lv, current);
      InsertNearWithin(lvs[..n], lv, current, Abs(lvs[n].price - current));
      hide Abs;
    } else {
      hide Abs;
    }
  }

  lemma {:induction false} NearIsSorted(levels: seq<Level>, t: LevelType, current: real, maxDist: real)
    ensures ByDistance(Near(levels, t, current, maxDist), current)
    ensures forall lv :: lv in Near(levels, t, current, maxDist) <==> lv in levels && IsNear(lv, t, current, maxDist)
  {
    if levels != [] {
      var n := |levels| - 1;
      NearIsSorted(levels[..n], t, current, maxDist);
      var rest := Near(levels[..n], t, current, maxDist);
      var last := levels[n];
      assert levels == levels[..n] + [last];
      if IsNear(last, t, current, maxDist) {
        InsertNearSorts(rest, last, current);
        forall lv
          ensures lv in InsertNear(rest, last, current) <==> lv in rest || lv == last
        {
          InsertNearMember(rest, last, current, lv);
        }
      }
    }
  }

  // A support under the price or a resistance over it, by no more than maxDist.
  predicate OnItsSide(lv: Level, t: LevelType, current: real, maxDist: real) {
    && lv.levelType == t
    && match t
       case Support => current - maxDist <= lv.price < current
       case Resistance => current < lv.price <= current + maxDist
  }

  // The nearest levels are levels of the right kind and side; any other such level is at
  // least as far as each of them, and there is one only if n were found.
  lemma NearestIsNearest(levels: seq<Level>, t: LevelType, current: real, maxDist: real, n: nat)
    ensures var r := Nearest(levels, t, current, maxDist, n);
            && |r| <= n && ByDistance(r, current)
            && (forall lv :: lv in r ==> lv in levels && OnItsSide(lv, t, current, maxDist))
            && (forall lv :: lv in levels && OnItsSide(lv, t, current, maxDist) && lv !in r ==> |r| == n)
            && (forall lv, near :: lv in levels && OnItsSide(lv, t, current, maxDist) && lv !in r && near in r ==>
                  Abs(near.price - current) <= Abs(lv.price - current))
  {
    assert forall lv :: IsNear(lv, t, current, maxDist) <==> OnItsSide(lv, t, current, maxDist);
    NearIsSorted(levels, t, current, maxDist);
    var all := Near(levels, t, current, maxDist);
    var r := Nearest(levels, t, current, maxDist, n);
    forall lv, near | lv in levels && IsNear(lv, t, current, maxDist) && lv !in r && near in r
      ensures |r| == n && Abs(near.price - current) <= Abs(lv.price - current)
    {
      var j :| 0 <= j < |all| && all[j] == lv;
      var i :| 0 <= i < |r| && r[i] == near;
      assert forall k :: 0 <= k < |r| ==> r[k] == all[k];
    }
  }

  // ---- Anchor selection ----------------------------------------------------------------------

  predicate InReach(lv: Level, current: real, maxPct: real)
    requires current > 0.0
  {
    Abs((lv.price / current - 1.0) * 100.0) <= maxPct
  }

  const MIN_CONFIDENCE := 0.4

  // Best of the first n levels in reach: the most confident one of those confident enough;
  // |levels| if there is none.
  function MostConfident(levels: seq<Level>, current: real, maxPct: real, n: nat): (r: nat)
    requires current > 0.0 && n <= |levels|
    ensures r < n || r == |levels|
    ensures r < |levels| ==> InReach(levels[r], current, maxPct) && levels[r].confidence >= MIN_CONFIDENCE
    ensures forall i :: 0 <= i < n && InReach(levels[i], current, maxPct) && levels[i].confidence >= MIN_CONFIDENCE ==>
              && r < |levels| && levels[i].confidence <= levels[r].confidence
              && (i < r ==> levels[i].confidence < levels[r].confidence)
  {
    if n == 0 then |levels|
    else
      var best := MostConfident(levels, current, maxPct, n - 1);
      var lv := levels[n - 1];
      if InReach(lv, current, maxPct) && lv.confidence >= MIN_CONFIDENCE
         && (best == |levels| || levels[best].confidence < lv.confidence) then n - 1 else best
  }

  function Closest(levels: seq<Level>, current: real, maxPct: real, n: nat): (r: nat)
    requires current > 0.0 && n <= |levels|
    ensures r < n || r == |levels|
    ensures r < |levels| ==> InReach(levels[r], current, maxPct)
    ensures forall i :: 0 <= i < n && InReach(levels[i], current, maxPct) ==>
              && r < |levels| && Abs(levels[r].price - current) <= Abs(levels[i].price - current)
              && (i < r ==> Abs(levels[r].price - current) < Abs(levels[i].price - current))
  {
    if n == 0 then |levels|
    else
      var best := Closest(levels, current, maxPct, n - 1);
      var lv := levels[n - 1];
      if InReach(lv, current, maxPct)
         && (best == |levels| || Abs(lv.price - current) < Abs(levels[best].price - current)) then n - 1 else best
  }

  function SelectAnchor(levels: seq<Level>, current: real, maxPct: real): Option<Level>
    requires current > 0.0
  {
    var i := MostConfident(levels, current, maxPct, |levels|);
    if i < |levels| then Some(levels[i])
    else
      var j := Closest(levels, current, maxPct, |levels|);
      if j < |levels| then Some(levels[j]) else None
  }

  // A selected anchor is in reach; there is none only if no level is in reach; a confident
  // one beats every level in reach on confidence, an unconfident one on distance.
  lemma SelectAnchorIsBest(levels: seq<Level>, current: real, maxPct: real)
    requires current > 0.0
    ensures var r := SelectAnchor(levels, current, maxPct);
            && (r == None <==> forall lv :: lv in levels ==> !InReach(lv, current, maxPct))
            && (r.Some? ==>
                  && r.value in levels && InReach(r.value, current, maxPct)
                  && forall lv :: lv in levels && InReach(lv, current, maxPct) ==>
                       if r.value.confidence >= MIN_CONFIDENCE then
                         lv.confidence <= r.value.confidence
                       else
                         lv.confidence < MIN_CONFIDENCE && Abs(r.value.price - current) <= Abs(lv.price - current))
  {
    var r := SelectAnchor(levels, current, maxPct);
    forall lv | lv in levels && InReach(lv, current, maxPct)
      ensures r.Some?
      ensures if r.value.confidence >= MIN_CONFIDENCE then lv.confidence <= r.value.confidence
              else lv.confidence < MIN_CONFIDENCE && Abs(r.value.price - current) <= Abs(lv.price - current)
    {
      var i :| 0 <= i < |levels| && levels[i] == lv;
    }
  }
}
