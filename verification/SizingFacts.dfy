// What the sizing of suggestions guarantees.
module SizingFacts {
  import opened Options
  import opened Trading
  import opened Levels
  import opened Sizing

  // A band that brackets the target fixes the sign of an out-of-band gap.
  lemma BracketedBandSign(ticker: Ticker, current: real, target: real, low: real, high: real, equity: real)
    requires low <= target <= high
    ensures var g := GapOf(ticker, current, target, low, high, equity);
            (g.band == Under ==> g.gapPct > 0.0) && (g.band == Over ==> g.gapPct < 0.0)
  {
  }

  // The gap closes the distance to the target, in percent and in dollars of the equity; a row
  // is out of its band exactly when the holding is below or above it.
  lemma GapCloses(ticker: Ticker, current: real, target: real, low: real, high: real, equity: real)
    requires equity > 0.0
    ensures var g := GapOf(ticker, current, target, low, high, equity);
            && g.ticker == ticker && g.currentPct == current && g.targetPct == target
            && current + g.gapPct == target && current + g.gapUsd / equity * 100.0 == target
            && (g.band == Under <==> current < low) && (g.band == Over <==> current >= low && current > high)
  {
    var gap := (target - current) / 100.0;
    assert gap * equity / equity == gap;
  }

  // ---- The anchor chosen ----------------------------------------------------------------------------

  // No further from the close than so many percent of it.
  predicate Within(price: real, close: real, pct: real) {
    (if price <= close then close - price else price - close) * 100.0 <= pct * close
  }

  lemma ReachIsPercent(lv: Level, close: real, pct: real)
    requires close > 0.0
    ensures InReach(lv, close, pct) <==> Within(lv.price, close, pct)
  {
    var r := lv.price / close;
    assert r * close == lv.price;
    var x := (r - 1.0) * 100.0;
    assert x * close == (lv.price - close) * 100.0;
    if x < 0.0 {
      assert (-x <= pct) <==> (-x) * close <= pct * close;
      assert x * close < 0.0;
    } else {
      assert (x <= pct) <==> x * close <= pct * close;
      assert x * close >= 0.0;
    }
  }

  // A support at or under the close that was not closed through; a resistance at or over it.
  predicate ForBuys(nb: Nearby, lv: Level) {
    lv.levelType == Support && lv.price <= nb.current && (lv.anchor, Round4(lv.price)) !in nb.broken
  }

  predicate ForSells(nb: Nearby, lv: Level) {
    lv.levelType == Resistance && lv.price >= nb.current
  }

  predicate Offers(nb: Nearby, lv: Level, side: Side, pct: real) {
    (if side == Buy then ForBuys(nb, lv) else ForSells(nb, lv)) && Within(lv.price, nb.current, pct)
  }

  // Of the scored levels: the most confident, if it is confident enough; else the closest.
  ghost predicate BestScored(nb: Nearby, scored: seq<Level>, side: Side, pct: real, lv: Level) {
    && lv in scored && Offers(nb, lv, side, pct)
    && forall other :: other in scored && Offers(nb, other, side, pct) ==>
         if lv.confidence >= 0.4 then other.confidence <= lv.confidence
         else other.confidence < 0.4 && Apart(lv.price, nb.current) <= Apart(other.price, nb.current)
  }

  function Apart(x: real, y: real): real {
    if x <= y then y - x else x - y
  }

  // A nearby level of the side, not closed through if it is for a buy.
  predicate NearbyFor(nb: Nearby, lv: Level, side: Side) {
    if side == Buy then lv in nb.supports && (lv.anchor, Round4(lv.price)) !in nb.broken else lv in nb.resistances
  }

  function ChoiceFor(nb: Nearby, scored: seq<Level>, pct: real, side: Side): Choice
    requires Usable(nb)
  {
    if side == Buy then BuyChoice(nb, scored, pct) else SellChoice(nb, scored, pct)
  }

  // The anchor is the best scored level of the side in reach, with its confidence; when there is
  // none, the closest nearby level of the side, without one, if it is in reach.
  lemma ChoiceIsBest(nb: Nearby, scored: seq<Level>, pct: real, side: Side)
    requires Usable(nb) && ByDistance(nb.supports, nb.current) && ByDistance(nb.resistances, nb.current)
    ensures var c := ChoiceFor(nb, scored, pct, side);
            if exists lv :: lv in scored && Offers(nb, lv, side, pct) then
              exists lv :: BestScored(nb, scored, side, pct, lv)
                           && c == Chosen(Anchor(lv.price, lv.anchor, Some(lv.confidence)))
            else
              match c
              case Chosen(anchor) =>
                exists lv :: && NearbyFor(nb, lv, side) && Within(lv.price, nb.current, pct)
                             && anchor == Anchor(lv.price, lv.anchor, None)
                             && forall other :: NearbyFor(nb, other, side) ==>
                                  Apart(lv.price, nb.current) <= Apart(other.price, nb.current)
              case Refused(reason) =>
                forall lv :: NearbyFor(nb, lv, side) ==> !Within(lv.price, nb.current, pct)
  {
    var levels := Directional(nb, scored, side);
    SelectAnchorIsBest(levels, nb.current, pct);
    forall lv: Level
      ensures InReach(lv, nb.current, pct) <==> Within(lv.price, nb.current, pct)
    {
      ReachIsPercent(lv, nb.current, pct);
    }
    assert forall lv :: lv in levels && InReach(lv, nb.current, pct) <==> lv in scored && Offers(nb, lv, side, pct);
    var pick := SelectAnchor(levels, nb.current, pct);
    hide SelectAnchor, Directional, InReach;
    if pick.Some? {
      ReachedIsChosen(pick.value, Some(pick.value.confidence), nb, pct);
      assert BestScored(nb, scored, side, pct, pick.value);
    } else {
      ClosestNearby(nb, pct, side);
    }
  }

  lemma ReachedIsChosen(lv: Level, c: Option<real>, nb: Nearby, pct: real)
    requires nb.current > 0.0
    ensures InDistance(lv, c, nb, pct) ==
              if Within(lv.price, nb.current, pct) then Chosen(Anchor(lv.price, lv.anchor, c)) else Refused(TooFar)
  {
    ReachIsPercent(lv, nb.current, pct);
    assert Abs((lv.price / nb.current - 1.0) * 100.0) == Abs(lv.price / nb.current - 1.0) * 100.0;
  }

  // The nearby levels come nearest first.
  lemma ClosestNearby(nb: Nearby, pct: real, side: Side)
    requires Usable(nb) && ByDistance(nb.supports, nb.current) && ByDistance(nb.resistances, nb.current)
    ensures var lvs := if side == Buy then nb.supports else nb.resistances;
            var i := if side == Buy then FirstSound(nb, 0) else 0;
            if i < |lvs| then
              && NearbyFor(nb, lvs[i], side)
              && (forall other :: NearbyFor(nb, other, side) ==>
                    && Apart(lvs[i].price, nb.current) <= Apart(other.price, nb.current)
                    && (Within(other.price, nb.current, pct) ==> Within(lvs[i].price, nb.current, pct)))
              && InDistance(lvs[i], None, nb, pct) ==
                 (if Within(lvs[i].price, nb.current, pct) then Chosen(Anchor(lvs[i].price, lvs[i].anchor, None))
                  else Refused(TooFar))
            else forall other :: !NearbyFor(nb, other, side)
  {
    var lvs, i := if side == Buy then nb.supports else nb.resistances, if side == Buy then FirstSound(nb, 0) else 0;
    if i < |lvs| {
      ReachedIsChosen(lvs[i], None, nb, pct);
      forall other | NearbyFor(nb, other, side)
        ensures Apart(lvs[i].price, nb.current) <= Apart(other.price, nb.current)
      {
        var j :| 0 <= j < |lvs| && lvs[j] == other;
        assert i <= j;
      }
    }
  }

  // A refusal names its cause: no nearby level of the side, for a buy every one of them closed
  // through, or the closest one too far away.
  lemma RefusalsHaveCauses(nb: Nearby, scored: seq<Level>, pct: real, side: Side)
    requires Usable(nb)
    ensures var c := ChoiceFor(nb, scored, pct, side);
            && (c == Refused(NoSupport) ==> side == Buy && nb.supports == [])
            && (c == Refused(AllBroken) ==>
                  side == Buy && nb.supports != [] && forall lv :: lv in nb.supports ==> !NearbyFor(nb, lv, side))
            && (c == Refused(NoResistance) ==> side == Sell && nb.resistances == [])
            && (c == Refused(TooFar) ==> exists lv :: NearbyFor(nb, lv, side) && !Within(lv.price, nb.current, pct))
            && (c.Refused? ==> c.reason in {NoSupport, AllBroken, NoResistance, TooFar})
  {
    var levels := Directional(nb, scored, side);
    SelectAnchorIsBest(levels, nb.current, pct);
    var pick := SelectAnchor(levels, nb.current, pct);
    hide SelectAnchor, Directional;
    if pick.Some? {
      ReachIsPercent(pick.value, nb.current, pct);
      ReachedIsChosen(pick.value, Some(pick.value.confidence), nb, pct);
    } else {
      var lvs, i := if side == Buy then nb.supports else nb.resistances, if side == Buy then FirstSound(nb, 0) else 0;
      if i < |lvs| {
        ReachedIsChosen(lvs[i], None, nb, pct);
        assert NearbyFor(nb, lvs[i], side);
      }
    }
  }

  // ---- Every order is justified by one row ------------------------------------------------------

  // The order is the largest whole-share count within the row's budget at an anchor chosen
  // for the row, limited at the anchor rounded to the cent.
  ghost predicate Tight(x: Sized, g: GapRow, m: Market, rule: Rule)
    requires MarketOK(m)
  {
    && x.draft.ticker == g.ticker && g.ticker in m.nearby && g.band != InBand
    && x.draft.limit == Round2(x.price) && x.draft.kind == Regular
    && x.draft.baseQty == None && x.draft.sizeFactor == 1.0
    && var choice := if x.draft.side == Buy then BuyChoice(m.nearby[g.ticker], ScoredFor(m, g.ticker), m.maxPct)
                     else SellChoice(m.nearby[g.ticker], ScoredFor(m, g.ticker), m.maxPct);
    && choice.Chosen? && choice.anchor.price == x.price && x.price > 0.0
    && x.draft.anchor == choice.anchor.name && x.draft.confidence == choice.anchor.confidence
    && (x.draft.side == Buy <==> g.gapPct > 0.0)
    && LargestSize(x.draft.qty, g, x.draft.side, x.price, rule)
  }

  // This many shares cost no more than the rule's fraction of the gap, nor its limit. For a buy
  // the gap counts with its sign, for a trim without.
  predicate Affordable(x: real, g: GapRow, side: Side, price: real, rule: Rule) {
    && Worth(x, price) <= Worth(if side == Sell && g.gapUsd < 0.0 then -g.gapUsd else g.gapUsd, rule.fraction)
    && (rule.maxDollars.Some? ==> Worth(x, price) <= rule.maxDollars.value)
  }

  // The largest affordable number of whole shares, and at least one.
  predicate LargestSize(x: real, g: GapRow, side: Side, price: real, rule: Rule) {
    && x >= 1.0 && x == x.Floor as real
    && Affordable(x, g, side, price, rule) && !Affordable(x + 1.0, g, side, price, rule)
  }

  function Dollars(g: GapRow, side: Side, rule: Rule): real {
    if side == Buy then BuyBudget(g, rule) else Budget(g, rule)
  }

  lemma AffordableIff(x: real, g: GapRow, side: Side, price: real, rule: Rule)
    requires side == Sell || g.gapPct > 0.0
    ensures Affordable(x, g, side, price, rule) <==> Worth(x, price) <= Dollars(g, side, rule)
  {
    hide Worth;
  }

  // The quantity drafted is the largest affordable one, and none is drafted exactly when not
  // even one share is.
  lemma TruncatedIsLargest(g: GapRow, side: Side, price: real, rule: Rule)
    requires price > 0.0 && (side == Sell || g.gapPct > 0.0)
    ensures var qty := Trunc(Dollars(g, side, rule) / price);
            && (qty >= 1 ==> LargestSize(qty as real, g, side, price, rule))
            && (qty < 1 <==> !Affordable(1.0, g, side, price, rule))
  {
    var dollars, qty := Dollars(g, side, rule), Trunc(Dollars(g, side, rule) / price);
    hide Dollars, Affordable;
    WholeUnits(dollars, price, 1);
    WholeUnits(dollars, price, qty);
    WholeUnits(dollars, price, qty + 1);
    hide Trunc, Worth;
    AffordableIff(1.0, g, side, price, rule);
    AffordableIff(qty as real, g, side, price, rule);
    AffordableIff((qty + 1) as real, g, side, price, rule);
    assert (qty + 1) as real == qty as real + 1.0;
  }

  // How many whole units of this price a sum contains.
  lemma WholeUnits(dollars: real, price: real, n: int)
    requires price > 0.0
    ensures n >= 1 ==> (n <= Trunc(dollars / price) <==> Worth(n as real, price) <= dollars)
  {
    hide Worth;
    var q := dollars / price;
    Divide(dollars, price);
    WorthOrder(n as real, q, price);
    WorthOrder(q, n as real, price);
  }

  lemma StepIsTight(t: Tally, g: GapRow, m: Market, rule: Rule, floor: real)
    requires MarketOK(m)
    ensures var r := Step(t, g, m, rule, floor);
            || r.out == t.out
            || (|r.out| == |t.out| + 1 && r.out[..|t.out|] == t.out && Tight(r.out[|t.out|], g, m, rule))
  {
    hide BuyChoice, SellChoice, BuyBudget, Budget, Round2, Worth, Trunc, LargestSize, Affordable;
    if g.band != InBand && g.ticker in m.nearby {
      var nb, scored := m.nearby[g.ticker], ScoredFor(m, g.ticker);
      ChosenPriceIsPositive(nb, scored, m.maxPct);
      var side := if g.gapPct > 0.0 then Buy else Sell;
      var choice := if side == Buy then BuyChoice(nb, scored, m.maxPct) else SellChoice(nb, scored, m.maxPct);
      if choice.Chosen? {
        TruncatedIsLargest(g, side, choice.anchor.price, rule);
      }
    }
  }

  // Why a row was skipped: no nearby levels; no anchor, for the reason given; not even one share
  // affordable; or, for a buy, the largest affordable size reaching into the cash floor.
  lemma SkipsHaveCauses(t: Tally, g: GapRow, m: Market, rule: Rule, floor: real)
    requires MarketOK(m)
    ensures var r := Step(t, g, m, rule, floor);
            var side := if g.gapPct > 0.0 then Buy else Sell;
            r.skipped != t.skipped ==>
              && |r.skipped| == |t.skipped| + 1 && r.skipped[..|t.skipped|] == t.skipped
              && var y := r.skipped[|t.skipped|];
              && y == Skipped(g.ticker, side, y.reason) && g.band != InBand
              && if g.ticker !in m.nearby then y.reason == NoNearby
                 else
                   var nb, scored := m.nearby[g.ticker], ScoredFor(m, g.ticker);
                   match if side == Buy then BuyChoice(nb, scored, m.maxPct) else SellChoice(nb, scored, m.maxPct)
                   case Refused(reason) => y.reason == reason
                   case Chosen(anchor) =>
                     || (y.reason == SubShare && !Affordable(1.0, g, side, anchor.price, rule))
                     || (y.reason == CashFloor && side == Buy && exists x ::
                           LargestSize(x, g, side, anchor.price, rule) && Worth(x, anchor.price) > t.cash - floor)
  {
    hide BuyChoice, SellChoice, BuyBudget, Budget, Round2, Worth, Trunc, LargestSize, Affordable;
    if g.band != InBand && g.ticker in m.nearby {
      var nb, scored := m.nearby[g.ticker], ScoredFor(m, g.ticker);
      ChosenPriceIsPositive(nb, scored, m.maxPct);
      var side := if g.gapPct > 0.0 then Buy else Sell;
      var choice := if side == Buy then BuyChoice(nb, scored, m.maxPct) else SellChoice(nb, scored, m.maxPct);
      if choice.Chosen? {
        TruncatedIsLargest(g, side, choice.anchor.price, rule);
      }
    }
  }

  lemma {:induction false} OrdersAreTight(gaps: seq<GapRow>, m: Market, rule: Rule, cash: real, floor: real)
    requires MarketOK(m)
    ensures forall x :: x in Generate(gaps, m, rule, cash, floor).out ==> exists g :: g in gaps && Tight(x, g, m, rule)
  {
    hide Step, Tight;
    if gaps != [] {
      var n := |gaps| - 1;
      OrdersAreTight(gaps[..n], m, rule, cash, floor);
      StepIsTight(Generate(gaps[..n], m, rule, cash, floor), gaps[n], m, rule, floor);
      var before, after := Generate(gaps[..n], m, rule, cash, floor).out, Generate(gaps, m, rule, cash, floor).out;
      assert forall k :: 0 <= k < |before| ==> after[k] == before[k] by {
        assert after == before || after[..|before|] == before;
      }
      forall x | x in after
        ensures exists g :: g in gaps && Tight(x, g, m, rule)
      {
        if x in before {
          var g :| g in gaps[..n] && Tight(x, g, m, rule);
          assert g in gaps;
        } else {
          var i :| 0 <= i < |after| && after[i] == x;
          assert Tight(x, gaps[n], m, rule) && gaps[n] in gaps;
        }
      }
    }
  }

  // ---- Every out-of-band row is accounted for -----------------------------------------------------

  function RowsOf(gaps: seq<GapRow>, t: Ticker): nat {
    if gaps == [] then 0
    else RowsOf(gaps[..|gaps| - 1], t) + if gaps[|gaps| - 1].ticker == t && gaps[|gaps| - 1].band != InBand then 1
        else 0
  }

  function OrdersOf(out: seq<Sized>, t: Ticker): nat {
    if out == [] then 0 else OrdersOf(out[..|out| - 1], t) + if out[|out| - 1].draft.ticker == t then 1 else 0
  }

  function SkipsOf(skipped: seq<Skipped>, t: Ticker): nat {
    if skipped == [] then 0 else SkipsOf(skipped[..|skipped| - 1], t) + if skipped[|skipped| - 1].ticker == t then 1
        else 0
  }

  // The one kind of row the loop drops without a word.
  predicate FallsThrough(g: GapRow, m: Market) {
    g.band == Under && g.gapPct <= 0.0 && g.ticker in m.nearby
  }

  lemma AccountAppend(out: seq<Sized>, x: Sized, skipped: seq<Skipped>, y: Skipped, t: Ticker)
    ensures OrdersOf(out + [x], t) == OrdersOf(out, t) + if x.draft.ticker == t then 1 else 0
    ensures SkipsOf(skipped + [y], t) == SkipsOf(skipped, t) + if y.ticker == t then 1 else 0
  {
    assert (out + [x])[..|out|] == out;
    assert (skipped + [y])[..|skipped|] == skipped;
  }

  // A step does nothing, or adds one order or one skip of the row's ticker.
  lemma StepAddsOne(t: Tally, g: GapRow, m: Market, rule: Rule, floor: real) returns (x: Sized, y: Skipped)
    requires MarketOK(m)
    ensures var r := Step(t, g, m, rule, floor);
            if g.band == InBand || FallsThrough(g, m) then r == t
            else
              || (r.out == t.out + [x] && r.skipped == t.skipped && x.draft.ticker == g.ticker)
              || (r.out == t.out && r.skipped == t.skipped + [y] && y.ticker == g.ticker)
  {
    hide BuyChoice, SellChoice, BuyBudget, Budget, Round2, Worth, Trunc;
    var r := Step(t, g, m, rule, floor);
    x := if |r.out| > |t.out| then r.out[|t.out|] else Sized(Draft("", Buy, 0.0, 0.0, "", None, None, 0.0, Regular),
        0.0);
    y := if |r.skipped| > |t.skipped| then r.skipped[|t.skipped|] else Skipped("", Buy, NoNearby);
  }

  lemma StepAccounts(t: Tally, g: GapRow, m: Market, rule: Rule, floor: real, ticker: Ticker)
    requires MarketOK(m)
    ensures var r := Step(t, g, m, rule, floor);
            OrdersOf(r.out, ticker) + SkipsOf(r.skipped, ticker) ==
            OrdersOf(t.out, ticker) + SkipsOf(t.skipped, ticker)
            + if g.ticker == ticker && g.band != InBand && !FallsThrough(g, m) then 1 else 0
  {
    hide Step, OrdersOf, SkipsOf;
    var x, y := StepAddsOne(t, g, m, rule, floor);
    AccountAppend(t.out, x, t.skipped, y, ticker);
  }

  // Orders and skips of a ticker together are as many as its out-of-band rows (one, when
  // tickers are distinct), provided no row falls through; and with bands that bracket their
  // targets none does.
  lemma {:induction false} EveryRowIsAccounted(gaps: seq<GapRow>, m: Market, rule: Rule, cash: real, floor: real,
                                               ticker: Ticker)
    requires MarketOK(m)
    ensures var r := Generate(gaps, m, rule, cash, floor);
            && OrdersOf(r.out, ticker) + SkipsOf(r.skipped, ticker) <= RowsOf(gaps, ticker)
            && (OrdersOf(r.out, ticker) + SkipsOf(r.skipped, ticker) == RowsOf(gaps, ticker) <==>
                  forall g :: g in gaps && g.ticker == ticker ==> !FallsThrough(g, m))
  {
    hide Step;
    if gaps != [] {
      var n := |gaps| - 1;
      EveryRowIsAccounted(gaps[..n], m, rule, cash, floor, ticker);
      StepAccounts(Generate(gaps[..n], m, rule, cash, floor), gaps[n], m, rule, floor, ticker);
      assert gaps == gaps[..n] + [gaps[n]];
    }
  }

  // A target with its band, and what is held of it.
  datatype Holding = Holding(ticker: Ticker, current: real, target: real, low: real, high: real)

  function GapsOf(hs: seq<Holding>, equity: real): (r: seq<GapRow>)
    ensures |r| == |hs|
  {
    seq(|hs|, i requires 0 <= i < |hs| => GapOf(hs[i].ticker, hs[i].current, hs[i].target, hs[i].low, hs[i].high,
        equity))
  }

  predicate DistinctTickers(gaps: seq<GapRow>) {
    forall i, j :: 0 <= i < j < |gaps| ==> gaps[i].ticker != gaps[j].ticker
  }

  lemma {:induction false} OneRowEach(gaps: seq<GapRow>, i: nat)
    requires DistinctTickers(gaps) && i < |gaps|
    ensures RowsOf(gaps, gaps[i].ticker) == if gaps[i].band == InBand then 0 else 1
  {
    var n := |gaps| - 1;
    if i < n {
      OneRowEach(gaps[..n], i);
    } else {
      NoRow(gaps[..n], gaps[n].ticker);
    }
  }

  lemma {:induction false} NoRow(gaps: seq<GapRow>, t: Ticker)
    requires forall i :: 0 <= i < |gaps| ==> gaps[i].ticker != t
    ensures RowsOf(gaps, t) == 0
  {
    if gaps != [] {
      NoRow(gaps[..|gaps| - 1], t);
    }
  }

  // With bands that bracket their targets, every out-of-band ticker gets exactly one order or
  // one skip, and every ticker in its band neither.
  lemma EveryTickerIsAnswered(hs: seq<Holding>, equity: real, m: Market, rule: Rule, cash: real, floor: real, i: nat)
    requires MarketOK(m) && DistinctTickers(GapsOf(hs, equity)) && i < |hs|
    requires forall k :: 0 <= k < |hs| ==> hs[k].low <= hs[k].target <= hs[k].high
    ensures var gaps := GapsOf(hs, equity);
            var r := Generate(gaps, m, rule, cash, floor);
            OrdersOf(r.out, hs[i].ticker) + SkipsOf(r.skipped, hs[i].ticker) == if gaps[i].band == InBand then 0 else 1
  {
    hide Generate, OrdersOf, SkipsOf, RowsOf;
    var gaps := GapsOf(hs, equity);
    forall g | g in gaps
      ensures !FallsThrough(g, m)
    {
      var k :| 0 <= k < |gaps| && gaps[k] == g;
      BracketedBandSign(hs[k].ticker, hs[k].current, hs[k].target, hs[k].low, hs[k].high, equity);
    }
    OneRowEach(gaps, i);
    EveryRowIsAccounted(gaps, m, rule, cash, floor, hs[i].ticker);
  }

  // ---- The cash budget ---------------------------------------------------------------------------------

  lemma CostAppend(out: seq<Sized>, x: Sized)
    ensures AnchorCost(out + [x]) == AnchorCost(out) + if IsBuy(x) then Worth(x.draft.qty, x.price) else 0.0
    ensures LimitCost(out + [x]) == LimitCost(out) + if IsBuy(x) then Worth(x.draft.qty, x.draft.limit) else 0.0
    ensures BuyShares(out + [x]) == BuyShares(out) + if IsBuy(x) then x.draft.qty else 0.0
  {
    assert (out + [x])[..|out|] == out;
  }

  lemma StepSpends(t: Tally, g: GapRow, m: Market, rule: Rule, floor: real)
    requires MarketOK(m)
    ensures var r := Step(t, g, m, rule, floor);
            && r.cash + AnchorCost(r.out) == t.cash + AnchorCost(t.out)
            && ((r.cash == t.cash && BuyShares(r.out) == BuyShares(t.out)) || r.cash >= floor)
  {
    hide BuyChoice, SellChoice, BuyBudget, Budget, Round2, Worth, Trunc, AnchorCost, LimitCost, BuyShares;
    var r := Step(t, g, m, rule, floor);
    if |r.out| > |t.out| {
      assert r.out == t.out + [r.out[|t.out|]];
      CostAppend(t.out, r.out[|t.out|]);
    }
  }

  // The regular buys, at their anchor prices, never reach into the cash floor.
  lemma {:induction false} RegularBuysFitCash(gaps: seq<GapRow>, m: Market, rule: Rule, cash: real, floor: real)
    requires MarketOK(m)
    ensures var r := Generate(gaps, m, rule, cash, floor);
            && r.cash == cash - AnchorCost(r.out)
            && (BuyShares(r.out) != 0.0 ==> AnchorCost(r.out) <= cash - floor)
  {
    hide Step;
    if gaps != [] {
      RegularBuysFitCash(gaps[..|gaps| - 1], m, rule, cash, floor);
      StepSpends(Generate(gaps[..|gaps| - 1], m, rule, cash, floor), gaps[|gaps| - 1], m, rule, floor);
    }
  }

  // ---- Top-ups ---------------------------------------------------------------------------------------------

  // Confidences are between 0 and 1.
  predicate UnitScores(m: Market) {
    forall t :: t in m.scored ==> forall i :: 0 <= i < |m.scored[t]| ==> 0.0 <= m.scored[t][i].confidence <= 1.0
  }

  predicate UnitPlan(m: Market, p: TopupPlan) {
    0.0 <= p.fraction <= 1.0 && UnitScores(m)
  }

  // Both kinds of sentiment reading give a fraction of the gap, and more fear never a smaller one.
  lemma FractionIsMonotone(v: Option<real>, w: Option<real>, f: Option<int>, h: Option<int>)
    requires if f.Some? then h.Some? && f.value <= h.value
             else h == None && v.Some? && w.Some? && v.value >= w.value
    ensures TopupFraction(w, h) <= TopupFraction(v, f)
    ensures 0.25 <= TopupFraction(w, h) && TopupFraction(v, f) <= 1.0
  {
  }

  // Each fraction belongs to its readings: extreme fear (or a VIX of 30 and more) gives the whole
  // gap, fear (20 and more) three quarters, a neutral or missing reading half, greed a quarter.
  lemma FractionOfReading(vix: Option<real>, fearGreed: Option<int>)
    ensures var f := TopupFraction(vix, fearGreed);
            && f in {1.0, 0.75, 0.5, 0.25}
            && (f == 1.0 <==> match fearGreed
                              case Some(x) => x <= 25
                              case None => vix.Some? && vix.value >= 30.0)
            && (f == 0.75 <==> match fearGreed
                               case Some(x) => 26 <= x <= 45
                               case None => vix.Some? && 20.0 <= vix.value < 30.0)
            && (f == 0.25 <==> fearGreed.Some? && fearGreed.value >= 56)
  {
  }

  lemma ConfidenceIsUnit(nb: Nearby, scored: seq<Level>, maxPct: real)
    requires Usable(nb) && forall i :: 0 <= i < |scored| ==> 0.0 <= scored[i].confidence <= 1.0
    ensures var c := BuyChoice(nb, scored, maxPct);
            c.Chosen? && c.anchor.confidence.Some? ==> 0.0 <= c.anchor.confidence.value <= 1.0
  {
    SelectAnchorIsBest(Directional(nb, scored, Buy), nb.current, maxPct);
  }

  lemma UnitProduct(x: real, y: real)
    requires 0.0 <= x <= 1.0 && 0.0 <= y <= 1.0
    ensures 0.0 <= Worth(x, y) <= 1.0
  {
    assert 0.0 <= x * y <= x;
  }

  lemma ShrinkWhole(n: int, f: real)
    requires n >= 1 && 0.0 <= f <= 1.0
    ensures Trunc(Worth(n as real, f)) <= n
  {
    assert n as real * f <= n as real;
  }

  // A top-up costs no more than the gap or one share, whichever is more, fits the cash above
  // the floor, and keeps the holding at or under the band ceiling.
  ghost predicate Modest(x: Sized, g: GapRow, m: Market, p: TopupPlan, cash: real)
    requires MarketOK(m)
  {
    && p.equity > 0.0 && Eligible(g, m, p)
    && x.draft.ticker == g.ticker && x.draft.side == Buy && x.draft.kind == Topup
    && x.draft.limit == Round2(x.price) && x.price > 0.0
    && x.draft.qty >= 1.0 && x.draft.qty == x.draft.qty.Floor as real
    && var choice := BuyChoice(m.nearby[g.ticker], ScoredFor(m, g.ticker), m.maxPct);
    && choice.Chosen? && choice.anchor.price == x.price
    && (Worth(x.draft.qty, x.price) <= g.gapUsd || x.draft.qty == 1.0)
    && Worth(x.draft.qty, x.price) <= cash - p.floor
    && g.currentPct + Worth(x.draft.qty, x.price) / p.equity * 100.0 <= p.bandHigh[g.ticker]
  }

  lemma TopupQtyIsModest(g: GapRow, anchor: Anchor, bandHigh: real, p: TopupPlan, cash: real)
    requires anchor.price > 0.0 && p.equity > 0.0 && 0.0 <= p.fraction <= 1.0
    requires anchor.confidence.Some? ==> 0.0 <= anchor.confidence.value <= 1.0
    requires TopupQty(g, anchor, bandHigh, p, cash) >= 1
    ensures var qty := TopupQty(g, anchor, bandHigh, p, cash) as real;
            && (Worth(qty, anchor.price) <= g.gapUsd || qty == 1.0)
            && Worth(qty, anchor.price) <= cash - p.floor
            && g.currentPct + Worth(qty, anchor.price) / p.equity * 100.0 <= bandHigh
  {
    hide Worth, Trunc, Headroom;
    var price := anchor.price;
    var qty := TopupQty(g, anchor, bandHigh, p, cash);
    UnitProduct(p.fraction, if anchor.confidence.Some? then anchor.confidence.value else 0.5);
    ShrinkWhole(BaseShares(g, price), Effective(anchor, p.fraction));
    WholeShares(Headroom(g, bandHigh, p.equity), price);
    WorthOrder(qty as real, BandCap(g, bandHigh, p.equity, price) as real, price);
    WholeShares(cash - p.floor, price);
    WorthOrder(qty as real, Trunc((cash - p.floor) / price) as real, price);
    if qty > 1 {
      WholeShares(g.gapUsd, price);
      WorthOrder(qty as real, Trunc(g.gapUsd / price) as real, price);
    }
    UnderCeiling(g, Worth(qty as real, price), bandHigh, p.equity);
  }

  lemma UnderCeiling(g: GapRow, cost: real, bandHigh: real, equity: real)
    requires equity > 0.0 && cost <= Headroom(g, bandHigh, equity)
    ensures g.currentPct + cost / equity * 100.0 <= bandHigh
  {
    hide Worth;
    var share := (bandHigh - g.currentPct) / 100.0;
    Divide(cost, equity);
    WorthIs(share, equity);
    WorthOrder(share, cost / equity, equity);
  }

  lemma WorthIs(x: real, y: real)
    ensures Worth(x, y) == x * y
  {
  }

  lemma TopupStepIsModest(t: Topups, g: GapRow, m: Market, p: TopupPlan)
    requires MarketOK(m) && UnitPlan(m, p) && p.equity > 0.0
    ensures var r := TopupStep(t, g, m, p);
            || r == t
            || (&& |r.out| == |t.out| + 1 && r.out[..|t.out|] == t.out
                && Modest(r.out[|t.out|], g, m, p, t.cash)
                && r.cash == t.cash - Worth(r.out[|t.out|].draft.qty, r.out[|t.out|].price))
  {
    hide BuyChoice, Round2, Worth, TopupQty, BaseShares, Effective;
    if Eligible(g, m, p) {
      var nb, scored := m.nearby[g.ticker], ScoredFor(m, g.ticker);
      ChosenPriceIsPositive(nb, scored, m.maxPct);
      ConfidenceIsUnit(nb, scored, m.maxPct);
      var c := BuyChoice(nb, scored, m.maxPct);
      if c.Chosen? && TopupQty(g, c.anchor, p.bandHigh[g.ticker], p, t.cash) >= 1 {
        TopupQtyIsModest(g, c.anchor, p.bandHigh[g.ticker], p, t.cash);
      }
    }
  }

  // ---- The size of a top-up -------------------------------------------------------------------------

  // Buying x shares at this price fits the cash above the floor and stays under the ceiling.
  predicate Fits(x: real, price: real, g: GapRow, bandHigh: real, p: TopupPlan, cash: real)
    requires p.equity > 0.0
  {
    && Worth(x, price) <= cash - p.floor
    && g.currentPct + Worth(x, price) / p.equity * 100.0 <= bandHigh
  }

  lemma FitsIff(x: real, price: real, g: GapRow, bandHigh: real, p: TopupPlan, cash: real)
    requires p.equity > 0.0
    ensures Fits(x, price, g, bandHigh, p, cash) <==>
              Worth(x, price) <= cash - p.floor && Worth(x, price) <= Headroom(g, bandHigh, p.equity)
  {
    var cost, share := Worth(x, price), (bandHigh - g.currentPct) / 100.0;
    hide Worth;
    Divide(cost, p.equity);
    WorthIs(share, p.equity);
    WorthOrder(share, cost / p.equity, p.equity);
    WorthOrder(cost / p.equity, share, p.equity);
  }

  // k shares are the whole shares the gap pays for.
  predicate GapPaysFor(k: int, g: GapRow, price: real) {
    Worth(k as real, price) <= g.gapUsd < Worth((k + 1) as real, price)
  }

  lemma BaseIsTheGap(g: GapRow, price: real, k: int)
    requires price > 0.0 && GapPaysFor(k, g, price)
    ensures BaseShares(g, price) == if k < 1 then 1 else k
  {
    WholeUnits(g.gapUsd, price, k);
    WholeUnits(g.gapUsd, price, k + 1);
    WholeUnits(g.gapUsd, price, 1);
    if k < 1 {
      hide Trunc;
      WorthOrder((k + 1) as real, 1.0, price);
    }
    hide Worth, Trunc;
  }

  // The whole shares of the gap (at least one), scaled by sentiment and confidence.
  function Scaled(k: int, anchor: Anchor, p: TopupPlan): real {
    Worth((if k < 1 then 1 else k) as real,
          Worth(p.fraction, match anchor.confidence case Some(c) => c case None => 0.5))
  }

  // A top-up is dropped exactly when not even one share fits. Otherwise it is one share or at
  // most the scaled gap; it fits; and one share more would exceed the scaled gap or not fit.
  lemma TopupQtyIsLargest(g: GapRow, anchor: Anchor, bandHigh: real, p: TopupPlan, cash: real, k: int)
    requires anchor.price > 0.0 && p.equity > 0.0 && GapPaysFor(k, g, anchor.price)
    ensures var qty := TopupQty(g, anchor, bandHigh, p, cash);
            && (qty < 1 <==> !Fits(1.0, anchor.price, g, bandHigh, p, cash))
            && (qty >= 1 ==>
                  && Fits(qty as real, anchor.price, g, bandHigh, p, cash)
                  && (qty == 1 || qty as real <= Scaled(k, anchor, p))
                  && (Scaled(k, anchor, p) < (qty + 1) as real
                      || !Fits((qty + 1) as real, anchor.price, g, bandHigh, p, cash)))
  {
    var price, qty := anchor.price, TopupQty(g, anchor, bandHigh, p, cash);
    var room, money := Headroom(g, bandHigh, p.equity), cash - p.floor;
    BaseIsTheGap(g, price, k);
    assert Scaled(k, anchor, p) == Worth(BaseShares(g, price) as real, Effective(anchor, p.fraction));
    SharesFitIff(1, price, g, bandHigh, p, cash);
    SharesFitIff(qty, price, g, bandHigh, p, cash);
    SharesFitIff(qty + 1, price, g, bandHigh, p, cash);
    hide Worth, Headroom, Fits, Scaled, BaseShares, Effective;
  }

  lemma SharesFitIff(n: int, price: real, g: GapRow, bandHigh: real, p: TopupPlan, cash: real)
    requires p.equity > 0.0 && price > 0.0
    ensures n >= 1 ==> (Fits(n as real, price, g, bandHigh, p, cash) <==>
              n <= Trunc(Headroom(g, bandHigh, p.equity) / price) && n <= Trunc((cash - p.floor) / price))
  {
    FitsIff(n as real, price, g, bandHigh, p, cash);
    WholeUnits(Headroom(g, bandHigh, p.equity), price, n);
    WholeUnits(cash - p.floor, price, n);
  }

  // The row has a gap to fill, a band ceiling and nearby levels, and no regular buy.
  predicate MayTopUp(g: GapRow, m: Market, p: TopupPlan) {
    g.gapPct > 0.0 && g.ticker in p.bandHigh && g.ticker in m.nearby && g.ticker !in p.taken
  }

  // The top-up drafted for row g from this cash is of the largest size there is.
  ghost predicate Largest(x: Sized, g: GapRow, m: Market, p: TopupPlan, cash: real)
    requires MarketOK(m) && p.equity > 0.0
  {
    && MayTopUp(g, m, p)
    && var choice := BuyChoice(m.nearby[g.ticker], ScoredFor(m, g.ticker), m.maxPct);
    && choice.Chosen? && x.price == choice.anchor.price
    && x.draft == Draft(g.ticker, Buy, x.draft.qty, Round2(x.price), choice.anchor.name, choice.anchor.confidence,
                        x.draft.baseQty, x.draft.sizeFactor, Topup)
    && Fits(x.draft.qty, x.price, g, p.bandHigh[g.ticker], p, cash)
    && x.draft.qty >= 1.0 && x.draft.qty == x.draft.qty.Floor as real
    && forall k: int :: GapPaysFor(k, g, x.price) ==>
         && x.draft.baseQty == Some((if k < 1 then 1 else k) as real)
         && (x.draft.qty == 1.0 || x.draft.qty <= Scaled(k, choice.anchor, p))
         && (Scaled(k, choice.anchor, p) < x.draft.qty + 1.0
             || !Fits(x.draft.qty + 1.0, x.price, g, p.bandHigh[g.ticker], p, cash))
  }

  // One row: it gets a top-up exactly when it may have one, an anchor is chosen for it, and one
  // share fits; and then the largest.
  lemma TopupStepIsLargest(t: Topups, g: GapRow, m: Market, p: TopupPlan)
    requires MarketOK(m) && p.equity > 0.0
    ensures var r := TopupStep(t, g, m, p);
            if MayTopUp(g, m, p)
               && var choice := BuyChoice(m.nearby[g.ticker], ScoredFor(m, g.ticker), m.maxPct);
                  choice.Chosen? && Fits(1.0, choice.anchor.price, g, p.bandHigh[g.ticker], p, t.cash)
            then
              && |r.out| == |t.out| + 1 && r.out[..|t.out|] == t.out
              && Largest(r.out[|t.out|], g, m, p, t.cash)
              && r.cash == t.cash - Worth(r.out[|t.out|].draft.qty, r.out[|t.out|].price)
            else r == t
  {
    hide BuyChoice, Round2, Worth, TopupQty, BaseShares, Effective, Fits, Scaled;
    if MayTopUp(g, m, p) {
      var nb, scored, high := m.nearby[g.ticker], ScoredFor(m, g.ticker), p.bandHigh[g.ticker];
      ChosenPriceIsPositive(nb, scored, m.maxPct);
      var choice := BuyChoice(nb, scored, m.maxPct);
      if choice.Chosen? {
        var k0 := SomeGap(g, choice.anchor.price);
        TopupQtyIsLargest(g, choice.anchor, high, p, t.cash, k0);
        forall k: int | GapPaysFor(k, g, choice.anchor.price)
          ensures k == k0 && BaseShares(g, choice.anchor.price) == if k < 1 then 1 else k
        {
          OneGap(g, choice.anchor.price, k, k0);
          BaseIsTheGap(g, choice.anchor.price, k);
        }
      }
    }
  }

  lemma SomeGap(g: GapRow, price: real) returns (k: int)
    requires price > 0.0
    ensures GapPaysFor(k, g, price)
  {
    var q := g.gapUsd / price;
    k := q.Floor;
    hide Worth;
    Divide(g.gapUsd, price);
    WorthOrder(k as real, q, price);
    WorthOrder(q, (k + 1) as real, price);
  }

  lemma OneGap(g: GapRow, price: real, k: int, l: int)
    requires price > 0.0 && GapPaysFor(k, g, price) && GapPaysFor(l, g, price)
    ensures k == l
  {
    hide Worth;
    WorthOrder((k + 1) as real, l as real, price);
    WorthOrder((l + 1) as real, k as real, price);
  }

  // The rows are taken in order, each with the cash the earlier ones left, and none is left out:
  // row i gets a top-up exactly when it may have one, an anchor is chosen and one share fits.
  // With no equity there are none.
  lemma EveryRowMayTopUp(gaps: seq<GapRow>, m: Market, p: TopupPlan, cash: real, i: nat)
    requires MarketOK(m) && i < |gaps|
    ensures p.equity <= 0.0 ==> GenerateTopups(gaps, m, p, cash) == Topups([], cash)
    ensures p.equity > 0.0 ==>
              var t, r, g := GenerateTopups(gaps[..i], m, p, cash), GenerateTopups(gaps[..i + 1], m, p, cash), gaps[i];
              if MayTopUp(g, m, p)
                 && var choice := BuyChoice(m.nearby[g.ticker], ScoredFor(m, g.ticker), m.maxPct);
                    choice.Chosen? && Fits(1.0, choice.anchor.price, g, p.bandHigh[g.ticker], p, t.cash)
              then
                && |r.out| == |t.out| + 1 && r.out[..|t.out|] == t.out
                && Largest(r.out[|t.out|], g, m, p, t.cash)
              else r == t
  {
    hide TopupStep, BuyChoice, Fits, Largest;
    assert gaps[..i + 1][..i] == gaps[..i];
    if p.equity > 0.0 {
      TopupStepIsLargest(GenerateTopups(gaps[..i], m, p, cash), gaps[i], m, p);
    }
  }

  // Top-ups keep away from exactly the tickers of the regular buys, and share the plan's floor.
  lemma BuysAreTaken(regular: seq<Sized>, bandHigh: map<Ticker, real>, fraction: real, equity: real, t: Ticker)
    ensures var p := PlanFor(regular, bandHigh, fraction, equity);
            && (t in p.taken <==> exists x :: x in regular && x.draft.side == Buy && x.draft.ticker == t)
            && p.bandHigh == bandHigh && p.fraction == fraction && p.equity == equity && p.floor == 100.0
  {
    forall i | 0 <= i < |regular|
      ensures regular[i] in regular
    {
    }
  }

  // Every top-up drafted is the largest there is for its row from the cash left before it.
  lemma {:induction false} TopupsAreLargest(gaps: seq<GapRow>, m: Market, p: TopupPlan, cash: real)
    requires MarketOK(m) && p.equity > 0.0
    ensures forall x :: x in GenerateTopups(gaps, m, p, cash).out ==>
              exists i :: 0 <= i < |gaps| && Largest(x, gaps[i], m, p, GenerateTopups(gaps[..i], m, p, cash).cash)
  {
    hide TopupStep, Largest, Worth;
    if gaps != [] {
      var n := |gaps| - 1;
      TopupsAreLargest(gaps[..n], m, p, cash);
      var t, r := GenerateTopups(gaps[..n], m, p, cash), GenerateTopups(gaps, m, p, cash);
      TopupStepIsLargest(t, gaps[n], m, p);
      forall x | x in r.out
        ensures exists i :: 0 <= i < |gaps| && Largest(x, gaps[i], m, p, GenerateTopups(gaps[..i], m, p, cash).cash)
      {
        if x in t.out {
          var i :| 0 <= i < n && Largest(x, gaps[..n][i], m, p, GenerateTopups(gaps[..n][..i], m, p, cash).cash);
          assert gaps[..n][..i] == gaps[..i];
        } else {
          var j :| 0 <= j < |r.out| && r.out[j] == x;
          assert Largest(x, gaps[n], m, p, GenerateTopups(gaps[..n], m, p, cash).cash);
        }
      }
    }
  }

  // Every top-up is modest with respect to some cash it found; together they cost no more
  // than the cash given above the floor.
  lemma {:induction false} TopupsAreModest(gaps: seq<GapRow>, m: Market, p: TopupPlan, cash: real)
    requires MarketOK(m) && UnitPlan(m, p)
    ensures var r := GenerateTopups(gaps, m, p, cash);
            && r.cash == cash - AnchorCost(r.out) && r.cash <= cash
            && (r.out != [] ==> AnchorCost(r.out) <= cash - p.floor)
            && forall x :: x in r.out ==> exists g :: g in gaps && Modest(x, g, m, p, cash)
  {
    hide TopupStep, Modest, Worth;
    if gaps != [] && p.equity > 0.0 {
      var n := |gaps| - 1;
      TopupsAreModest(gaps[..n], m, p, cash);
      var t, r := GenerateTopups(gaps[..n], m, p, cash), GenerateTopups(gaps, m, p, cash);
      TopupStepIsModest(t, gaps[n], m, p);
      assert gaps[n] in gaps;
      forall x, g | g in gaps[..n] && Modest(x, g, m, p, cash)
        ensures g in gaps
      {
      }
      if r != t {
        var x := r.out[|t.out|];
        assert r.out == t.out + [x];
        CostAppend(t.out, x);
        MoreCash(x, gaps[n], m, p, t.cash, cash);
      }
    }
  }

  lemma MoreCash(x: Sized, g: GapRow, m: Market, p: TopupPlan, less: real, more: real)
    requires MarketOK(m) && Modest(x, g, m, p, less) && less <= more
    ensures Modest(x, g, m, p, more) && IsBuy(x) && Worth(x.draft.qty, x.price) > 0.0
    ensures Worth(x.draft.qty, x.price) <= less - p.floor
  {
    WorthSign(x.draft.qty, x.price);
  }

  // ---- Limit prices against anchor prices ---------------------------------------------------------------------

  ghost predicate Rounded(out: seq<Sized>) {
    forall i :: 0 <= i < |out| ==> out[i].draft.limit == Round2(out[i].price) && out[i].draft.qty >= 0.0
  }

  lemma WorthRight(q: real, x: real, y: real)
    ensures Worth(q, x) == Worth(q, y) + Worth(q, x - y)
  {
  }

  lemma WorthAtMost(q: real, x: real, y: real)
    requires q >= 0.0 && x <= y
    ensures Worth(q, x) <= Worth(q, y)
  {
  }

  lemma HalfCent(q: real, limit: real, price: real)
    requires q >= 0.0 && limit == Round2(price)
    ensures -0.005 * q <= Worth(q, limit) - Worth(q, price) <= 0.005 * q
  {
    hide Round2;
    RoundingError(price);
    WorthIs(q, 0.005);
    WorthIs(q, -0.005);
    hide Worth;
    WorthRight(q, limit, price);
    WorthAtMost(q, limit - price, 0.005);
    WorthAtMost(q, -0.005, limit - price);
  }

  lemma {:induction false} LimitCostIsClose(out: seq<Sized>)
    requires Rounded(out)
    ensures -0.005 * BuyShares(out) <= LimitCost(out) - AnchorCost(out) <= 0.005 * BuyShares(out)
  {
    hide Worth, Round2;
    if out != [] {
      var x := out[|out| - 1];
      LimitCostIsClose(out[..|out| - 1]);
      HalfCent(x.draft.qty, x.draft.limit, x.price);
    }
  }

  // The week's buys against the week's cash. Regular buys fit above the floor at anchor
  // prices; once a top-up is drafted, regular buys at limit prices and top-ups at anchor
  // prices fit together. At limit prices the excess is at most half a cent a share.
  lemma WeekFitsCash(gaps: seq<GapRow>, m: Market, bandHigh: map<Ticker, real>, fraction: real, cash: real,
                     equity: real)
    requires MarketOK(m) && 0.0 <= fraction <= 1.0
    requires UnitScores(m)
    ensures var regular := Generate(gaps, m, HALF_THE_GAP, cash, CASH_FLOOR).out;
            var topups := GenerateTopups(gaps, m, PlanFor(regular, bandHigh, fraction, equity),
                cash - LimitCost(regular)).out;
            && (BuyShares(regular) != 0.0 ==> AnchorCost(regular) <= cash - CASH_FLOOR)
            && (BuyShares(regular) != 0.0 ==> LimitCost(regular) <= cash - CASH_FLOOR + 0.005 * BuyShares(regular))
            && (topups != [] ==> LimitCost(regular) + AnchorCost(topups) <= cash - CASH_FLOOR)
            && (topups != [] ==>
                  LimitCost(regular) + LimitCost(topups) <= cash - CASH_FLOOR + 0.005 * BuyShares(topups))
  {
    hide Generate, GenerateTopups, LimitCost, AnchorCost, BuyShares, Tight, Modest;
    var regular := Generate(gaps, m, HALF_THE_GAP, cash, CASH_FLOOR).out;
    var p := PlanFor(regular, bandHigh, fraction, equity);
    var topups := GenerateTopups(gaps, m, p, cash - LimitCost(regular)).out;
    RegularBuysFitCash(gaps, m, HALF_THE_GAP, cash, CASH_FLOOR);
    OrdersAreTight(gaps, m, HALF_THE_GAP, cash, CASH_FLOOR);
    TightIsRounded(regular, gaps, m, HALF_THE_GAP);
    LimitCostIsClose(regular);
    TopupsAreModest(gaps, m, p, cash - LimitCost(regular));
    ModestIsRounded(topups, gaps, m, p, cash - LimitCost(regular));
    LimitCostIsClose(topups);
  }

  lemma TightIsRounded(out: seq<Sized>, gaps: seq<GapRow>, m: Market, rule: Rule)
    requires MarketOK(m) && forall x :: x in out ==> exists g :: g in gaps && Tight(x, g, m, rule)
    ensures Rounded(out)
  {
    forall i | 0 <= i < |out|
      ensures out[i].draft.limit == Round2(out[i].price) && out[i].draft.qty >= 0.0
    {
      assert out[i] in out;
    }
  }

  lemma ModestIsRounded(out: seq<Sized>, gaps: seq<GapRow>, m: Market, p: TopupPlan, cash: real)
    requires MarketOK(m) && forall x :: x in out ==> exists g :: g in gaps && Modest(x, g, m, p, cash)
    ensures Rounded(out)
  {
    forall i | 0 <= i < |out|
      ensures out[i].draft.limit == Round2(out[i].price) && out[i].draft.qty >= 0.0
    {
      assert out[i] in out;
    }
  }
}
