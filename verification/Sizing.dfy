// Sizing suggestions: regular rebalancing orders and top-ups.
module Sizing {
  import opened Options
  import opened Trading
  import opened Levels

  datatype Band = Under | InBand | Over

  datatype GapRow = GapRow(ticker: Ticker, currentPct: real, targetPct: real, gapPct: real, gapUsd: real, band: Band)

  // One row of the gap query.
  function GapOf(ticker: Ticker, current: real, target: real, low: real, high: real, equity: real): GapRow {
    GapRow(ticker, current, target, target - current, (target - current) / 100.0 * equity,
           if current < low then Under else if current > high then Over else InBand)
  }

  // Nearest levels of a ticker. `broken` names the levels recently closed through.
  datatype Nearby = Nearby(current: real, supports: seq<Level>, resistances: seq<Level>, broken: set<(string, real)>)

  datatype Market = Market(nearby: map<Ticker, Nearby>, scored: map<Ticker, seq<Level>>, maxPct: real)

  predicate Positive(levels: seq<Level>) {
    forall i :: 0 <= i < |levels| ==> levels[i].price > 0.0
  }

  // Prices are positive and the nearby levels are on their own side of the close.
  predicate Usable(nb: Nearby) {
    && nb.current > 0.0 && Positive(nb.supports) && Positive(nb.resistances)
    && (forall i :: 0 <= i < |nb.supports| ==> nb.supports[i].price < nb.current)
    && (forall i :: 0 <= i < |nb.resistances| ==> nb.resistances[i].price > nb.current)
  }

  // The nearest levels of a ticker around its close.
  function NearbyOf(levels: seq<Level>, close: real, maxDistance: real, n: nat, broken: set<(string, real)>): Nearby {
    Nearby(close, Nearest(levels, Support, close, Worth(maxDistance, close), n),
           Nearest(levels, Resistance, close, Worth(maxDistance, close), n), broken)
  }

  // Nearby levels built from positive prices are usable, and come nearest first.
  lemma NearbyIsUsable(levels: seq<Level>, close: real, maxDistance: real, n: nat, broken: set<(string, real)>)
    requires close > 0.0 && Positive(levels)
    ensures var nb := NearbyOf(levels, close, maxDistance, n, broken);
            Usable(nb) && ByDistance(nb.supports, close) && ByDistance(nb.resistances, close)
  {
    hide Near, Worth;
    var nb := NearbyOf(levels, close, maxDistance, n, broken);
    NearIsSorted(levels, Support, close, Worth(maxDistance, close));
    NearIsSorted(levels, Resistance, close, Worth(maxDistance, close));
    NearestIsNearest(levels, Support, close, Worth(maxDistance, close), n);
    NearestIsNearest(levels, Resistance, close, Worth(maxDistance, close), n);
    assert forall i :: 0 <= i < |nb.supports| ==> nb.supports[i] in nb.supports;
    assert forall i :: 0 <= i < |nb.resistances| ==> nb.resistances[i] in nb.resistances;
  }

  predicate MarketOK(m: Market) {
    && (forall t :: t in m.nearby ==> Usable(m.nearby[t]))
    && (forall t :: t in m.scored ==> Positive(m.scored[t]))
  }

  function ScoredFor(m: Market, t: Ticker): seq<Level> {
    if t in m.scored then m.scored[t] else []
  }

  datatype SkipReason = NoNearby | NoSupport | AllBroken | TooFar | NoResistance | SubShare | CashFloor
  datatype Skipped = Skipped(ticker: Ticker, side: Side, reason: SkipReason)

  datatype Anchor = Anchor(price: real, name: string, confidence: Option<real>)
  datatype Choice = Chosen(anchor: Anchor) | Refused(reason: SkipReason)

  predicate IsBroken(nb: Nearby, lv: Level) {
    (lv.anchor, Round4(lv.price)) in nb.broken
  }

  // ---- Choosing the anchor -------------------------------------------------------------------

  predicate BuyLevel(nb: Nearby, lv: Level) {
    lv.levelType == Support && lv.price <= nb.current && !IsBroken(nb, lv)
  }

  predicate SellLevel(nb: Nearby, lv: Level) {
    lv.levelType == Resistance && lv.price >= nb.current
  }

  function Directional(nb: Nearby, levels: seq<Level>, side: Side): (r: seq<Level>)
    ensures forall lv :: lv in r <==> lv in levels && if side == Buy then BuyLevel(nb, lv) else SellLevel(nb, lv)
  {
    if levels == [] then []
    else
      var n := |levels| - 1;
      assert levels == levels[..n] + [levels[n]];
      Directional(nb, levels[..n], side)
      + if (if side == Buy then BuyLevel(nb, levels[n]) else SellLevel(nb, levels[n])) then [levels[n]] else []
  }

  // First support not broken; |supports| if all are.
  function FirstSound(nb: Nearby, i: nat): (r: nat)
    requires i <= |nb.supports|
    ensures i <= r <= |nb.supports|
    ensures r < |nb.supports| ==> !IsBroken(nb, nb.supports[r])
    ensures forall j :: i <= j < r ==> IsBroken(nb, nb.supports[j])
    decreases |nb.supports| - i
  {
    if i == |nb.supports| || !IsBroken(nb, nb.supports[i]) then i else FirstSound(nb, i + 1)
  }

  function InDistance(lv: Level, c: Option<real>, nb: Nearby, maxPct: real): Choice
    requires nb.current > 0.0
  {
    if Abs(lv.price / nb.current - 1.0) * 100.0 > maxPct then Refused(TooFar)
    else Chosen(Anchor(lv.price, lv.anchor, c))
  }

  function BuyChoice(nb: Nearby, scored: seq<Level>, maxPct: real): Choice
    requires Usable(nb)
  {
    var pick := SelectAnchor(Directional(nb, scored, Buy), nb.current, maxPct);
    if pick.Some? then InDistance(pick.value, Some(pick.value.confidence), nb, maxPct)
    else if nb.supports == [] then Refused(NoSupport)
    else
      var i := FirstSound(nb, 0);
      if i == |nb.supports| then Refused(AllBroken) else InDistance(nb.supports[i], None, nb, maxPct)
  }

  function SellChoice(nb: Nearby, scored: seq<Level>, maxPct: real): Choice
    requires Usable(nb)
  {
    var pick := SelectAnchor(Directional(nb, scored, Sell), nb.current, maxPct);
    if pick.Some? then InDistance(pick.value, Some(pick.value.confidence), nb, maxPct)
    else if nb.resistances == [] then Refused(NoResistance)
    else InDistance(nb.resistances[0], None, nb, maxPct)
  }

  // A chosen anchor is a level of the ticker, on the passive side of the close and in reach,
  // and for a buy not a broken one.
  lemma ChoicesAreLevels(nb: Nearby, scored: seq<Level>, maxPct: real)
    requires Usable(nb)
    ensures BuyChoice(nb, scored, maxPct).Chosen? ==>
              exists lv :: (lv in scored || lv in nb.supports)
                           && lv.price == BuyChoice(nb, scored, maxPct).anchor.price && lv.price <= nb.current
                           && !IsBroken(nb, lv) && InReach(lv, nb.current, maxPct)
    ensures SellChoice(nb, scored, maxPct).Chosen? ==>
              exists lv :: (lv in scored || lv in nb.resistances)
                           && lv.price == SellChoice(nb, scored, maxPct).anchor.price && lv.price >= nb.current
                           && InReach(lv, nb.current, maxPct)
  {
    var buys, sells := Directional(nb, scored, Buy), Directional(nb, scored, Sell);
    SelectAnchorIsBest(buys, nb.current, maxPct);
    SelectAnchorIsBest(sells, nb.current, maxPct);
  }

  // A buy is refused only when no unbroken support at or below the close is in reach, among
  // the scored levels or the (nearest-first) nearby ones.
  lemma BuyRefusedOnlyWithoutSupport(nb: Nearby, scored: seq<Level>, maxPct: real)
    requires Usable(nb) && ByDistance(nb.supports, nb.current)
    ensures BuyChoice(nb, scored, maxPct).Refused? <==>
              && (forall lv :: lv in scored && BuyLevel(nb, lv) ==> !InReach(lv, nb.current, maxPct))
              && (forall lv :: lv in nb.supports && !IsBroken(nb, lv) ==> !InReach(lv, nb.current, maxPct))
  {
    var buys := Directional(nb, scored, Buy);
    SelectAnchorIsBest(buys, nb.current, maxPct);
    var i := FirstSound(nb, 0);
    forall lv | lv in nb.supports && !IsBroken(nb, lv) && InReach(lv, nb.current, maxPct)
      ensures i < |nb.supports| && InReach(nb.supports[i], nb.current, maxPct)
    {
      var j :| 0 <= j < |nb.supports| && nb.supports[j] == lv;
      NearerIsInReach(nb.supports[i], lv, nb.current, maxPct);
    }
  }

  lemma NearerIsInReach(lv: Level, far: Level, current: real, maxPct: real)
    requires current > 0.0 && InReach(far, current, maxPct) && lv.price <= current && far.price <= current
    requires Abs(lv.price - current) <= Abs(far.price - current)
    ensures InReach(lv, current, maxPct)
  {
    hide Worth;
    Divide(lv.price, current);
    Divide(far.price, current);
    Divide(current, current);
    WorthOrder(lv.price / current, far.price / current, current);
    WorthOrder(far.price / current, lv.price / current, current);
    WorthOrder(lv.price / current, 1.0, current);
    WorthOrder(1.0, lv.price / current, current);
    WorthOne(current);
  }

  // ---- Regular orders ---------------------------------------------------------------------------

  datatype Rule = Rule(fraction: real, maxDollars: Option<real>)

  function Capped(dollars: real, rule: Rule): real {
    if rule.maxDollars.Some? && rule.maxDollars.value < dollars then rule.maxDollars.value else dollars
  }

  function Budget(g: GapRow, rule: Rule): real {
    Capped(Worth(Abs(g.gapUsd), rule.fraction), rule)
  }

  // For a buy the gap is taken with its sign, for a trim without.
  function BuyBudget(g: GapRow, rule: Rule): real {
    Capped(Worth(g.gapUsd, rule.fraction), rule)
  }

  // A draft together with the unrounded anchor price it was sized at.
  datatype Sized = Sized(draft: Draft, price: real)

  function Order(t: Ticker, side: Side, qty: int, anchor: Anchor, base: Option<real>, factor: real, kind: Kind): Sized {
    Sized(Draft(t, side, qty as real, Round2(anchor.price), anchor.name, anchor.confidence, base, factor, kind),
        anchor.price)
  }

  datatype Tally = Tally(out: seq<Sized>, skipped: seq<Skipped>, cash: real)

  function Skip(t: Tally, g: GapRow, side: Side, reason: SkipReason): Tally {
    t.(skipped := t.skipped + [Skipped(g.ticker, side, reason)])
  }

  function BuyStep(t: Tally, g: GapRow, m: Market, rule: Rule, floor: real): Tally
    requires MarketOK(m) && g.ticker in m.nearby
  {
    match BuyChoice(m.nearby[g.ticker], ScoredFor(m, g.ticker), m.maxPct)
    case Refused(reason) => Skip(t, g, Buy, reason)
    case Chosen(anchor) =>
      var qty := if anchor.price <= 0.0 then 0 else Trunc(BuyBudget(g, rule) / anchor.price);
      var cost := Worth(qty as real, anchor.price);
      if qty < 1 then Skip(t, g, Buy, SubShare)
      else if cost > t.cash - floor then Skip(t, g, Buy, CashFloor)
      else t.(cash := t.cash - cost, out := t.out + [Order(g.ticker, Buy, qty, anchor, None, 1.0, Regular)])
  }

  function SellStep(t: Tally, g: GapRow, m: Market, rule: Rule): Tally
    requires MarketOK(m) && g.ticker in m.nearby
  {
    match SellChoice(m.nearby[g.ticker], ScoredFor(m, g.ticker), m.maxPct)
    case Refused(reason) => Skip(t, g, Sell, reason)
    case Chosen(anchor) =>
      var qty := if anchor.price <= 0.0 then 0 else Trunc(Budget(g, rule) / anchor.price);
      if qty < 1 then Skip(t, g, Sell, SubShare)
      else t.(out := t.out + [Order(g.ticker, Sell, qty, anchor, None, 1.0, Regular)])
  }

  function Step(t: Tally, g: GapRow, m: Market, rule: Rule, floor: real): Tally
    requires MarketOK(m)
  {
    if g.band == InBand then t
    else if g.ticker !in m.nearby then Skip(t, g, if g.gapPct > 0.0 then Buy else Sell, NoNearby)
    else if g.gapPct > 0.0 then BuyStep(t, g, m, rule, floor)
    else if g.band == Over then SellStep(t, g, m, rule)
    else t
  }

  function Generate(gaps: seq<GapRow>, m: Market, rule: Rule, cash: real, floor: real): Tally
    requires MarketOK(m)
  {
    if gaps == [] then Tally([], [], cash)
    else Step(Generate(gaps[..|gaps| - 1], m, rule, cash, floor), gaps[|gaps| - 1], m, rule, floor)
  }

  function Drafts(out: seq<Sized>): (r: seq<Draft>)
    ensures |r| == |out| && forall i :: 0 <= i < |r| ==> r[i] == out[i].draft
  {
    seq(|out|, i requires 0 <= i < |out| => out[i].draft)
  }

  method GenerateSuggestions(gaps: seq<GapRow>, m: Market, rule: Rule, cash: real, floor: real)
    returns (out: seq<Sized>, skipped: seq<Skipped>)
    requires MarketOK(m)
    ensures out == Generate(gaps, m, rule, cash, floor).out
    ensures skipped == Generate(gaps, m, rule, cash, floor).skipped
  {
    hide BuyChoice, SellChoice, Order, BuyBudget, Budget, Worth;
    out, skipped := [], [];
    var remaining := cash;
    var j := 0;
    while j < |gaps|
      invariant j <= |gaps|
      invariant Tally(out, skipped, remaining) == Generate(gaps[..j], m, rule, cash, floor)
    {
      assert gaps[..j + 1][..j] == gaps[..j];
      var g := gaps[j];
      j := j + 1;
      if g.band == InBand {
        continue;
      }
      if g.ticker !in m.nearby {
        skipped := skipped + [Skipped(g.ticker, if g.gapPct > 0.0 then Buy else Sell, NoNearby)];
        continue;
      }
      if g.gapPct > 0.0 {
        var choice := BuyChoice(m.nearby[g.ticker], ScoredFor(m, g.ticker), m.maxPct);
        if choice.Refused? {
          skipped := skipped + [Skipped(g.ticker, Buy, choice.reason)];
          continue;
        }
        var qty := if choice.anchor.price <= 0.0 then 0 else Trunc(BuyBudget(g, rule) / choice.anchor.price);
        var cost := Worth(qty as real, choice.anchor.price);
        if qty < 1 {
          skipped := skipped + [Skipped(g.ticker, Buy, SubShare)];
        } else if cost > remaining - floor {
          skipped := skipped + [Skipped(g.ticker, Buy, CashFloor)];
        } else {
          remaining := remaining - cost;
          out := out + [Order(g.ticker, Buy, qty, choice.anchor, None, 1.0, Regular)];
        }
      } else if g.band == Over {
        var choice := SellChoice(m.nearby[g.ticker], ScoredFor(m, g.ticker), m.maxPct);
        if choice.Refused? {
          skipped := skipped + [Skipped(g.ticker, Sell, choice.reason)];
          continue;
        }
        var qty := if choice.anchor.price <= 0.0 then 0 else Trunc(Budget(g, rule) / choice.anchor.price);
        if qty < 1 {
          skipped := skipped + [Skipped(g.ticker, Sell, SubShare)];
        } else {
          out := out + [Order(g.ticker, Sell, qty, choice.anchor, None, 1.0, Regular)];
        }
      }
    }
    assert gaps[..j] == gaps;
  }

  // ---- Top-ups ------------------------------------------------------------------------------------

  // Fear & Greed first, VIX when it is missing, neutral when both are.
  function TopupFraction(vix: Option<real>, fearGreed: Option<int>): real {
    if fearGreed.Some? then
      (if fearGreed.value <= 25 then 1.0 else if fearGreed.value <= 45 then 0.75 else if fearGreed.value <= 55 then 0.5
          else 0.25)
    else if vix.Some? then
      (if vix.value >= 30.0 then 1.0 else if vix.value >= 20.0 then 0.75 else 0.5)
    else 0.5
  }

  datatype TopupPlan = TopupPlan(bandHigh: map<Ticker, real>, taken: set<Ticker>, fraction: real, equity: real,
      floor: real)

  function MinInt(x: int, y: int): int {
    if x < y then x else y
  }

  function MaxInt(x: int, y: int): int {
    if x < y then y else x
  }

  // Dollars between the holding and the band ceiling.
  function Headroom(g: GapRow, bandHigh: real, equity: real): real {
    (bandHigh - g.currentPct) / 100.0 * equity
  }

  // Whole shares that keep the holding at or under the band ceiling at this price.
  function BandCap(g: GapRow, bandHigh: real, equity: real, price: real): int
    requires price > 0.0
  {
    Trunc(Headroom(g, bandHigh, equity) / price)
  }

  function BaseShares(g: GapRow, price: real): int
    requires price > 0.0
  {
    MaxInt(1, Trunc(g.gapUsd / price))
  }

  function Effective(anchor: Anchor, fraction: real): real {
    Worth(fraction, if anchor.confidence.Some? then anchor.confidence.value else 0.5)
  }

  // Shares of one top-up; less than 1 when it is dropped.
  function TopupQty(g: GapRow, anchor: Anchor, bandHigh: real, p: TopupPlan, cash: real): int
    requires anchor.price > 0.0
  {
    var cap := BandCap(g, bandHigh, p.equity, anchor.price);
    if cap < 1 then 0
    else
      var wanted := MaxInt(1, Trunc(Worth(BaseShares(g, anchor.price) as real, Effective(anchor, p.fraction))));
      MinInt(MinInt(wanted, cap), Trunc((cash - p.floor) / anchor.price))
  }

  predicate Eligible(g: GapRow, m: Market, p: TopupPlan) {
    g.gapPct > 0.0 && g.ticker !in p.taken && g.ticker in p.bandHigh && g.ticker in m.nearby
  }

  lemma ChosenPriceIsPositive(nb: Nearby, scored: seq<Level>, maxPct: real)
    requires Usable(nb) && Positive(scored)
    ensures BuyChoice(nb, scored, maxPct).Chosen? ==> BuyChoice(nb, scored, maxPct).anchor.price > 0.0
    ensures SellChoice(nb, scored, maxPct).Chosen? ==> SellChoice(nb, scored, maxPct).anchor.price > 0.0
  {
    hide BuyChoice, SellChoice;
    ChoicesAreLevels(nb, scored, maxPct);
  }

  // The cash left and the top-ups drafted so far.
  datatype Topups = Topups(out: seq<Sized>, cash: real)

  function TopupStep(t: Topups, g: GapRow, m: Market, p: TopupPlan): Topups
    requires MarketOK(m)
  {
    if !Eligible(g, m, p) then t
    else
      match BuyChoice(m.nearby[g.ticker], ScoredFor(m, g.ticker), m.maxPct)
      case Refused(_) => t
      case Chosen(anchor) =>
        ChosenPriceIsPositive(m.nearby[g.ticker], ScoredFor(m, g.ticker), m.maxPct);
        var qty := TopupQty(g, anchor, p.bandHigh[g.ticker], p, t.cash);
        if qty < 1 then t
        else
          Topups(t.out + [Order(g.ticker, Buy, qty, anchor, Some(BaseShares(g, anchor.price) as real),
                                Round2(Effective(anchor, p.fraction)), Topup)],
                 t.cash - Worth(qty as real, anchor.price))
  }

  function GenerateTopups(gaps: seq<GapRow>, m: Market, p: TopupPlan, cash: real): Topups
    requires MarketOK(m)
  {
    if gaps == [] || p.equity <= 0.0 then Topups([], cash)
    else TopupStep(GenerateTopups(gaps[..|gaps| - 1], m, p, cash), gaps[|gaps| - 1], m, p)
  }

  method GenerateTopupSuggestions(gaps: seq<GapRow>, m: Market, p: TopupPlan, cash: real) returns (out: seq<Sized>)
    requires MarketOK(m)
    ensures out == GenerateTopups(gaps, m, p, cash).out
  {
    hide BuyChoice, Order, TopupQty, Effective, Worth, BaseShares;
    out := [];
    if p.equity <= 0.0 {
      return;
    }
    var remaining := cash;
    var j := 0;
    while j < |gaps|
      invariant j <= |gaps|
      invariant Topups(out, remaining) == GenerateTopups(gaps[..j], m, p, cash)
    {
      assert gaps[..j + 1][..j] == gaps[..j];
      var g := gaps[j];
      j := j + 1;
      if Eligible(g, m, p) {
        var choice := BuyChoice(m.nearby[g.ticker], ScoredFor(m, g.ticker), m.maxPct);
        if choice.Chosen? {
          var anchor := choice.anchor;
          ChosenPriceIsPositive(m.nearby[g.ticker], ScoredFor(m, g.ticker), m.maxPct);
          var qty := TopupQty(g, anchor, p.bandHigh[g.ticker], p, remaining);
          if qty >= 1 {
            remaining := remaining - Worth(qty as real, anchor.price);
            out := out + [Order(g.ticker, Buy, qty, anchor, Some(BaseShares(g, anchor.price) as real),
                                Round2(Effective(anchor, p.fraction)), Topup)];
          }
        }
      }
    }
    assert gaps[..j] == gaps;
  }

  // ---- The week's drafts -------------------------------------------------------------------------------

  function IsBuy(x: Sized): bool {
    x.draft.side == Buy
  }

  // What the buys cost at the anchor prices, at the limit prices, and their shares.
  function AnchorCost(out: seq<Sized>): real {
    if out == [] then 0.0
    else AnchorCost(out[..|out| - 1]) + if IsBuy(out[|out| - 1]) then
        Worth(out[|out| - 1].draft.qty, out[|out| - 1].price) else 0.0
  }

  function LimitCost(out: seq<Sized>): real {
    if out == [] then 0.0
    else LimitCost(out[..|out| - 1]) + if IsBuy(out[|out| - 1]) then
        Worth(out[|out| - 1].draft.qty, out[|out| - 1].draft.limit) else 0.0
  }

  function BuyShares(out: seq<Sized>): real {
    if out == [] then 0.0 else BuyShares(out[..|out| - 1]) + if IsBuy(out[|out| - 1]) then out[|out| - 1].draft.qty
        else 0.0
  }

  function BuyTickers(out: seq<Sized>): set<Ticker> {
    set i | 0 <= i < |out| && IsBuy(out[i]) :: out[i].draft.ticker
  }

  const HALF_THE_GAP := Rule(0.5, None)
  const CASH_FLOOR := 100.0

  function PlanFor(regular: seq<Sized>, bandHigh: map<Ticker, real>, fraction: real, equity: real): TopupPlan {
    TopupPlan(bandHigh, BuyTickers(regular), fraction, equity, CASH_FLOOR)
  }

  // Regular orders first; top-ups share what they leave, counted at their limit prices.
  method ComposeWeek(gaps: seq<GapRow>, m: Market, bandHigh: map<Ticker, real>, cash: real, equity: real,
                     vix: Option<real>, fearGreed: Option<int>)
    returns (regular: seq<Sized>, topups: seq<Sized>, skipped: seq<Skipped>)
    requires MarketOK(m)
    ensures regular == Generate(gaps, m, HALF_THE_GAP, cash, CASH_FLOOR).out
    ensures skipped == Generate(gaps, m, HALF_THE_GAP, cash, CASH_FLOOR).skipped
    ensures topups == GenerateTopups(gaps, m, PlanFor(regular, bandHigh, TopupFraction(vix, fearGreed), equity),
                                     cash - LimitCost(regular)).out
  {
    hide Generate, GenerateTopups;
    regular, skipped := GenerateSuggestions(gaps, m, HALF_THE_GAP, cash, CASH_FLOOR);
    var spent := 0.0;
    var i := 0;
    while i < |regular|
      invariant i <= |regular| && spent == LimitCost(regular[..i])
    {
      assert regular[..i + 1][..i] == regular[..i];
      if IsBuy(regular[i]) {
        spent := spent + Worth(regular[i].draft.qty, regular[i].draft.limit);
      }
      i := i + 1;
    }
    assert regular[..i] == regular;
    topups := GenerateTopupSuggestions(gaps, m, PlanFor(regular, bandHigh, TopupFraction(vix, fearGreed), equity),
        cash - spent);
  }
}
