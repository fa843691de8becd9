// What survives the review: rationales stay on their orders, prices stay on computed levels.
module ReviewFacts {
  import opened Options
  import opened Trading
  import opened Levels
  import opened Storage
  import opened Sizing
  import opened SizingFacts
  import opened Review

  // ---- One order per ticker and side ---------------------------------------------------------------

  ghost predicate DistinctKeys(ds: seq<Draft>) {
    forall i, j :: 0 <= i < j < |ds| ==> ds[i].ticker != ds[j].ticker || ds[i].side != ds[j].side
  }

  predicate HasRow(gaps: seq<GapRow>, t: Ticker) {
    exists i :: 0 <= i < |gaps| && gaps[i].ticker == t
  }

  // Orders drafted from distinct rows, each of its row's ticker.
  ghost predicate OnePerRow(out: seq<Sized>, gaps: seq<GapRow>) {
    && (forall i, j :: 0 <= i < j < |out| ==> out[i].draft.ticker != out[j].draft.ticker)
    && (forall i :: 0 <= i < |out| ==> HasRow(gaps, out[i].draft.ticker))
  }

  lemma {:induction false} RegularOnePerRow(gaps: seq<GapRow>, m: Market, rule: Rule, cash: real, floor: real)
    requires MarketOK(m) && DistinctTickers(gaps)
    ensures OnePerRow(Generate(gaps, m, rule, cash, floor).out, gaps)
  {
    hide Step;
    if gaps != [] {
      var n := |gaps| - 1;
      RegularOnePerRow(gaps[..n], m, rule, cash, floor);
      var t := Generate(gaps[..n], m, rule, cash, floor);
      var x, _ := StepAddsOne(t, gaps[n], m, rule, floor);
    }
  }

  lemma {:induction false} TopupsOnePerRow(gaps: seq<GapRow>, m: Market, p: TopupPlan, cash: real)
    requires MarketOK(m) && DistinctTickers(gaps)
    ensures var out := GenerateTopups(gaps, m, p, cash).out;
            && OnePerRow(out, gaps)
            && forall i :: 0 <= i < |out| ==> out[i].draft.side == Buy && out[i].draft.ticker !in p.taken
  {
    hide BuyChoice, TopupQty, BaseShares, Effective, Worth;
    if gaps != [] && p.equity > 0.0 {
      var n := |gaps| - 1;
      TopupsOnePerRow(gaps[..n], m, p, cash);
      var t, r := GenerateTopups(gaps[..n], m, p, cash), GenerateTopups(gaps, m, p, cash);
      if |r.out| > |t.out| {
        assert r.out == t.out + [r.out[|t.out|]];
      }
    }
  }

  function WeekDrafts(gaps: seq<GapRow>, m: Market, bandHigh: map<Ticker, real>, fraction: real, cash: real,
                      equity: real): seq<Draft>
    requires MarketOK(m)
  {
    var regular := Generate(gaps, m, HALF_THE_GAP, cash, CASH_FLOOR).out;
    Drafts(regular) + Drafts(GenerateTopups(gaps, m, PlanFor(regular, bandHigh, fraction, equity),
        cash - LimitCost(regular)).out)
  }

  // No two drafts of the week share a ticker and side.
  lemma WeekIsDistinct(gaps: seq<GapRow>, m: Market, bandHigh: map<Ticker, real>, fraction: real, cash: real,
                       equity: real)
    requires MarketOK(m) && DistinctTickers(gaps)
    ensures DistinctKeys(WeekDrafts(gaps, m, bandHigh, fraction, cash, equity))
  {
    hide Generate, GenerateTopups, LimitCost;
    var regular := Generate(gaps, m, HALF_THE_GAP, cash, CASH_FLOOR).out;
    var p := PlanFor(regular, bandHigh, fraction, equity);
    RegularOnePerRow(gaps, m, HALF_THE_GAP, cash, CASH_FLOOR);
    TopupsOnePerRow(gaps, m, p, cash - LimitCost(regular));
    assert forall i :: 0 <= i < |regular| && IsBuy(regular[i]) ==> regular[i].draft.ticker in p.taken;
  }

  // ---- Every stage drops and edits, and never moves a rationale to another order -------------------

  // ys is what is left of xs, in order: terms may change, the key and the rationale may not.
  ghost predicate Thinned(xs: seq<Noted>, ys: seq<Noted>, from: seq<int>) {
    && |from| == |ys|
    && (forall k :: 0 <= k < |ys| ==> 0 <= from[k] < |xs| && SameOrder(xs[from[k]], ys[k]))
    && (forall k, l :: 0 <= k < l < |ys| ==> from[k] < from[l])
  }

  predicate SameOrder(x: Noted, y: Noted) {
    y.note == x.note && y.draft.ticker == x.draft.ticker && y.draft.side == x.draft.side && y.draft.kind == x.draft.kind
  }

  lemma {:induction false} AdjustThins(xs: seq<Noted>, c: Context, st: Settings, narrative: map<int, Narrative>)
    returns (from: seq<int>)
    ensures Thinned(xs, AdjustAll(xs, c, st, narrative), from)
  {
    hide NewLevel, SizeFactor, Worth, Trunc, Floor2, Ceil2;
    from := [];
    if xs != [] {
      var n := |xs| - 1;
      from := AdjustThins(xs[..n], c, st, narrative);
      if AdjustOne(xs[n].draft, c, st, At(narrative, n)).Some? {
        from := from + [n];
      }
    }
  }

  lemma {:induction false} ReviseThins(xs: seq<Noted>, verdicts: map<int, Verdict>, c: Context) returns (from: seq<int>)
    ensures Thinned(xs, ReviseAll(xs, verdicts, c), from)
  {
    hide ReviseOne;
    from := [];
    if xs != [] {
      var n := |xs| - 1;
      from := ReviseThins(xs[..n], verdicts, c);
      if ReviseOne(xs[n].draft, At(verdicts, n), c).Some? {
        ReviseOneKeepsKey(xs[n].draft, At(verdicts, n), c);
        from := from + [n];
      }
    }
  }

  lemma ReviseOneKeepsKey(d: Draft, v: Option<Verdict>, c: Context)
    requires ReviseOne(d, v, c).Some?
    ensures var e := ReviseOne(d, v, c).value; e.ticker == d.ticker && e.side == d.side && e.kind == d.kind
  {
    hide FirstLevel;
  }

  ghost predicate Paired(xs: seq<Noted>, fits: (string, Ticker, Side) -> bool) {
    forall i :: 0 <= i < |xs| && xs[i].note.Some? ==> fits(xs[i].note.value, xs[i].draft.ticker, xs[i].draft.side)
  }

  ghost predicate NotedKeys(xs: seq<Noted>) {
    forall i, j :: 0 <= i < j < |xs| ==>
      xs[i].draft.ticker != xs[j].draft.ticker || xs[i].draft.side != xs[j].draft.side
  }

  lemma ThinningKeeps(xs: seq<Noted>, ys: seq<Noted>, from: seq<int>, fits: (string, Ticker, Side) -> bool)
    requires Thinned(xs, ys, from)
    ensures Paired(xs, fits) ==> Paired(ys, fits)
    ensures NotedKeys(xs) ==> NotedKeys(ys)
  {
    assert forall k :: 0 <= k < |ys| ==> SameOrder(xs[from[k]], ys[k]);
  }

  // The rationales written for the adjusted drafts are about those drafts.
  ghost predicate WrittenFor(xs: seq<Noted>, written: map<int, string>, fits: (string, Ticker, Side) -> bool) {
    forall i :: 0 <= i < |xs| && i in written ==> fits(Cut(written[i]), xs[i].draft.ticker, xs[i].draft.side)
  }

  // If every rationale starts out on an order it fits, every one ends on an order it fits,
  // whatever was dropped, resized, moved or rejected on the way.
  lemma ReviewKeepsPairs(xs: seq<Noted>, c: Context, st: Settings, narrative: map<int, Narrative>,
                         written: map<int, string>, verdicts: map<int, Verdict>, fits: (string, Ticker, Side) -> bool)
    requires WrittenFor(AdjustAll(xs, c, st, narrative), written, fits)
    ensures Paired(xs, fits) ==> Paired(Reviewed(xs, c, st, narrative, written, verdicts), fits)
    ensures NotedKeys(xs) ==> NotedKeys(Reviewed(xs, c, st, narrative, written, verdicts))
  {
    hide AdjustAll, ReviseAll, Thinned;
    var adjusted := AdjustAll(xs, c, st, narrative);
    var from1 := AdjustThins(xs, c, st, narrative);
    ThinningKeeps(xs, adjusted, from1, fits);
    var reasoned := ReasonAll(adjusted, written);
    var from2 := ReviseThins(reasoned, verdicts, c);
    ThinningKeeps(reasoned, ReviseAll(reasoned, verdicts, c), from2, fits);
  }

  // ---- Storing the finals -------------------------------------------------------------------------------

  ghost predicate Fitting(sugs: seq<Suggestion>, fits: (string, Ticker, Side) -> bool) {
    forall i :: 0 <= i < |sugs| && sugs[i].rationale.Some? ==>
      fits(sugs[i].rationale.value, sugs[i].order.ticker, sugs[i].order.side)
  }

  lemma {:induction false} StoreKeepsFitting(sugs: seq<Suggestion>, a: Account, week: int, ds: seq<Draft>, j: nat,
                                             expires: Time, now: Time, ids: seq<nat>,
                                             fits: (string, Ticker, Side) -> bool)
    requires Fitting(sugs, fits) && j <= |ds|
    ensures Fitting(StoreFrom(sugs, a, week, ds, j, expires, now, ids).0, fits)
    decreases |ds| - j
  {
    if j < |ds| {
      StoreKeepsFitting(Store(sugs, a, week, ds[j], expires, now), a, week, ds, j + 1, expires, now,
                        ids + [Slot(sugs, a, week, ds[j])], fits);
    }
  }

  // Each draft's id names a row of its slot, and a pending one holds the draft itself.
  predicate Holds(sug: Suggestion, a: Account, week: int, d: Draft) {
    SameSlot(sug, a, week, d) && (sug.status == Pending ==> sug.order == d)
  }

  ghost predicate Aligned(sugs: seq<Suggestion>, a: Account, week: int, ds: seq<Draft>, ids: seq<nat>) {
    && |ids| <= |ds|
    && forall i :: 0 <= i < |ids| ==> Known(sugs, ids[i]) && Holds(sugs[ids[i] - 1], a, week, ds[i])
  }

  lemma {:induction false} StoreAligns(sugs: seq<Suggestion>, a: Account, week: int, ds: seq<Draft>, j: nat,
                                       expires: Time, now: Time, ids: seq<nat>)
    requires j == |ids| <= |ds| && DistinctKeys(ds)
    requires Aligned(sugs, a, week, ds, ids)
    ensures var (ys, all) := StoreFrom(sugs, a, week, ds, j, expires, now, ids);
            |all| == |ds| && Aligned(ys, a, week, ds, all)
    decreases |ds| - j
  {
    if j < |ds| {
      var n := Slot(sugs, a, week, ds[j]);
      var ys := Store(sugs, a, week, ds[j], expires, now);
      forall i | 0 <= i < |ids| + 1
        ensures Known(ys, (ids + [n])[i]) && Holds(ys[(ids + [n])[i] - 1], a, week, ds[i])
      {
        if i < |ids| {
          assert Known(sugs, ids[i]) && Holds(sugs[ids[i] - 1], a, week, ds[i]);
          assert ids[i] != n;
        }
      }
      StoreAligns(ys, a, week, ds, j + 1, expires, now, ids + [n]);
    }
  }

  // Rows that are not named keep what they have.
  lemma {:induction false} AnnotateOther(sugs: seq<Suggestion>, ids: seq<nat>, notes: map<int, string>, j: nat, i: nat)
    requires j <= |ids| && i < |sugs| && forall k :: j <= k < |ids| ==> ids[k] != i + 1
    ensures Annotate(sugs, ids, notes, j)[i] == sugs[i]
    decreases |ids| - j
  {
    if j < |ids| {
      AnnotateOther(Noting(sugs, ids, notes, j), ids, notes, j + 1, i);
    }
  }

  // A pending row named by one position gets the rationale of that position.
  lemma {:induction false} AnnotateGives(sugs: seq<Suggestion>, ids: seq<nat>, notes: map<int, string>, j: nat, k: nat)
    requires j <= k < |ids| && Known(sugs, ids[k])
    requires forall i, l :: 0 <= i < l < |ids| ==> ids[i] != ids[l]
    ensures Annotate(sugs, ids, notes, j)[ids[k] - 1] == Noting(sugs, ids, notes, k)[ids[k] - 1]
    decreases |ids| - j
  {
    var next := Noting(sugs, ids, notes, j);
    if j < k {
      AnnotateGives(next, ids, notes, j + 1, k);
      assert next[ids[k] - 1] == sugs[ids[k] - 1];
    } else {
      AnnotateOther(next, ids, notes, j + 1, ids[k] - 1);
    }
  }

  // The returned ids are distinct and in step with the finals; a final whose row is still
  // pending is stored as it is, with the rationale given for it.
  lemma FinalsAreStored(sugs: seq<Suggestion>, a: Account, week: int, ds: seq<Draft>, notes: map<int, string>,
                        expires: Time, now: Time)
    requires DistinctKeys(ds)
    ensures var (ys, ids) := Finalize(sugs, a, week, ds, notes, expires, now);
            && |ids| == |ds|
            && (forall i, j :: 0 <= i < j < |ids| ==> ids[i] != ids[j])
            && Aligned(ys, a, week, ds, ids)
            && (forall i :: 0 <= i < |ids| && ys[ids[i] - 1].status == Pending && i in notes && notes[i] != "" ==>
                  ys[ids[i] - 1].rationale == Some(notes[i]))
  {
    hide StoreFrom, Annotate;
    StoreAligns(sugs, a, week, ds, 0, expires, now, []);
    var (stored, ids) := StoreAll(sugs, a, week, ds, expires, now);
    forall k | 0 <= k < |ids|
      ensures Annotate(stored, ids, notes, 0)[ids[k] - 1] == Noting(stored, ids, notes, k)[ids[k] - 1]
    {
      AnnotateGives(stored, ids, notes, 0, k);
    }
  }

  // Every stored rationale fits its row, before and after the finals are stored.
  lemma StoringKeepsFitting(sugs: seq<Suggestion>, a: Account, week: int, ds: seq<Draft>, notes: map<int, string>,
                            expires: Time, now: Time, fits: (string, Ticker, Side) -> bool)
    requires DistinctKeys(ds) && Fitting(sugs, fits) && Paired(Attach(ds, notes), fits)
    ensures Fitting(Finalize(sugs, a, week, ds, notes, expires, now).0, fits)
  {
    hide StoreFrom, Annotate;
    StoreKeepsFitting(sugs, a, week, ds, 0, expires, now, [], fits);
    StoreAligns(sugs, a, week, ds, 0, expires, now, []);
    var (stored, ids) := StoreAll(sugs, a, week, ds, expires, now);
    var ys := Annotate(stored, ids, notes, 0);
    forall i | 0 <= i < |ys| && ys[i].rationale.Some?
      ensures fits(ys[i].rationale.value, ys[i].order.ticker, ys[i].order.side)
    {
      if k :| 0 <= k < |ids| && ids[k] == i + 1 {
        assert Holds(stored[ids[k] - 1], a, week, ds[k]);
        assert Attach(ds, notes)[k] == Noted(ds[k], At(notes, k));
        AnnotateGives(stored, ids, notes, 0, k);
      } else {
        AnnotateOther(stored, ids, notes, 0, i);
      }
    }
  }

  lemma {:induction false} CacheFits(sugs: seq<Suggestion>, a: Account, week: int, fits: (string, Ticker, Side) -> bool)
    requires Fitting(sugs, fits)
    ensures var cached := Cached(sugs, a, week); forall key :: key in cached ==> fits(cached[key], key.0, key.1)
  {
    if sugs != [] {
      CacheFits(sugs[..|sugs| - 1], a, week, fits);
    }
  }

  // What the review starts from: the week's drafts with the rationales cached for them.
  function Start(sugs: seq<Suggestion>, a: Account, week: int, ds: seq<Draft>): seq<Noted> {
    Attach(ds, FromCache(ds, Cached(sugs, a, week)))
  }

  lemma StartIsPaired(sugs: seq<Suggestion>, a: Account, week: int, ds: seq<Draft>,
                      fits: (string, Ticker, Side) -> bool)
    requires Fitting(sugs, fits)
    ensures Paired(Start(sugs, a, week, ds), fits)
    ensures DistinctKeys(ds) ==> NotedKeys(Start(sugs, a, week, ds))
  {
    hide Cached;
    CacheFits(sugs, a, week, fits);
  }

  lemma AttachedKeys(ds: seq<Draft>, notes: map<int, string>)
    requires NotedKeys(Attach(ds, notes))
    ensures DistinctKeys(ds)
  {
    var xs := Attach(ds, notes);
    assert forall i :: 0 <= i < |ds| ==> xs[i].draft == ds[i];
  }

  // From one stored week to the next: if every stored rationale fits its row and the newly
  // written ones fit the drafts they were written for, then after the cached rationales have
  // been looked up, the drafts adjusted and criticised and the finals stored, every stored
  // rationale still fits its row.
  lemma RationalesStayOnTheirOrders(sugs: seq<Suggestion>, a: Account, week: int, ds: seq<Draft>, c: Context,
                                    st: Settings, narrative: map<int, Narrative>, written: map<int, string>,
                                    verdicts: map<int, Verdict>, finals: seq<Draft>, notes: map<int, string>,
                                    expires: Time, now: Time, fits: (string, Ticker, Side) -> bool)
    requires DistinctKeys(ds) && Fitting(sugs, fits)
    requires WrittenFor(AdjustAll(Start(sugs, a, week, ds), c, st, narrative), written, fits)
    requires Attach(finals, notes) == Reviewed(Start(sugs, a, week, ds), c, st, narrative, written, verdicts)
    ensures DistinctKeys(finals)
    ensures Fitting(Finalize(sugs, a, week, finals, notes, expires, now).0, fits)
  {
    hide Finalize, Reviewed, AdjustAll, Start, Attach, Paired, NotedKeys, DistinctKeys, Fitting, WrittenFor;
    StartIsPaired(sugs, a, week, ds, fits);
    ReviewKeepsPairs(Start(sugs, a, week, ds), c, st, narrative, written, verdicts, fits);
    AttachedKeys(finals, notes);
    StoringKeepsFitting(sugs, a, week, finals, notes, expires, now, fits);
  }

  // ---- No invented price ---------------------------------------------------------------------------------

  // A whole share or more, limited within a cent of a computed level of the ticker.
  ghost predicate OnALevel(d: Draft, known: map<Ticker, seq<Level>>) {
    && d.qty >= 1.0
    && d.ticker in known
    && exists lv :: lv in known[d.ticker] && Abs(d.limit - lv.price) <= 0.01
  }

  // Every level computed for the ticker, at either stage.
  function AllLevels(m: Market, c: Context): map<Ticker, seq<Level>> {
    map t | t in m.nearby :: m.nearby[t].supports + m.nearby[t].resistances + ScoredFor(m, t) + LevelsOf(c, t)
  }

  lemma SizedOnALevel(x: Sized, m: Market, c: Context)
    requires MarketOK(m) && x.draft.ticker in m.nearby && x.draft.limit == Round2(x.price) && x.draft.qty >= 1.0
    requires var choice := if x.draft.side == Buy then BuyChoice(m.nearby[x.draft.ticker],
             ScoredFor(m, x.draft.ticker), m.maxPct)
                           else SellChoice(m.nearby[x.draft.ticker], ScoredFor(m, x.draft.ticker), m.maxPct);
             choice.Chosen? && choice.anchor.price == x.price
    ensures OnALevel(x.draft, AllLevels(m, c))
    ensures Passive(x.draft, m.nearby[x.draft.ticker].current)
  {
    hide BuyChoice, SellChoice, Round2;
    var t := x.draft.ticker;
    ChoicesAreLevels(m.nearby[t], ScoredFor(m, t), m.maxPct);
    RoundingError(x.price);
    var lv :| (lv in ScoredFor(m, t) || lv in m.nearby[t].supports || lv in m.nearby[t].resistances)
        && lv.price == x.price;
    assert lv in AllLevels(m, c)[t];
  }

  // A buy limit at or under the close, a sell limit at or over it, up to rounding.
  predicate PassiveAt(side: Side, limit: real, close: real) {
    if side == Buy then limit <= close + 0.005 else limit >= close - 0.005
  }

  predicate Passive(d: Draft, close: real) {
    PassiveAt(d.side, d.limit, close)
  }

  lemma WeekIsOnLevels(gaps: seq<GapRow>, m: Market, bandHigh: map<Ticker, real>, fraction: real, cash: real,
                       equity: real, c: Context)
    requires MarketOK(m) && 0.0 <= fraction <= 1.0
    requires UnitScores(m)
    ensures forall d :: d in WeekDrafts(gaps, m, bandHigh, fraction, cash, equity) ==>
              OnALevel(d, AllLevels(m, c)) && Passive(d, m.nearby[d.ticker].current)
  {
    hide Generate, GenerateTopups, LimitCost, AnchorCost, OnALevel, Passive, BuyChoice, SellChoice, Round2, BuyBudget,
        Budget, AllLevels;
    var regular := Generate(gaps, m, HALF_THE_GAP, cash, CASH_FLOOR).out;
    var p := PlanFor(regular, bandHigh, fraction, equity);
    OrdersAreTight(gaps, m, HALF_THE_GAP, cash, CASH_FLOOR);
    TopupsAreModest(gaps, m, p, cash - LimitCost(regular));
    var topups := GenerateTopups(gaps, m, p, cash - LimitCost(regular)).out;
    forall x: Sized | x in regular + topups
      ensures x.draft.ticker in m.nearby
      ensures OnALevel(x.draft, AllLevels(m, c)) && Passive(x.draft, m.nearby[x.draft.ticker].current)
    {
      if x in regular {
        var g :| g in gaps && Tight(x, g, m, HALF_THE_GAP);
      } else {
        var g :| g in gaps && Modest(x, g, m, p, cash - LimitCost(regular));
      }
      SizedOnALevel(x, m, c);
    }
    forall d | d in Drafts(regular) + Drafts(topups)
      ensures exists x: Sized :: x in regular + topups && x.draft == d
    {
      var ds := Drafts(regular) + Drafts(topups);
      var i :| 0 <= i < |ds| && ds[i] == d;
      assert (regular + topups)[i] in regular + topups;
    }
  }

  // A support under a buy's limit, a resistance over a sell's.
  predicate FurtherOut(lv: Level, d: Draft) {
    match d.side
    case Buy => lv.levelType == Support && lv.price < d.limit
    case Sell => lv.levelType == Resistance && lv.price > d.limit
  }

  // A level of the name asked for and the kind for the side; if the close is known, on the
  // passive side of it and no more than 15% away.
  predicate Follows(lv: Level, anchor: string, side: Side, close: real) {
    && lv.anchor == anchor && (side == Buy <==> lv.levelType == Support)
    && (close > 0.0 ==>
          match side
          case Buy => 0.85 * close <= lv.price <= close
          case Sell => close <= lv.price <= 1.15 * close)
  }

  lemma LevelsAsked(lv: Level, d: Draft, anchor: string, close: real)
    ensures Deeper(lv, d) <==> FurtherOut(lv, d)
    ensures Preferable(lv, anchor, d.side, close) <==> Follows(lv, anchor, d.side, close)
  {
    if close > 0.0 {
      RatioWithin(lv.price, close);
    }
  }

  lemma RatioWithin(price: real, close: real)
    requires close > 0.0
    ensures Abs(price / close - 1.0) <= REANCHOR_MAX_DISTANCE <==> 0.85 * close <= price <= 1.15 * close
  {
    var r := price / close;
    Divide(price, close);
    WorthIs(0.85, close);
    WorthIs(1.15, close);
    hide Worth;
    WorthOrder(0.85, r, close);
    WorthOrder(r, 0.85, close);
    WorthOrder(1.15, r, close);
    WorthOrder(r, 1.15, close);
  }

  predicate CanGoDeeper(d: Draft, c: Context) {
    exists lv :: lv in LevelsOf(c, d.ticker) && FurtherOut(lv, d)
  }

  predicate CanFollow(d: Draft, c: Context, anchor: string) {
    exists lv :: lv in LevelsOf(c, d.ticker) && Follows(lv, anchor, d.side, CloseOf(c, d.ticker))
  }

  function CloseOf(c: Context, t: Ticker): real {
    if t in c.closes then c.closes[t] else 0.0
  }

  // Before earnings a draft goes to the nearest deeper level there is; only otherwise does it
  // follow the narrative, to a level of the preferred name, if one is on the right side and near.
  lemma EarningsComeFirst(d: Draft, c: Context, st: Settings, n: Option<Narrative>)
    ensures var r := NewLevel(d, c, st, n);
            if d.ticker in c.earnings && st.reanchor && CanGoDeeper(d, c) then
              && r.Some? && r.value in LevelsOf(c, d.ticker) && FurtherOut(r.value, d)
              && forall lv :: lv in LevelsOf(c, d.ticker) && FurtherOut(lv, d) ==>
                 if d.side == Buy then lv.price <= r.value.price else r.value.price <= lv.price
            else
              && (r.Some? <==> n.Some? && n.value.prefer.Some? && CanFollow(d, c, n.value.prefer.value))
              && (r.Some? ==> r.value in LevelsOf(c, d.ticker)
                              && Follows(r.value, n.value.prefer.value, d.side, CloseOf(c, d.ticker)))
  {
    var levels := LevelsOf(c, d.ticker);
    forall lv: Level, anchor: string
      ensures Deeper(lv, d) <==> FurtherOut(lv, d)
      ensures Preferable(lv, anchor, d.side, CloseOf(c, d.ticker)) <==>
                Follows(lv, anchor, d.side, CloseOf(c, d.ticker))
    {
      LevelsAsked(lv, d, anchor, CloseOf(c, d.ticker));
    }
    hide Preferable, Follows;
    var i := DeeperAnchor(levels, d, |levels|);
    if i < |levels| {
      assert Deeper(levels[i], d);
    }
    if n.Some? && n.value.prefer.Some? {
      var j := FirstLevel(levels, (lv: Level) => Preferable(lv, n.value.prefer.value, d.side, CloseOf(c, d.ticker)));
      assert j < |levels| ==> Preferable(levels[j], n.value.prefer.value, d.side, CloseOf(c, d.ticker));
    }
  }

  // A narrative scales an order within the configured bounds, earnings once more.
  lemma ScaledWithinBounds(d: Draft, c: Context, st: Settings, n: Option<Narrative>)
    requires 0.0 <= st.earningsFactor && st.sizeMin <= 1.0 <= st.sizeMax
    ensures var earnings := if d.ticker in c.earnings then st.earningsFactor else 1.0;
            Worth(earnings, st.sizeMin) <= SizeFactor(d, c, st, n) <= Worth(earnings, st.sizeMax)
  {
    var earnings := if d.ticker in c.earnings then st.earningsFactor else 1.0;
    var nf := if n.Some? then Clamp(n.value.multiplier, st.sizeMin, st.sizeMax) else 1.0;
    WorthAtMost(earnings, st.sizeMin, nf);
    WorthAtMost(earnings, nf, st.sizeMax);
  }

  // The narrative's multiplier as far as the bounds let it count; 1 without a narrative.
  function Multiplied(st: Settings, n: Option<Narrative>): real {
    match n
    case None => 1.0
    case Some(x) =>
      if x.multiplier < st.sizeMin || st.sizeMax < st.sizeMin then st.sizeMin
      else if x.multiplier > st.sizeMax then st.sizeMax
      else x.multiplier
  }

  // A regular draft's quantity is multiplied by the narrative's multiplier within its bounds,
  // and before earnings by the earnings factor, and cut to whole shares; below one share it is
  // dropped. The factor and the quantity before it are kept with the draft. A top-up passes.
  lemma QuantityIsMultiplied(d: Draft, c: Context, st: Settings, n: Option<Narrative>)
    ensures var factor := Worth(if d.ticker in c.earnings then st.earningsFactor else 1.0, Multiplied(st, n));
            var e := AdjustOne(d, c, st, n);
            && (d.kind == Topup ==> e == Some(d))
            && (d.kind == Regular ==>
                  && (e == None <==> Worth(d.qty, factor) < 1.0)
                  && (e.Some? ==>
                        && e.value.qty == e.value.qty.Floor as real
                        && e.value.qty <= Worth(d.qty, factor) < e.value.qty + 1.0
                        && e.value.baseQty == Some(d.qty) && e.value.sizeFactor == factor
                        && e.value == d.(qty := e.value.qty, baseQty := e.value.baseQty,
                                         sizeFactor := e.value.sizeFactor, limit := e.value.limit,
                                         anchor := e.value.anchor)))
  {
    hide Worth, NewLevel, Floor2, Ceil2;
  }

  // The limit of a regular draft stays, with its name, unless there is a level to move it to;
  // then it takes that level's name and its price, rounded to the cent away from the market.
  lemma LimitIsMoved(d: Draft, c: Context, st: Settings, n: Option<Narrative>)
    requires d.kind == Regular && AdjustOne(d, c, st, n).Some?
    ensures var e, lv := AdjustOne(d, c, st, n).value, NewLevel(d, c, st, n);
            if lv == None then e.limit == d.limit && e.anchor == d.anchor
            else
              && e.anchor == lv.value.anchor
              && WholeCents(e.limit)
              && if d.side == Buy then lv.value.price - 0.01 < e.limit <= lv.value.price
                 else lv.value.price <= e.limit < lv.value.price + 0.01
  {
    hide SizeFactor, Worth, NewLevel, Floor2, Ceil2;
    var lv := NewLevel(d, c, st, n);
    if lv.Some? {
      RoundingError(lv.value.price);
      RoundedToCents(lv.value.price);
    }
  }

  // The critic's verdict decides alone: a rejected draft goes, an approved one and one without a
  // verdict stay as they are, and changes that are not valid change nothing.
  lemma VerdictDecides(d: Draft, v: Option<Verdict>, c: Context)
    ensures ReviseOne(d, v, c) == None <==> v == Some(Reject)
    ensures v == None || v == Some(Approve) ==> ReviseOne(d, v, c) == Some(d)
    ensures v.Some? && v.value.Revise? ==>
              var changed := ApplyChanges(d, v.value.changes, LevelsOf(c, d.ticker));
              ReviseOne(d, v, c) == if changed.Some? then changed else Some(d)
  {
    hide ApplyChanges;
  }

  // The drafts listed as rejected are those with that verdict, in order.
  lemma {:induction false} RejectedAreListed(ds: seq<Draft>, verdicts: map<int, Verdict>) returns (from: seq<nat>)
    ensures var r := Rejections(ds, verdicts);
            && |from| == |r|
            && (forall k :: 0 <= k < |from| ==>
                  from[k] < |ds| && from[k] in verdicts && verdicts[from[k]] == Reject
                  && r[k] == Rejection(ds[from[k]].ticker, ds[from[k]].side))
            && (forall k, l :: 0 <= k < l < |from| ==> from[k] < from[l])
            && (forall i :: 0 <= i < |ds| && i in verdicts && verdicts[i] == Reject ==> i in from)
  {
    from := [];
    if ds != [] {
      var n := |ds| - 1;
      from := RejectedAreListed(ds[..n], verdicts);
      if n in verdicts && verdicts[n] == Reject {
        from := from + [n];
      }
    }
  }

  // A new rationale replaces the old one, cut to 600 characters, unless every draft has one
  // already. Drafts are left alone.
  lemma RationalesAreGiven(xs: seq<Noted>, written: map<int, string>, i: nat)
    requires i < |xs|
    ensures var y := ReasonAll(xs, written)[i];
            if (exists j :: 0 <= j < |xs| && xs[j].note == None) && i in written then
              && y.draft == xs[i].draft && y.note.Some?
              && y.note.value <= written[i]
              && |y.note.value| == if |written[i]| <= 600 then |written[i]| else 600
            else y == xs[i]
  {
  }

  // A stored suggestion of this account and week for the draft's share and side, with a rationale.
  predicate HasRationale(x: Suggestion, a: Account, week: int, d: Draft) {
    x.account == a && x.weekOf == week && x.order.ticker == d.ticker && x.order.side == d.side && x.rationale.Some?
  }

  // The last of the first n suggestions with such a rationale; |sugs| when there is none.
  function LastRationale(sugs: seq<Suggestion>, a: Account, week: int, d: Draft, n: nat): (r: nat)
    requires n <= |sugs|
    ensures r < n || r == |sugs|
    ensures r < |sugs| ==> HasRationale(sugs[r], a, week, d) && forall j :: r < j < n ==>
              !HasRationale(sugs[j], a, week, d)
    ensures r == |sugs| ==> forall j :: 0 <= j < n ==> !HasRationale(sugs[j], a, week, d)
  {
    if n == 0 then |sugs| else if HasRationale(sugs[n - 1], a, week, d) then n - 1
    else LastRationale(sugs, a, week, d, n - 1)
  }

  lemma {:induction false} CachedSoFar(sugs: seq<Suggestion>, a: Account, week: int, d: Draft, n: nat)
    requires n <= |sugs|
    ensures var cached, key, i := Cached(sugs[..n], a, week), (d.ticker, d.side), LastRationale(sugs, a, week, d, n);
            if i < |sugs| then key in cached && cached[key] == sugs[i].rationale.value else key !in cached
  {
    if n > 0 {
      CachedSoFar(sugs, a, week, d, n - 1);
      assert sugs[..n][..n - 1] == sugs[..n - 1];
    }
  }

  // The rationale cached for a share and side is the last stored one of that account and week;
  // there is none exactly when no suggestion has one.
  lemma LastIsCached(sugs: seq<Suggestion>, a: Account, week: int, d: Draft)
    ensures var cached, key, i := Cached(sugs, a, week), (d.ticker, d.side),
                LastRationale(sugs, a, week, d, |sugs|);
            if i < |sugs| then key in cached && cached[key] == sugs[i].rationale.value else key !in cached
  {
    CachedSoFar(sugs, a, week, d, |sugs|);
    assert sugs[..|sugs|] == sugs;
  }

  // The review starts with each draft carrying the rationale cached for its share and side.
  lemma StartCarriesTheCached(sugs: seq<Suggestion>, a: Account, week: int, ds: seq<Draft>, i: nat)
    requires i < |ds|
    ensures |Start(sugs, a, week, ds)| == |ds|
    ensures var cached, key := Cached(sugs, a, week), (ds[i].ticker, ds[i].side);
            Start(sugs, a, week, ds)[i] == Noted(ds[i], if key in cached then Some(cached[key]) else None)
  {
    hide Cached;
  }

  // The critic's changes are invalid exactly when they name no level of the ticker, ask for a
  // price no level is within a cent of, or for less than a share. A name outranks a price.
  lemma ChangesAreChecked(d: Draft, ch: Changes, levels: seq<Level>)
    ensures var e := ApplyChanges(d, ch, levels);
            && (e == None <==>
                  || (ch.anchor.Some? && forall lv :: lv in levels ==> lv.anchor != ch.anchor.value)
                  || (ch.anchor == None && ch.limit.Some? && forall lv :: lv in levels ==>
                     Abs(lv.price - ch.limit.value) > 0.01)
                  || (ch.qty.Some? && ch.qty.value < 1.0))
            && (e.Some? ==>
                  && e.value == d.(qty := e.value.qty, limit := e.value.limit, anchor := e.value.anchor)
                  && e.value.qty == (if ch.qty.Some? then ch.qty.value else d.qty)
                  && (if ch.anchor.Some? then
                        exists lv :: lv in levels && lv.anchor == ch.anchor.value == e.value.anchor
                            && lv.price == e.value.limit
                      else
                        e.value.anchor == d.anchor && e.value.limit ==
                            (if ch.limit.Some? then ch.limit.value else d.limit)))
  {
    if ch.anchor.Some? {
      var i := FirstLevel(levels, (lv: Level) => lv.anchor == ch.anchor.value);
      assert i < |levels| ==> levels[i] in levels;
    } else if ch.limit.Some? {
      var i := FirstLevel(levels, (lv: Level) => Abs(lv.price - ch.limit.value) <= 0.01);
      assert i < |levels| ==> levels[i] in levels;
    }
  }

  // What adjustment does to one draft: the quantity is the largest whole number within the
  // factor, dropped below one share; a moved limit is a level of the ticker, rounded to the
  // passive side of it.
  lemma AdjustOneIsTight(d: Draft, c: Context, st: Settings, n: Option<Narrative>)
    requires d.kind == Regular
    ensures var wanted := Worth(d.qty, SizeFactor(d, c, st, n));
            var e := AdjustOne(d, c, st, n);
            && (e == None <==> wanted < 1.0)
            && (e.Some? ==>
                  && e.value.qty <= wanted < e.value.qty + 1.0 && e.value.qty >= 1.0
                  && (e.value.limit == d.limit
                      || exists lv :: lv in LevelsOf(c, d.ticker)
                                      && if d.side == Buy then lv.price - 0.01 < e.value.limit <= lv.price
                                         else lv.price <= e.value.limit < lv.price + 0.01))
  {
    hide SizeFactor, Worth, NewLevel, Floor2, Ceil2;
    var lv := NewLevel(d, c, st, n);
    if lv.Some? {
      RoundingError(lv.value.price);
    }
  }

  lemma AdjustOneOnALevel(d: Draft, m: Market, c: Context, st: Settings, n: Option<Narrative>)
    requires MarketOK(m) && OnALevel(d, AllLevels(m, c)) && AdjustOne(d, c, st, n).Some?
    ensures OnALevel(AdjustOne(d, c, st, n).value, AllLevels(m, c))
  {
    hide AdjustOne, NewLevel, SizeFactor, Worth;
    if d.kind == Regular {
      AdjustOneIsTight(d, c, st, n);
      var e := AdjustOne(d, c, st, n).value;
      AdjustOneKeepsKey(d, c, st, n);
      if e.limit == d.limit {
        var lv :| lv in AllLevels(m, c)[d.ticker] && Abs(d.limit - lv.price) <= 0.01;
      } else {
        var lv :| lv in LevelsOf(c, d.ticker)
                  && if d.side == Buy then lv.price - 0.01 < e.limit <= lv.price
                     else lv.price <= e.limit < lv.price + 0.01;
        assert lv in AllLevels(m, c)[d.ticker];
      }
    } else {
      AdjustOneKeepsKey(d, c, st, n);
    }
  }

  lemma AdjustOneKeepsKey(d: Draft, c: Context, st: Settings, n: Option<Narrative>)
    requires AdjustOne(d, c, st, n).Some?
    ensures var e := AdjustOne(d, c, st, n).value;
            e.ticker == d.ticker && e.side == d.side && (d.kind == Topup ==> e == d)
  {
  }

  lemma ReviseOneOnALevel(d: Draft, v: Option<Verdict>, m: Market, c: Context)
    requires MarketOK(m) && OnALevel(d, AllLevels(m, c)) && ReviseOne(d, v, c).Some?
    ensures OnALevel(ReviseOne(d, v, c).value, AllLevels(m, c))
  {
    hide ApplyChanges;
    if v.Some? && v.value.Revise? {
      var levels := LevelsOf(c, d.ticker);
      ChangesAreChecked(d, v.value.changes, levels);
      assert forall lv :: lv in levels ==> lv in AllLevels(m, c)[d.ticker];
    }
  }

  ghost predicate AllOnLevels(xs: seq<Noted>, known: map<Ticker, seq<Level>>) {
    forall i :: 0 <= i < |xs| ==> OnALevel(xs[i].draft, known)
  }

  lemma {:induction false} AdjustAllOnLevels(xs: seq<Noted>, m: Market, c: Context, st: Settings,
                                             narrative: map<int, Narrative>)
    requires MarketOK(m) && AllOnLevels(xs, AllLevels(m, c))
    ensures AllOnLevels(AdjustAll(xs, c, st, narrative), AllLevels(m, c))
  {
    hide AdjustOne, OnALevel, AllLevels;
    if xs != [] {
      var n := |xs| - 1;
      AdjustAllOnLevels(xs[..n], m, c, st, narrative);
      if AdjustOne(xs[n].draft, c, st, At(narrative, n)).Some? {
        AdjustOneOnALevel(xs[n].draft, m, c, st, At(narrative, n));
      }
    }
  }

  lemma {:induction false} ReviseAllOnLevels(xs: seq<Noted>, m: Market, c: Context, verdicts: map<int, Verdict>)
    requires MarketOK(m) && AllOnLevels(xs, AllLevels(m, c))
    ensures AllOnLevels(ReviseAll(xs, verdicts, c), AllLevels(m, c))
  {
    hide ReviseOne, OnALevel, AllLevels;
    if xs != [] {
      var n := |xs| - 1;
      ReviseAllOnLevels(xs[..n], m, c, verdicts);
      if ReviseOne(xs[n].draft, At(verdicts, n), c).Some? {
        ReviseOneOnALevel(xs[n].draft, At(verdicts, n), m, c);
      }
    }
  }

  // Whatever the narrative, the rationales and the verdicts say, a final is for at least one
  // share and its limit is within a cent of a level computed for its ticker.
  lemma NoInventedPrice(gaps: seq<GapRow>, m: Market, bandHigh: map<Ticker, real>, fraction: real, cash: real,
                        equity: real, notes: map<int, string>, c: Context, st: Settings,
                        narrative: map<int, Narrative>, written: map<int, string>, verdicts: map<int, Verdict>)
    requires MarketOK(m) && 0.0 <= fraction <= 1.0
    requires UnitScores(m)
    ensures var xs := Attach(WeekDrafts(gaps, m, bandHigh, fraction, cash, equity), notes);
            AllOnLevels(Reviewed(xs, c, st, narrative, written, verdicts), AllLevels(m, c))
  {
    hide WeekDrafts, AdjustAll, ReviseAll, OnALevel, AllLevels;
    var ds := WeekDrafts(gaps, m, bandHigh, fraction, cash, equity);
    WeekIsOnLevels(gaps, m, bandHigh, fraction, cash, equity, c);
    var xs := Attach(ds, notes);
    assert forall i :: 0 <= i < |ds| ==> xs[i].draft == ds[i] && ds[i] in ds;
    AdjustAllOnLevels(xs, m, c, st, narrative);
    ReviseAllOnLevels(ReasonAll(AdjustAll(xs, c, st, narrative), written), m, c, verdicts);
  }

  // ---- The passive side of the market --------------------------------------------------------------------

  predicate SameCloses(m: Market, c: Context) {
    forall t :: t in m.nearby ==> t in c.closes && c.closes[t] == m.nearby[t].current
  }

  ghost predicate AllPassive(xs: seq<Noted>, m: Market) {
    forall i :: 0 <= i < |xs| ==>
      xs[i].draft.ticker in m.nearby && Passive(xs[i].draft, m.nearby[xs[i].draft.ticker].current)
  }

  lemma AdjustOneIsPassive(d: Draft, m: Market, c: Context, st: Settings, n: Option<Narrative>)
    requires MarketOK(m) && SameCloses(m, c) && d.ticker in m.nearby && Passive(d, m.nearby[d.ticker].current)
    ensures AdjustOne(d, c, st, n).Some? ==> Passive(AdjustOne(d, c, st, n).value, m.nearby[d.ticker].current)
  {
    hide NewLevel, SizeFactor, Worth, Floor2, Ceil2;
    var lv := NewLevel(d, c, st, n);
    if lv.Some? {
      RoundingError(lv.value.price);
    }
  }

  lemma {:induction false} AdjustAllIsPassive(xs: seq<Noted>, m: Market, c: Context, st: Settings,
                                              narrative: map<int, Narrative>)
    requires MarketOK(m) && SameCloses(m, c) && AllPassive(xs, m)
    ensures AllPassive(AdjustAll(xs, c, st, narrative), m)
  {
    hide AdjustOne, Passive, SameCloses;
    if xs != [] {
      var n := |xs| - 1;
      AdjustAllIsPassive(xs[..n], m, c, st, narrative);
      AdjustOneIsPassive(xs[n].draft, m, c, st, At(narrative, n));
      if AdjustOne(xs[n].draft, c, st, At(narrative, n)).Some? {
        AdjustOneKeepsKey(xs[n].draft, c, st, At(narrative, n));
      }
    }
  }

  // With the same closes at both stages, no limit crosses the market by more than half a cent
  // before the critic has its say.
  lemma PassiveUntilTheCritic(gaps: seq<GapRow>, m: Market, bandHigh: map<Ticker, real>, fraction: real, cash: real,
                              equity: real, notes: map<int, string>, c: Context, st: Settings,
                              narrative: map<int, Narrative>)
    requires MarketOK(m) && SameCloses(m, c) && 0.0 <= fraction <= 1.0
    requires UnitScores(m)
    ensures AllPassive(AdjustAll(Attach(WeekDrafts(gaps, m, bandHigh, fraction, cash, equity), notes), c, st,
            narrative), m)
  {
    hide WeekDrafts, AdjustAll, SameCloses, Passive;
    var ds := WeekDrafts(gaps, m, bandHigh, fraction, cash, equity);
    WeekIsOnLevels(gaps, m, bandHigh, fraction, cash, equity, c);
    var xs := Attach(ds, notes);
    assert forall i :: 0 <= i < |ds| ==> xs[i].draft == ds[i] && ds[i] in ds;
    AdjustAllIsPassive(xs, m, c, st, narrative);
  }

  // A verdict leaves a passive draft passive: it changes nothing, it is refused, or it moves
  // the limit to the passive side. A name is looked up first, a price only without a name.
  predicate StaysPassive(d: Draft, v: Option<Verdict>, c: Context, close: real) {
    v.Some? && v.value.Revise? ==>
      var ch, levels := v.value.changes, LevelsOf(c, d.ticker);
      || (ch.qty.Some? && ch.qty.value < 1.0)
      || if ch.anchor.Some? then
           var i := FirstLevel(levels, (lv: Level) => lv.anchor == ch.anchor.value);
           i < |levels| ==> PassiveAt(d.side, levels[i].price, close)
         else
           ch.limit.Some? && FirstLevel(levels, (lv: Level) => Abs(lv.price - ch.limit.value) <= 0.01) < |levels| ==>
             PassiveAt(d.side, ch.limit.value, close)
  }

  // A passive draft that is kept stays passive exactly when its verdict meets that condition.
  lemma RevisedIsPassiveIff(d: Draft, v: Option<Verdict>, c: Context, close: real)
    requires Passive(d, close) && ReviseOne(d, v, c).Some?
    ensures Passive(ReviseOne(d, v, c).value, close) <==> StaysPassive(d, v, c, close)
  {
  }

  lemma OnlyRejectionDrops(d: Draft, v: Option<Verdict>, c: Context, close: real)
    ensures ReviseOne(d, v, c) == None ==> StaysPassive(d, v, c, close)
  {
  }

  ghost predicate AllStayPassive(xs: seq<Noted>, verdicts: map<int, Verdict>, m: Market, c: Context)
    requires AllPassive(xs, m)
  {
    forall i :: 0 <= i < |xs| ==> StaysPassive(xs[i].draft, At(verdicts, i), c, m.nearby[xs[i].draft.ticker].current)
  }

  // So the finals of passive drafts are all passive exactly when every verdict meets it.
  lemma {:induction false} FinalsArePassiveIff(xs: seq<Noted>, verdicts: map<int, Verdict>, m: Market, c: Context)
    requires AllPassive(xs, m)
    ensures AllPassive(ReviseAll(xs, verdicts, c), m) <==> AllStayPassive(xs, verdicts, m, c)
  {
    hide ReviseOne, StaysPassive, Passive;
    if xs != [] {
      var n := |xs| - 1;
      var d, v := xs[n].draft, At(verdicts, n);
      var close := m.nearby[d.ticker].current;
      FinalsArePassiveIff(xs[..n], verdicts, m, c);
      OnlyRejectionDrops(d, v, c, close);
      var before, after := ReviseAll(xs[..n], verdicts, c), ReviseAll(xs, verdicts, c);
      assert AllStayPassive(xs, verdicts, m, c) <==>
             AllStayPassive(xs[..n], verdicts, m, c) && StaysPassive(d, v, c, close);
      if ReviseOne(d, v, c).Some? {
        RevisedIsPassiveIff(d, v, c, close);
        ReviseOneKeepsKey(d, v, c);
        var y := Noted(ReviseOne(d, v, c).value, xs[n].note);
        assert after == before + [y];
        PassiveAppend(before, y, m);
      } else {
        assert after == before;
      }
    }
  }

  lemma PassiveAppend(xs: seq<Noted>, y: Noted, m: Market)
    requires y.draft.ticker in m.nearby
    ensures AllPassive(xs + [y], m) <==> AllPassive(xs, m) && Passive(y.draft, m.nearby[y.draft.ticker].current)
  {
    hide Passive;
    assert forall i :: 0 <= i < |xs| ==> (xs + [y])[i] == xs[i];
    assert (xs + [y])[|xs|] == y;
  }

  // From the week's drafts to the finals: with the same closes at both stages the finals are
  // all passive exactly when the verdicts on the adjusted drafts meet the condition.
  lemma ReviewIsPassiveIff(gaps: seq<GapRow>, m: Market, bandHigh: map<Ticker, real>, fraction: real, cash: real,
                           equity: real, notes: map<int, string>, c: Context, st: Settings,
                           narrative: map<int, Narrative>, written: map<int, string>, verdicts: map<int, Verdict>)
    requires MarketOK(m) && SameCloses(m, c) && 0.0 <= fraction <= 1.0
    requires UnitScores(m)
    ensures var xs := Attach(WeekDrafts(gaps, m, bandHigh, fraction, cash, equity), notes);
            var reasoned := ReasonAll(AdjustAll(xs, c, st, narrative), written);
            && AllPassive(reasoned, m)
            && (AllPassive(Reviewed(xs, c, st, narrative, written, verdicts), m) <==>
               AllStayPassive(reasoned, verdicts, m, c))
  {
    hide WeekDrafts, AdjustAll, ReviseAll, SameCloses, Passive, StaysPassive;
    PassiveUntilTheCritic(gaps, m, bandHigh, fraction, cash, equity, notes, c, st, narrative);
    var xs := Attach(WeekDrafts(gaps, m, bandHigh, fraction, cash, equity), notes);
    var reasoned := ReasonAll(AdjustAll(xs, c, st, narrative), written);
    FinalsArePassiveIff(reasoned, verdicts, m, c);
  }

  // The critic may move a buy to any level by its name, a resistance over the close included.
  lemma CriticCanCrossTheMarket() returns (d: Draft, c: Context, v: Verdict)
    ensures d.ticker in c.closes && Passive(d, c.closes[d.ticker])
    ensures ReviseOne(d, Some(v), c).Some? && !Passive(ReviseOne(d, Some(v), c).value, c.closes[d.ticker])
  {
    var high := Level(120.0, Resistance, "high", 0.9);
    d := Draft("T", Buy, 1.0, 95.0, "low", None, None, 1.0, Regular);
    c := Context(map["T" := [high]], map["T" := 100.0], {});
    v := Revise(Changes(Some("high"), None, None));
    assert FirstLevel([high], (lv: Level) => lv.anchor == "high") == 0;
  }
}
