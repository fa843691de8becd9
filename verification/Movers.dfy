// Daily alerts on big movers: the tiers already alerted, and the news stored with them.
module Movers {
  import opened Options
  import opened Trading

  const STEP := 5.0

  // The tier last alerted (0 when there is none), the week it was alerted in, and the move.
  datatype Mover = Mover(tier: real, week: Option<int>, pct: Option<real>)

  const RESTED := Mover(0.0, None, None)

  datatype Move = Move(ticker: Ticker, pct: real)
  datatype Alert = Alert(ticker: Ticker, pct: real, tier: real)

  // The tier that still counts: one alerted in another week does not.
  function Standing(m: Mover, week: int): real {
    if m.week.Some? && m.week.value != week then 0.0 else m.tier
  }

  // The tier a move of at least one step has to reach.
  function NextTier(m: Mover, pct: real, week: int): real {
    var tier := Standing(m, week);
    if tier > 0.0 && m.pct.Some? && (m.pct.value > 0.0) != (pct >= 0.0) then STEP else tier + STEP
  }

  predicate Fires(m: Mover, pct: real, week: int) {
    Abs(pct) >= STEP && Abs(pct) >= NextTier(m, pct, week)
  }

  predicate Recovers(m: Mover, pct: real, week: int) {
    Abs(pct) < STEP && Standing(m, week) > 0.0
  }

  // What one day does to one ticker. `stored` is the week the day's alerts are stamped with.
  function Day(m: Mover, pct: real, week: int, stored: int): Mover {
    if Fires(m, pct, week) then Mover(NextTier(m, pct, week), Some(stored), Some(pct))
    else if Recovers(m, pct, week) then RESTED
    else m
  }

  function StateOf(states: map<Ticker, Mover>, t: Ticker): Mover {
    if t in states then states[t] else RESTED
  }

  predicate OneMoveEach(moves: seq<Move>) {
    forall i, j :: 0 <= i < j < |moves| ==> moves[i].ticker != moves[j].ticker
  }

  function Alerts(states: map<Ticker, Mover>, moves: seq<Move>, week: int): seq<Alert> {
    if moves == [] then []
    else
      var x := moves[|moves| - 1];
      var m := StateOf(states, x.ticker);
      Alerts(states, moves[..|moves| - 1], week)
      + if Fires(m, x.pct, week) then [Alert(x.ticker, x.pct, NextTier(m, x.pct, week))] else []
  }

  function Resets(states: map<Ticker, Mover>, moves: seq<Move>, week: int): seq<Ticker> {
    if moves == [] then []
    else
      var x := moves[|moves| - 1];
      Resets(states, moves[..|moves| - 1], week)
      + if Recovers(StateOf(states, x.ticker), x.pct, week) then [x.ticker] else []
  }

  function Rest(states: map<Ticker, Mover>, ts: seq<Ticker>): map<Ticker, Mover> {
    if ts == [] then states else Rest(states, ts[..|ts| - 1])[ts[|ts| - 1] := RESTED]
  }

  function Record(states: map<Ticker, Mover>, alerts: seq<Alert>, stored: int): map<Ticker, Mover> {
    if alerts == [] then states
    else
      var x := alerts[|alerts| - 1];
      Record(states, alerts[..|alerts| - 1], stored)[x.ticker := Mover(x.tier, Some(stored), Some(x.pct))]
  }

  // Recovered tickers are reset first, then the alerted ones recorded.
  function AfterDay(states: map<Ticker, Mover>, moves: seq<Move>, week: int, stored: int): map<Ticker, Mover> {
    Record(Rest(states, Resets(states, moves, week)), Alerts(states, moves, week), stored)
  }

  // The mover table.
  class Watch {
    var states: map<Ticker, Mover>

    constructor ()
      ensures states == map[]
    {
      states := map[];
    }

    // One day's run; all decisions are taken on the states found.
    method Run(moves: seq<Move>, week: int, stored: int) returns (alerts: seq<Alert>)
      modifies this
      ensures alerts == Alerts(old(states), moves, week)
      ensures states == AfterDay(old(states), moves, week, stored)
    {
      hide Alerts, Resets;
      var recovered: seq<Ticker>;
      alerts, recovered := Decide(states, moves, week);
      for k := 0 to |recovered|
        invariant states == Rest(old(states), recovered[..k])
      {
        assert recovered[..k + 1][..k] == recovered[..k];
        states := states[recovered[k] := RESTED];
      }
      assert recovered[..|recovered|] == recovered;
      for k := 0 to |alerts|
        invariant states == Record(Rest(old(states), recovered), alerts[..k], stored)
      {
        assert alerts[..k + 1][..k] == alerts[..k];
        states := states[alerts[k].ticker := Mover(alerts[k].tier, Some(stored), Some(alerts[k].pct))];
      }
      assert alerts[..|alerts|] == alerts;
    }
  }

  // Which tickers to alert at which tier, and which to reset.
  method Decide(states: map<Ticker, Mover>, moves: seq<Move>, week: int)
    returns (alerts: seq<Alert>, recovered: seq<Ticker>)
    ensures alerts == Alerts(states, moves, week)
    ensures recovered == Resets(states, moves, week)
  {
    alerts, recovered := [], [];
    for i := 0 to |moves|
      invariant alerts == Alerts(states, moves[..i], week)
      invariant recovered == Resets(states, moves[..i], week)
    {
      assert moves[..i + 1][..i] == moves[..i];
      var m := StateOf(states, moves[i].ticker);
      var pct := moves[i].pct;
      var standing := if m.week.Some? && m.week.value != week then 0.0 else m.tier;
      if Abs(pct) < STEP {
        if standing > 0.0 {
          recovered := recovered + [moves[i].ticker];
        }
      } else {
        var turned := standing > 0.0 && m.pct.Some? && (m.pct.value > 0.0) != (pct >= 0.0);
        var next := if turned then STEP else standing + STEP;
        if Abs(pct) >= next {
          alerts := alerts + [Alert(moves[i].ticker, pct, next)];
        }
      }
    }
    assert moves[..|moves|] == moves;
  }

  // ---- Tickers move alone ---------------------------------------------------------------------------

  function LastAlert(alerts: seq<Alert>, t: Ticker): Option<Alert> {
    if alerts == [] then None
    else if alerts[|alerts| - 1].ticker == t then Some(alerts[|alerts| - 1])
    else LastAlert(alerts[..|alerts| - 1], t)
  }

  lemma {:induction false} RecordAt(states: map<Ticker, Mover>, alerts: seq<Alert>, stored: int, t: Ticker)
    ensures StateOf(Record(states, alerts, stored), t) ==
            match LastAlert(alerts, t)
            case None => StateOf(states, t)
            case Some(x) => Mover(x.tier, Some(stored), Some(x.pct))
  {
    if alerts != [] {
      RecordAt(states, alerts[..|alerts| - 1], stored, t);
    }
  }

  lemma {:induction false} RestAt(states: map<Ticker, Mover>, ts: seq<Ticker>, t: Ticker)
    ensures StateOf(Rest(states, ts), t) == if t in ts then RESTED else StateOf(states, t)
  {
    if ts != [] {
      RestAt(states, ts[..|ts| - 1], t);
      assert ts == ts[..|ts| - 1] + [ts[|ts| - 1]];
    }
  }

  // The position of t's move; |moves| when it has none.
  function MoveOf(moves: seq<Move>, t: Ticker, i: nat := 0): (r: nat)
    requires i <= |moves|
    ensures i <= r <= |moves|
    ensures r < |moves| ==> moves[r].ticker == t
    ensures forall j :: i <= j < r ==> moves[j].ticker != t
    decreases |moves| - i
  {
    if i == |moves| || moves[i].ticker == t then i else MoveOf(moves, t, i + 1)
  }

  lemma LastAlertAppend(alerts: seq<Alert>, x: Alert, t: Ticker)
    ensures LastAlert(alerts + [x], t) == if x.ticker == t then Some(x) else LastAlert(alerts, t)
  {
    assert (alerts + [x])[..|alerts|] == alerts;
  }

  predicate OnlyMove(moves: seq<Move>, t: Ticker, i: nat) {
    && (i < |moves| ==> moves[i].ticker == t)
    && forall j :: 0 <= j < |moves| && j != i ==> moves[j].ticker != t
  }

  lemma {:induction false} AlertedAlone(states: map<Ticker, Mover>, moves: seq<Move>, week: int, t: Ticker, i: nat)
    requires OnlyMove(moves, t, i)
    ensures var m := StateOf(states, t);
            LastAlert(Alerts(states, moves, week), t) ==
            if i < |moves| && Fires(m, moves[i].pct, week) then
                Some(Alert(t, moves[i].pct, NextTier(m, moves[i].pct, week))) else None
  {
    hide Fires, NextTier, LastAlert, StateOf;
    if moves == [] {
      NoAlert(t);
    } else {
      var n := |moves| - 1;
      AlertedAlone(states, moves[..n], week, t, i);
      var before, x := Alerts(states, moves[..n], week), moves[n];
      assert before + [] == before;
      LastAlertAppend(before, Alert(x.ticker, x.pct, NextTier(StateOf(states, x.ticker), x.pct, week)), t);
    }
  }

  lemma NoAlert(t: Ticker)
    ensures LastAlert([], t) == None
  {
  }

  lemma {:induction false} RestedAlone(states: map<Ticker, Mover>, moves: seq<Move>, week: int, t: Ticker, i: nat)
    requires OnlyMove(moves, t, i)
    ensures t in Resets(states, moves, week) <==> i < |moves| && Recovers(StateOf(states, t), moves[i].pct, week)
  {
    hide Recovers, StateOf;
    if moves != [] {
      RestedAlone(states, moves[..|moves| - 1], week, t, i);
    }
  }

  // Every ticker moves on from its own state by its own move, whatever the others do.
  lemma EachMovesAlone(states: map<Ticker, Mover>, moves: seq<Move>, week: int, stored: int, t: Ticker)
    requires OneMoveEach(moves)
    ensures var i := MoveOf(moves, t);
            StateOf(AfterDay(states, moves, week, stored), t) ==
            if i < |moves| then Day(StateOf(states, t), moves[i].pct, week, stored) else StateOf(states, t)
  {
    hide NextTier;
    var i := MoveOf(moves, t);
    AlertedAlone(states, moves, week, t, i);
    RestedAlone(states, moves, week, t, i);
    RestAt(states, Resets(states, moves, week), t);
    RecordAt(Rest(states, Resets(states, moves, week)), Alerts(states, moves, week), stored, t);
  }

  // ---- What a day's move comes to ------------------------------------------------------------------

  // An alert that still counts: one of another week does not.
  predicate Alerted(m: Mover, week: int) {
    m.tier > 0.0 && (m.week == None || m.week == Some(week))
  }

  // The move went the other way than the one last alerted.
  predicate Turned(m: Mover, pct: real) {
    m.pct.Some? && if pct > 0.0 then m.pct.value <= 0.0 else m.pct.value > 0.0
  }

  // The tier a move alerts at, if it does. Under 5 percent there is no alert; from there on the
  // first tier is 5, again after a turn, and the next one 5 above the last that counts.
  function AlertFor(m: Mover, pct: real, week: int): Option<real> {
    if -5.0 < pct < 5.0 then None
    else if !Alerted(m, week) || Turned(m, pct) then Some(5.0)
    else if m.tier + 5.0 <= pct || pct <= -(m.tier + 5.0) then Some(m.tier + 5.0)
    else None
  }

  lemma FiringIsAlertFor(m: Mover, pct: real, week: int)
    requires m.tier >= 0.0
    ensures Fires(m, pct, week) <==> AlertFor(m, pct, week).Some?
    ensures Fires(m, pct, week) ==> AlertFor(m, pct, week) == Some(NextTier(m, pct, week))
    ensures Recovers(m, pct, week) <==> -5.0 < pct < 5.0 && Alerted(m, week)
  {
  }

  // A day for one ticker: it is alerted exactly when and at the tier its own move calls for, and
  // that is stored with the move; a move under 5 percent wipes out an alert that counts; and
  // otherwise, or without a move, what was stored stays.
  lemma EveryTickerGetsItsAlert(states: map<Ticker, Mover>, moves: seq<Move>, week: int, stored: int, t: Ticker)
    requires OneMoveEach(moves) && StateOf(states, t).tier >= 0.0
    ensures var m, i := StateOf(states, t), MoveOf(moves, t);
            var alert := LastAlert(Alerts(states, moves, week), t);
            var after := StateOf(AfterDay(states, moves, week, stored), t);
            if i == |moves| then alert == None && after == m
            else
              var pct := moves[i].pct;
              match AlertFor(m, pct, week)
              case Some(tier) => alert == Some(Alert(t, pct, tier)) && after == Mover(tier, Some(stored), Some(pct))
              case None =>
                alert == None && after == if -5.0 < pct < 5.0 && Alerted(m, week) then Mover(0.0, None, None) else m
  {
    hide NextTier, Fires, Recovers, AfterDay, Alerts, AlertFor, Alerted;
    var i := MoveOf(moves, t);
    EachMovesAlone(states, moves, week, stored, t);
    AlertedAlone(states, moves, week, t, i);
    if i < |moves| {
      FiringIsAlertFor(StateOf(states, t), moves[i].pct, week);
    }
  }

  // ---- Tiers -----------------------------------------------------------------------------------------

  function Steps(k: nat): real {
    STEP * k as real
  }

  ghost predicate IsTier(x: real) {
    exists k: nat :: x == Steps(k)
  }

  // A stored tier is a whole number of steps that the stored move reached.
  ghost predicate Sound(m: Mover) {
    IsTier(m.tier) && (m.tier > 0.0 ==> m.pct.Some? && Abs(m.pct.value) >= m.tier)
  }

  ghost predicate AllSound(states: map<Ticker, Mover>) {
    forall t :: t in states ==> Sound(states[t])
  }

  lemma OneMoreStep(x: real)
    requires IsTier(x)
    ensures x >= 0.0 && IsTier(x + STEP)
  {
    var k: nat :| x == Steps(k);
    assert x + STEP == Steps(k + 1);
  }

  lemma DayIsSound(m: Mover, pct: real, week: int, stored: int)
    requires Sound(m)
    ensures Sound(Day(m, pct, week, stored))
  {
    RestedIsSound();
    OneMoreStep(0.0);
    OneMoreStep(Standing(m, week));
  }

  datatype DayOf = DayOf(moves: seq<Move>, week: int, stored: int)

  function Season(states: map<Ticker, Mover>, days: seq<DayOf>): map<Ticker, Mover> {
    if days == [] then states
    else
      var d := days[|days| - 1];
      AfterDay(Season(states, days[..|days| - 1]), d.moves, d.week, d.stored)
  }

  // Whatever the market does, every stored tier is sound.
  lemma {:induction false} TiersAreSound(states: map<Ticker, Mover>, days: seq<DayOf>)
    requires AllSound(states) && forall d :: d in days ==> OneMoveEach(d.moves)
    ensures AllSound(Season(states, days))
  {
    hide AfterDay, Sound;
    if days != [] {
      var d, before := days[|days| - 1], Season(states, days[..|days| - 1]);
      assert d in days;
      TiersAreSound(states, days[..|days| - 1]);
      RestedIsSound();
      forall t | t in AfterDay(before, d.moves, d.week, d.stored)
        ensures Sound(StateOf(AfterDay(before, d.moves, d.week, d.stored), t))
      {
        var i := MoveOf(d.moves, t);
        EachMovesAlone(before, d.moves, d.week, d.stored, t);
        if i < |d.moves| {
          DayIsSound(StateOf(before, t), d.moves[i].pct, d.week, d.stored);
        }
      }
    }
  }

  lemma RestedIsSound()
    ensures Sound(RESTED)
  {
    assert Steps(0) == 0.0;
  }

  // ---- Alerts within a week --------------------------------------------------------------------------

  // The state of one ticker after a week's moves, and the tiers it was alerted at.
  function Week(m: Mover, pcts: seq<real>, week: int): (Mover, seq<real>) {
    if pcts == [] then (m, [])
    else
      var (before, tiers) := Week(m, pcts[..|pcts| - 1], week);
      var pct := pcts[|pcts| - 1];
      (Day(before, pct, week, week), if Fires(before, pct, week) then tiers + [NextTier(before, pct, week)] else tiers)
  }

  // Once the move has reached a step it neither dips below it nor changes sign.
  predicate Steady(pcts: seq<real>) {
    forall i, j :: 0 <= i < j < |pcts| && Abs(pcts[i]) >= STEP ==>
      Abs(pcts[j]) >= STEP && (pcts[i] > 0.0 <==> pcts[j] > 0.0)
  }

  function MaxAbs(pcts: seq<real>): (r: real)
    ensures r >= 0.0 && forall i :: 0 <= i < |pcts| ==> Abs(pcts[i]) <= r
  {
    if pcts == [] then 0.0
    else
      var before, last := MaxAbs(pcts[..|pcts| - 1]), Abs(pcts[|pcts| - 1]);
      if last > before then last else before
  }

  // In a steady week that starts fresh, the alerts go up one tier at a time from the first,
  // each at most the largest move so far.
  lemma {:induction false} WeeklyAlertsClimb(m: Mover, pcts: seq<real>, week: int)
    requires Standing(m, week) == 0.0 && Steady(pcts)
    ensures var (after, tiers) := Week(m, pcts, week);
            && (forall k :: 0 <= k < |tiers| ==> tiers[k] == Steps(k + 1))
            && Standing(after, week) == Steps(|tiers|)
            && Steps(|tiers|) <= MaxAbs(pcts)
            && (|tiers| > 0 ==>
                  after.pct.Some? && exists i :: 0 <= i < |pcts| && after.pct.value == pcts[i] && Abs(pcts[i]) >= STEP)
  {
    if pcts != [] {
      var n := |pcts| - 1;
      WeeklyAlertsClimb(m, pcts[..n], week);
    }
  }

  // t's moves over several days, and the tiers it was alerted at.
  function PctsOf(days: seq<DayOf>, t: Ticker): seq<real> {
    if days == [] then []
    else
      var moves := days[|days| - 1].moves;
      var i := MoveOf(moves, t);
      PctsOf(days[..|days| - 1], t) + if i < |moves| then [moves[i].pct] else []
  }

  function TiersOf(states: map<Ticker, Mover>, days: seq<DayOf>, t: Ticker): seq<real> {
    if days == [] then []
    else
      var d := days[|days| - 1];
      var x := LastAlert(Alerts(Season(states, days[..|days| - 1]), d.moves, d.week), t);
      TiersOf(states, days[..|days| - 1], t) + if x.Some? then [x.value.tier] else []
  }

  ghost predicate InWeek(days: seq<DayOf>, week: int) {
    forall i :: 0 <= i < |days| ==> OneMoveEach(days[i].moves) && days[i].week == week && days[i].stored == week
  }

  lemma {:induction false} SeasonIsWeek(states: map<Ticker, Mover>, days: seq<DayOf>, week: int, t: Ticker)
    requires InWeek(days, week)
    ensures (StateOf(Season(states, days), t), TiersOf(states, days, t)) ==
            Week(StateOf(states, t), PctsOf(days, t), week)
  {
    hide Fires, NextTier, Day, AfterDay, Alerts, LastAlert, StateOf;
    if days != [] {
      var n := |days| - 1;
      var d, before, pcts := days[n], Season(states, days[..n]), PctsOf(days[..n], t);
      SeasonIsWeek(states, days[..n], week, t);
      EachMovesAlone(before, d.moves, d.week, d.stored, t);
      var i := MoveOf(d.moves, t);
      AlertedAlone(before, d.moves, d.week, t, i);
      assert TiersOf(states, days[..n], t) + [] == TiersOf(states, days[..n], t);
      assert pcts + [] == pcts;
      if i < |d.moves| {
        assert (pcts + [d.moves[i].pct])[..|pcts|] == pcts;
      }
    }
  }

  // Within one week, from a fresh start: a ticker whose move stays past the first step in one
  // direction is alerted at tiers 5, 10, 15 and so on, at most once per step of its largest move.
  lemma AlertsAreBounded(states: map<Ticker, Mover>, days: seq<DayOf>, week: int, t: Ticker)
    requires InWeek(days, week) && Standing(StateOf(states, t), week) == 0.0 && Steady(PctsOf(days, t))
    ensures var tiers := TiersOf(states, days, t);
            && (forall k :: 0 <= k < |tiers| ==> tiers[k] == Steps(k + 1))
            && |tiers| <= (MaxAbs(PctsOf(days, t)) / STEP).Floor
  {
    SeasonIsWeek(states, days, week, t);
    WeeklyAlertsClimb(StateOf(states, t), PctsOf(days, t), week);
  }

  // ---- News stored with the alerts ---------------------------------------------------------------------

  datatype Article = Article(hash: string, tavily: bool)
  datatype Triage = Triage(material: bool, sentiment: string)
  datatype NewsEvent = NewsEvent(ticker: Ticker, hash: string, triage: Option<Triage>, arbitrated: bool)

  datatype Newsroom = Newsroom(news: map<Ticker, seq<Article>>, triaged: map<Ticker, map<string, Triage>>,
      arbitrated: set<string>)

  function ArticlesOf(k: Newsroom, t: Ticker): seq<Article> {
    if t in k.news then k.news[t] else []
  }

  function EventFor(k: Newsroom, t: Ticker, hash: string): NewsEvent {
    NewsEvent(t, hash, if t in k.triaged && hash in k.triaged[t] then Some(k.triaged[t][hash]) else None,
        hash in k.arbitrated)
  }

  // The articles in the order they are met, each with the ticker it was found under.
  datatype Found = Found(ticker: Ticker, article: Article)

  function Under(t: Ticker, articles: seq<Article>): (r: seq<Found>)
    ensures |r| == |articles|
  {
    seq(|articles|, i requires 0 <= i < |articles| => Found(t, articles[i]))
  }

  function AllFound(k: Newsroom, tickers: seq<Ticker>): seq<Found> {
    if tickers == [] then []
    else AllFound(k, tickers[..|tickers| - 1]) + Under(tickers[|tickers| - 1], ArticlesOf(k, tickers[|tickers| - 1]))
  }

  // Storable, new, and not met before.
  predicate Claims(found: seq<Found>, n: nat, existing: set<string>)
    requires n < |found|
  {
    && !found[n].article.tavily && found[n].article.hash !in existing
    && forall j :: 0 <= j < n ==> found[j].article.tavily || found[j].article.hash != found[n].article.hash
  }

  function Claimed(k: Newsroom, found: seq<Found>, existing: set<string>): seq<NewsEvent> {
    if found == [] then []
    else
      var n := |found| - 1;
      Claimed(k, found[..n], existing)
      + if Claims(found, n, existing) then [EventFor(k, found[n].ticker, found[n].article.hash)] else []
  }

  // The first ticker that carries an article claims it.
  method BuildNewsEvents(k: Newsroom, tickers: seq<Ticker>, existing: set<string>) returns (events: seq<NewsEvent>)
    ensures events == Claimed(k, AllFound(k, tickers), existing)
  {
    hide EventFor, Met, Claimed;
    NothingMet(k, existing);
    events := [];
    var seen := existing;
    ghost var found: seq<Found> := [];
    for i := 0 to |tickers|
      invariant found == AllFound(k, tickers[..i])
      invariant events == Claimed(k, found, existing)
      invariant forall h :: h in seen <==> h in existing || Met(found, h)
    {
      assert tickers[..i + 1][..i] == tickers[..i];
      var articles := ArticlesOf(k, tickers[i]);
      ghost var before := found;
      for j := 0 to |articles|
        invariant found == before + Under(tickers[i], articles[..j])
        invariant events == Claimed(k, found, existing)
        invariant forall h :: h in seen <==> h in existing || Met(found, h)
      {
        ghost var next := found + [Found(tickers[i], articles[j])];
        assert next == before + Under(tickers[i], articles[..j + 1]);
        MetAppend(found, Found(tickers[i], articles[j]));
        ClaimedAppend(k, found, Found(tickers[i], articles[j]), existing);
        if !articles[j].tavily && articles[j].hash !in seen {
          events := events + [EventFor(k, tickers[i], articles[j].hash)];
          seen := seen + {articles[j].hash};
        }
        found := next;
      }
      assert articles[..|articles|] == articles;
    }
    assert tickers[..|tickers|] == tickers;
  }

  predicate Met(found: seq<Found>, h: string) {
    exists j :: 0 <= j < |found| && !found[j].article.tavily && found[j].article.hash == h
  }

  lemma NothingMet(k: Newsroom, existing: set<string>)
    ensures Claimed(k, [], existing) == [] && forall h :: !Met([], h)
  {
  }

  lemma ClaimedAppend(k: Newsroom, found: seq<Found>, x: Found, existing: set<string>)
    ensures Claimed(k, found + [x], existing) ==
            if !x.article.tavily && x.article.hash !in existing && !Met(found, x.article.hash)
            then Claimed(k, found, existing) + [EventFor(k, x.ticker, x.article.hash)]
            else Claimed(k, found, existing)
  {
    hide EventFor;
    assert (found + [x])[..|found|] == found;
  }

  lemma MetAppend(found: seq<Found>, x: Found)
    ensures forall h :: Met(found + [x], h) <==> Met(found, h) || (!x.article.tavily && x.article.hash == h)
  {
    forall h
      ensures Met(found + [x], h) <==> Met(found, h) || (!x.article.tavily && x.article.hash == h)
    {
      if j :| 0 <= j < |found| && !found[j].article.tavily && found[j].article.hash == h {
        assert (found + [x])[j] == found[j];
      }
      assert (found + [x])[|found|] == x;
    }
  }

  // Every event is for an article that may be stored and is new, under the first ticker it is
  // found under, with what that ticker's triage said of it.
  lemma {:induction false} FirstTickerClaims(k: Newsroom, found: seq<Found>, existing: set<string>, e: NewsEvent)
    requires e in Claimed(k, found, existing)
    ensures exists n :: 0 <= n < |found| && found[n].article.hash == e.hash && found[n].ticker == e.ticker
                        && !found[n].article.tavily
                        && forall j :: 0 <= j < n && found[j].article.hash == e.hash ==> found[j].article.tavily
    ensures e.hash !in existing && (e.arbitrated <==> e.hash in k.arbitrated)
    ensures match e.triage
            case Some(x) => e.ticker in k.triaged && e.hash in k.triaged[e.ticker] && k.triaged[e.ticker][e.hash] == x
            case None => e.ticker in k.triaged ==> e.hash !in k.triaged[e.ticker]
  {
    var n := |found| - 1;
    if e in Claimed(k, found[..n], existing) {
      FirstTickerClaims(k, found[..n], existing, e);
      var i :| 0 <= i < n && found[..n][i].article.hash == e.hash && found[..n][i].ticker == e.ticker
               && !found[..n][i].article.tavily
               && forall j :: 0 <= j < i && found[..n][j].article.hash == e.hash ==> found[..n][j].article.tavily;
      assert forall j :: 0 <= j < n ==> found[..n][j] == found[j];
      assert found[i].article.hash == e.hash && found[i].ticker == e.ticker;
    }
  }

  predicate Stored(events: seq<NewsEvent>, h: string) {
    exists i :: 0 <= i < |events| && events[i].hash == h
  }

  // No article is stored twice or again, and every storable new one is stored.
  lemma {:induction false} EventsAreUnique(k: Newsroom, found: seq<Found>, existing: set<string>)
    ensures var events := Claimed(k, found, existing);
            && (forall i, j :: 0 <= i < j < |events| ==> events[i].hash != events[j].hash)
            && (forall h :: Stored(events, h) <==> h !in existing && Met(found, h))
  {
    if found == [] {
    } else {
      var n := |found| - 1;
      EventsAreUnique(k, found[..n], existing);
      var before, after := Claimed(k, found[..n], existing), Claimed(k, found, existing);
      MetAppend(found[..n], found[n]);
      assert found == found[..n] + [found[n]];
      assert Claims(found, n, existing) <==>
             !found[n].article.tavily && found[n].article.hash !in existing && !Met(found[..n], found[n].article.hash);
      if Claims(found, n, existing) {
        assert after == before + [EventFor(k, found[n].ticker, found[n].article.hash)];
        forall h
          ensures Stored(after, h) <==> Stored(before, h) || h == found[n].article.hash
        {
          if i :| 0 <= i < |before| && before[i].hash == h {
            assert after[i].hash == h;
          }
          assert after[|before|].hash == found[n].article.hash;
        }
      } else {
        assert after == before;
      }
    }
  }
}
