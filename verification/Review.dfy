// Review of the week's drafts: adjustment to context, rationales, the critic's verdicts.
// What the language model returns is an arbitrary input.
module Review {
  import opened Options
  import opened Trading
  import opened Levels

  datatype Context = Context(scored: map<Ticker, seq<Level>>, closes: map<Ticker, real>, earnings: set<Ticker>)
  datatype Settings = Settings(earningsFactor: real, reanchor: bool, sizeMin: real, sizeMax: real)

  datatype Narrative = Narrative(multiplier: real, prefer: Option<string>)
  datatype Changes = Changes(anchor: Option<string>, limit: Option<real>, qty: Option<real>)
  datatype Verdict = Approve | Revise(changes: Changes) | Reject

  // A draft with the rationale written for it, if any.
  datatype Noted = Noted(draft: Draft, note: Option<string>)

  function At<T>(m: map<int, T>, i: int): Option<T> {
    if i in m then Some(m[i]) else None
  }

  // Rationales are kept by draft position.
  function Attach(ds: seq<Draft>, notes: map<int, string>): (r: seq<Noted>)
    ensures |r| == |ds|
  {
    seq(|ds|, i requires 0 <= i < |ds| => Noted(ds[i], At(notes, i)))
  }

  function LevelsOf(c: Context, t: Ticker): seq<Level> {
    if t in c.scored then c.scored[t] else []
  }

  // First level satisfying p at or after i; |levels| when there is none.
  function FirstLevel(levels: seq<Level>, p: Level -> bool, i: nat := 0): (r: nat)
    requires i <= |levels|
    ensures i <= r <= |levels|
    ensures r < |levels| ==> p(levels[r])
    ensures forall j :: i <= j < r ==> !p(levels[j])
    decreases |levels| - i
  {
    if i == |levels| || p(levels[i]) then i else FirstLevel(levels, p, i + 1)
  }

  // ---- Adjustment to earnings and narrative ------------------------------------------------------

  // Further from the market than the draft's own limit.
  predicate Deeper(lv: Level, d: Draft) {
    if d.side == Buy then lv.levelType == Support && lv.price < d.limit
    else lv.levelType == Resistance && lv.price > d.limit
  }

  // The nearest deeper level among the first n (the earliest of several); |levels| if none.
  function DeeperAnchor(levels: seq<Level>, d: Draft, n: nat): (r: nat)
    requires n <= |levels|
    ensures r < n || r == |levels|
    ensures r < |levels| ==> Deeper(levels[r], d)
    ensures forall i :: 0 <= i < n && Deeper(levels[i], d) ==>
              && r < |levels| && Abs(levels[r].price - d.limit) <= Abs(levels[i].price - d.limit)
              && (i < r ==> Abs(levels[r].price - d.limit) < Abs(levels[i].price - d.limit))
  {
    if n == 0 then |levels|
    else
      var best := DeeperAnchor(levels, d, n - 1);
      if !Deeper(levels[n - 1], d) then best
      else if best == |levels| then n - 1
      else if d.side == Buy then (if levels[n - 1].price > levels[best].price then n - 1 else best)
      else (if levels[n - 1].price < levels[best].price then n - 1 else best)
  }

  const REANCHOR_MAX_DISTANCE := 0.15

  // A level the narrative may move a draft to; without a close only its type is checked.
  predicate Preferable(lv: Level, anchor: string, side: Side, close: real) {
    && lv.anchor == anchor
    && lv.levelType == (if side == Buy then Support else Resistance)
    && (close > 0.0 ==>
          && (if side == Buy then lv.price <= close else lv.price >= close)
          && Abs(lv.price / close - 1.0) <= REANCHOR_MAX_DISTANCE)
  }

  // The level a draft is moved to, if any: earnings first, then the narrative's preference.
  function NewLevel(d: Draft, c: Context, st: Settings, n: Option<Narrative>): (r: Option<Level>)
    ensures r.Some? ==> r.value in LevelsOf(c, d.ticker)
    ensures r.Some? && d.ticker in c.closes && c.closes[d.ticker] > 0.0 ==>
              Deeper(r.value, d) || if d.side == Buy then r.value.price <= c.closes[d.ticker]
                  else r.value.price >= c.closes[d.ticker]
  {
    var levels := LevelsOf(c, d.ticker);
    var i := DeeperAnchor(levels, d, |levels|);
    if d.ticker in c.earnings && st.reanchor && i < |levels| then Some(levels[i])
    else if n.Some? && n.value.prefer.Some? then
      var close := if d.ticker in c.closes then c.closes[d.ticker] else 0.0;
      var j := FirstLevel(levels, (lv: Level) => Preferable(lv, n.value.prefer.value, d.side, close));
      if j < |levels| then Some(levels[j]) else None
    else None
  }

  function Clamp(x: real, low: real, high: real): real {
    var capped := if x < high then x else high;
    if capped > low then capped else low
  }

  function SizeFactor(d: Draft, c: Context, st: Settings, n: Option<Narrative>): real {
    Worth(if d.ticker in c.earnings then st.earningsFactor else 1.0,
          if n.Some? then Clamp(n.value.multiplier, st.sizeMin, st.sizeMax) else 1.0)
  }

  // Top-ups were sized by sentiment already and pass unchanged. None: less than a share is left.
  function AdjustOne(d: Draft, c: Context, st: Settings, n: Option<Narrative>): Option<Draft> {
    if d.kind == Topup then Some(d)
    else
      var factor := SizeFactor(d, c, st, n);
      var qty := Trunc(Worth(d.qty, factor));
      if qty < 1 then None
      else
        var lv := NewLevel(d, c, st, n);
        Some(d.(qty := qty as real, baseQty := Some(d.qty), sizeFactor := factor,
                limit := if lv == None then d.limit else if d.side == Buy then Floor2(lv.value.price)
                    else Ceil2(lv.value.price),
                anchor := if lv == None then d.anchor else lv.value.anchor))
  }

  // The drafts that are left, each still carrying its own rationale.
  function AdjustAll(xs: seq<Noted>, c: Context, st: Settings, narrative: map<int, Narrative>): seq<Noted> {
    if xs == [] then []
    else
      var n := |xs| - 1;
      var d := AdjustOne(xs[n].draft, c, st, At(narrative, n));
      AdjustAll(xs[..n], c, st, narrative) + if d == None then [] else [Noted(d.value, xs[n].note)]
  }

  lemma AdjustStep(xs: seq<Noted>, i: nat, c: Context, st: Settings, narrative: map<int, Narrative>)
    requires i < |xs|
    ensures var d := AdjustOne(xs[i].draft, c, st, At(narrative, i));
            AdjustAll(xs[..i + 1], c, st, narrative) ==
            if d.Some? then AdjustAll(xs[..i], c, st, narrative) + [Noted(d.value, xs[i].note)]
            else AdjustAll(xs[..i], c, st, narrative)
  {
    hide AdjustOne;
    assert xs[..i + 1][..i] == xs[..i];
  }

  // The first n old positions: where each kept one went, and where each new one came from.
  ghost predicate Inverse(oldToNew: map<int, int>, origin: seq<int>, n: nat) {
    && (forall k :: 0 <= k < |origin| ==> origin[k] < n && origin[k] in oldToNew && oldToNew[origin[k]] == k)
    && (forall j :: j in oldToNew ==> 0 <= oldToNew[j] < |origin| && origin[oldToNew[j]] == j)
  }

  lemma InverseGrows(oldToNew: map<int, int>, origin: seq<int>, n: nat)
    requires Inverse(oldToNew, origin, n)
    ensures Inverse(oldToNew, origin, n + 1) && Inverse(oldToNew[n := |origin|], origin + [n], n + 1)
  {
  }

  lemma InverseIsInjective(oldToNew: map<int, int>, origin: seq<int>, n: nat)
    requires Inverse(oldToNew, origin, n)
    ensures forall i, j :: i in oldToNew && j in oldToNew && oldToNew[i] == oldToNew[j] ==> i == j
  {
  }

  ghost predicate Carried(ys: seq<Noted>, ds: seq<Draft>, notes: map<int, string>, origin: seq<int>) {
    && |ys| == |ds| == |origin|
    && forall k :: 0 <= k < |ys| ==> ys[k] == Noted(ds[k], At(notes, origin[k]))
  }

  lemma CarriedGrows(ys: seq<Noted>, ds: seq<Draft>, notes: map<int, string>, origin: seq<int>, d: Draft, n: nat)
    requires Carried(ys, ds, notes, origin)
    ensures Carried(ys + [Noted(d, At(notes, n))], ds + [d], notes, origin + [n])
  {
  }

  lemma RekeyedInPlace(ys: seq<Noted>, ds: seq<Draft>, notes: map<int, string>, oldToNew: map<int, int>,
                       origin: seq<int>, n: nat, rekeyed: map<int, string>)
    requires Inverse(oldToNew, origin, n) && Carried(ys, ds, notes, origin)
    requires forall k :: k in rekeyed <==> exists j :: j in notes && j in oldToNew && oldToNew[j] == k
    requires forall j :: j in notes && j in oldToNew ==> rekeyed[oldToNew[j]] == notes[j]
    ensures Attach(ds, rekeyed) == ys && forall k :: k in rekeyed ==> 0 <= k < |ds|
  {
    forall k | 0 <= k < |ds|
      ensures At(rekeyed, k) == At(notes, origin[k])
    {
      assert origin[k] in notes ==> oldToNew[origin[k]] in rekeyed;
    }
  }

  // Drops and resizes drafts, then moves the rationales to the new positions.
  method ContextAdjust(ds: seq<Draft>, notes: map<int, string>, c: Context, st: Settings,
                       narrative: map<int, Narrative>)
    returns (adjusted: seq<Draft>, rekeyed: map<int, string>)
    ensures Attach(adjusted, rekeyed) == AdjustAll(Attach(ds, notes), c, st, narrative)
    ensures forall k :: k in rekeyed ==> 0 <= k < |adjusted|
  {
    adjusted := [];
    var oldToNew: map<int, int> := map[];
    ghost var origin: seq<int> := [];
    ghost var xs := Attach(ds, notes);
    assert Inverse(oldToNew, origin, 0) && Carried(AdjustAll(xs[..0], c, st, narrative), adjusted, notes, origin);
    hide AdjustAll, AdjustOne, Inverse, Carried, At;
    for i := 0 to |ds|
      invariant |origin| == |adjusted| && Inverse(oldToNew, origin, i)
      invariant Carried(AdjustAll(xs[..i], c, st, narrative), adjusted, notes, origin)
    {
      AdjustStep(xs, i, c, st, narrative);
      InverseGrows(oldToNew, origin, i);
      var d := AdjustOne(ds[i], c, st, At(narrative, i));
      if d.Some? {
        CarriedGrows(AdjustAll(xs[..i], c, st, narrative), adjusted, notes, origin, d.value, i);
        oldToNew := oldToNew[i := |adjusted|];
        adjusted := adjusted + [d.value];
        origin := origin + [i];
      }
    }
    assert xs[..|ds|] == xs;
    InverseIsInjective(oldToNew, origin, |ds|);
    rekeyed := map j | j in notes && j in oldToNew :: oldToNew[j] := notes[j];
    RekeyedInPlace(AdjustAll(xs, c, st, narrative), adjusted, notes, oldToNew, origin, |ds|, rekeyed);
  }

  // ---- Rationales ---------------------------------------------------------------------------------------

  const MAX_RATIONALE := 600

  function Cut(text: string): string {
    if |text| > MAX_RATIONALE then text[..MAX_RATIONALE] else text
  }

  // New rationales replace old ones, unless every draft already has one.
  function Reason(ds: seq<Draft>, notes: map<int, string>, written: map<int, string>): map<int, string> {
    if forall i :: 0 <= i < |ds| ==> i in notes then notes
    else notes + (map i | i in written :: Cut(written[i]))
  }

  // ---- The critic's verdicts --------------------------------------------------------------------------

  // The changed draft; None when the changes are not valid.
  function ApplyChanges(d: Draft, ch: Changes, levels: seq<Level>): Option<Draft> {
    var named := if ch.anchor.Some? then FirstLevel(levels, (lv: Level) => lv.anchor == ch.anchor.value) else |levels|;
    var priced := if ch.limit.Some? then FirstLevel(levels, (lv: Level) => Abs(lv.price - ch.limit.value) <= 0.01)
        else |levels|;
    if ch.anchor.Some? && named == |levels| then None
    else if ch.anchor == None && ch.limit.Some? && priced == |levels| then None
    else if ch.qty.Some? && ch.qty.value < 1.0 then None
    else
      var moved :=
        if ch.anchor.Some? then d.(anchor := levels[named].anchor, limit := levels[named].price)
        else if ch.limit.Some? then d.(limit := ch.limit.value)
        else d;
      Some(if ch.qty.Some? then moved.(qty := ch.qty.value) else moved)
  }

  // None: rejected. Invalid changes leave the draft as it was.
  function ReviseOne(d: Draft, v: Option<Verdict>, c: Context): Option<Draft> {
    match v
    case None => Some(d)
    case Some(Approve) => Some(d)
    case Some(Reject) => None
    case Some(Revise(ch)) =>
      var changed := ApplyChanges(d, ch, LevelsOf(c, d.ticker));
      Some(if changed == None then d else changed.value)
  }

  function ReviseAll(xs: seq<Noted>, verdicts: map<int, Verdict>, c: Context): seq<Noted> {
    if xs == [] then []
    else
      var n := |xs| - 1;
      var d := ReviseOne(xs[n].draft, At(verdicts, n), c);
      ReviseAll(xs[..n], verdicts, c) + if d == None then [] else [Noted(d.value, xs[n].note)]
  }

  datatype Rejection = Rejection(ticker: Ticker, side: Side)

  function Rejections(ds: seq<Draft>, verdicts: map<int, Verdict>): seq<Rejection> {
    if ds == [] then []
    else
      var n := |ds| - 1;
      Rejections(ds[..n], verdicts)
      + if At(verdicts, n) == Some(Reject) then [Rejection(ds[n].ticker, ds[n].side)] else []
  }

  lemma ReviseStep(ds: seq<Draft>, notes: map<int, string>, i: nat, verdicts: map<int, Verdict>, c: Context)
    requires i < |ds|
    ensures var xs, d := Attach(ds, notes), ReviseOne(ds[i], At(verdicts, i), c);
            && ReviseAll(xs[..i + 1], verdicts, c) ==
               (if d.Some? then ReviseAll(xs[..i], verdicts, c) + [Noted(d.value, At(notes, i))]
                   else ReviseAll(xs[..i], verdicts, c))
            && Rejections(ds[..i + 1], verdicts) ==
               (if d == None then Rejections(ds[..i], verdicts) + [Rejection(ds[i].ticker, ds[i].side)]
                else Rejections(ds[..i], verdicts))
  {
    hide ApplyChanges;
    var xs := Attach(ds, notes);
    assert xs[..i + 1][..i] == xs[..i];
    assert ds[..i + 1][..i] == ds[..i];
  }

  ghost predicate InRange(notes: map<int, string>, n: nat) {
    forall k :: k in notes ==> 0 <= k < n
  }

  // The rationale of position i, if there is one, moved behind the n kept so far.
  function Moved(kept: map<int, string>, n: nat, notes: map<int, string>, i: int): map<int, string> {
    if i in notes then kept[n := notes[i]] else kept
  }

  lemma AttachOne(ds: seq<Draft>, kept: map<int, string>, d: Draft, notes: map<int, string>, i: int)
    requires InRange(kept, |ds|)
    ensures var more := Moved(kept, |ds|, notes, i);
            Attach(ds + [d], more) == Attach(ds, kept) + [Noted(d, At(notes, i))] && InRange(more, |ds| + 1)
  {
  }

  // Applies the verdicts, giving each kept draft's rationale its position among the finals.
  method ReviseDrafts(ds: seq<Draft>, notes: map<int, string>, verdicts: map<int, Verdict>, c: Context)
    returns (finals: seq<Draft>, finalNotes: map<int, string>, rejections: seq<Rejection>)
    ensures Attach(finals, finalNotes) == ReviseAll(Attach(ds, notes), verdicts, c)
    ensures rejections == Rejections(ds, verdicts)
  {
    finals, finalNotes, rejections := [], map[], [];
    ghost var xs := Attach(ds, notes);
    assert Attach(finals, finalNotes) == ReviseAll(xs[..0], verdicts, c) && rejections == Rejections(ds[..0], verdicts);
    assert InRange(finalNotes, |finals|);
    hide ReviseOne, ReviseAll, Rejections, Attach, InRange, At, Moved;
    for i := 0 to |ds|
      invariant Attach(finals, finalNotes) == ReviseAll(xs[..i], verdicts, c) && InRange(finalNotes, |finals|)
      invariant rejections == Rejections(ds[..i], verdicts)
    {
      ReviseStep(ds, notes, i, verdicts, c);
      var row := ReviseOne(ds[i], At(verdicts, i), c);
      if row == None {
        rejections := rejections + [Rejection(ds[i].ticker, ds[i].side)];
      } else {
        AttachOne(finals, finalNotes, row.value, notes, i);
        finalNotes := Moved(finalNotes, |finals|, notes, i);
        finals := finals + [row.value];
      }
    }
    assert xs[..|ds|] == xs;
    assert ds[..|ds|] == ds;
  }

  // Every draft is either kept or listed as rejected.
  lemma {:induction false} KeptOrRejected(ds: seq<Draft>, notes: map<int, string>, verdicts: map<int, Verdict>,
                                          c: Context, n: nat)
    requires n <= |ds|
    ensures |ReviseAll(Attach(ds, notes)[..n], verdicts, c)| + |Rejections(ds[..n], verdicts)| == n
  {
    hide ReviseAll, Rejections, ReviseOne;
    if n > 0 {
      KeptOrRejected(ds, notes, verdicts, c, n - 1);
      ReviseStep(ds, notes, n - 1, verdicts, c);
    } else {
      NothingToRevise(verdicts, c);
    }
  }

  lemma NothingToRevise(verdicts: map<int, Verdict>, c: Context)
    ensures ReviseAll([], verdicts, c) == [] && Rejections([], verdicts) == []
  {
  }

  // Whether any verdict asks for a change.
  predicate AsksForChanges(verdicts: map<int, Verdict>) {
    exists i :: i in verdicts && verdicts[i] != Approve
  }

  // Without drops the positions are right already, so revision is skipped when no verdict
  // asks for a change.
  method CriticRoute(ds: seq<Draft>, notes: map<int, string>, verdicts: map<int, Verdict>, c: Context)
    returns (finals: seq<Draft>, finalNotes: map<int, string>, rejections: seq<Rejection>)
    ensures Attach(finals, finalNotes) == ReviseAll(Attach(ds, notes), verdicts, c)
    ensures rejections == Rejections(ds, verdicts) && |finals| + |rejections| == |ds|
  {
    KeptOrRejected(ds, notes, verdicts, c, |ds|);
    assert Attach(ds, notes)[..|ds|] == Attach(ds, notes) && ds[..|ds|] == ds;
    if AsksForChanges(verdicts) {
      finals, finalNotes, rejections := ReviseDrafts(ds, notes, verdicts, c);
    } else {
      SkippingIsRevising(Attach(ds, notes), verdicts, c);
      NoneRejected(ds, verdicts);
      finals, finalNotes, rejections := ds, notes, [];
    }
  }

  lemma {:induction false} SkippingIsRevising(xs: seq<Noted>, verdicts: map<int, Verdict>, c: Context)
    requires !AsksForChanges(verdicts)
    ensures ReviseAll(xs, verdicts, c) == xs
  {
    if xs != [] {
      SkippingIsRevising(xs[..|xs| - 1], verdicts, c);
      assert xs == xs[..|xs| - 1] + [xs[|xs| - 1]];
    }
  }

  lemma {:induction false} NoneRejected(ds: seq<Draft>, verdicts: map<int, Verdict>)
    requires !AsksForChanges(verdicts)
    ensures Rejections(ds, verdicts) == []
  {
    if ds != [] {
      NoneRejected(ds[..|ds| - 1], verdicts);
    }
  }

  // The whole review: adjust, write rationales, criticise.
  method ReviewDrafts(ds: seq<Draft>, notes: map<int, string>, c: Context, st: Settings,
                      narrative: map<int, Narrative>, written: map<int, string>, verdicts: map<int, Verdict>)
    returns (finals: seq<Draft>, finalNotes: map<int, string>, rejections: seq<Rejection>)
    ensures Attach(finals, finalNotes) == Reviewed(Attach(ds, notes), c, st, narrative, written, verdicts)
    ensures |finals| + |rejections| == |AdjustAll(Attach(ds, notes), c, st, narrative)|
  {
    hide AdjustAll, ReviseAll;
    var adjusted, rekeyed := ContextAdjust(ds, notes, c, st, narrative);
    ReasonAttaches(adjusted, rekeyed, written);
    finals, finalNotes, rejections := CriticRoute(adjusted, Reason(adjusted, rekeyed, written), verdicts, c);
  }

  // The same review with each rationale riding on its draft.
  function ReasonAll(xs: seq<Noted>, written: map<int, string>): (r: seq<Noted>)
    ensures |r| == |xs|
  {
    if forall i :: 0 <= i < |xs| ==> xs[i].note.Some? then xs
    else seq(|xs|, i requires 0 <= i < |xs| => if i in written then Noted(xs[i].draft, Some(Cut(written[i])))
        else xs[i])
  }

  function Reviewed(xs: seq<Noted>, c: Context, st: Settings, narrative: map<int, Narrative>,
                    written: map<int, string>, verdicts: map<int, Verdict>): seq<Noted>
  {
    ReviseAll(ReasonAll(AdjustAll(xs, c, st, narrative), written), verdicts, c)
  }

  lemma ReasonAttaches(ds: seq<Draft>, notes: map<int, string>, written: map<int, string>)
    ensures Attach(ds, Reason(ds, notes, written)) == ReasonAll(Attach(ds, notes), written)
  {
    var xs := Attach(ds, notes);
    assert forall i :: 0 <= i < |ds| ==> xs[i] == Noted(ds[i], At(notes, i));
    if forall i :: 0 <= i < |xs| ==> xs[i].note.Some? {
      assert forall i :: 0 <= i < |ds| ==> xs[i].note.Some? && i in notes;
    } else {
      var k :| 0 <= k < |xs| && xs[k].note == None;
      assert k !in notes;
    }
  }

  // ---- Rationales already stored ------------------------------------------------------------------------

  // This week's stored rationales by ticker and side.
  function Cached(sugs: seq<Suggestion>, a: Account, week: int): map<(Ticker, Side), string> {
    if sugs == [] then map[]
    else
      var x := sugs[|sugs| - 1];
      var before := Cached(sugs[..|sugs| - 1], a, week);
      if x.account == a && x.weekOf == week && x.rationale.Some? then
          before[(x.order.ticker, x.order.side) := x.rationale.value]
      else before
  }

  function FromCache(ds: seq<Draft>, cached: map<(Ticker, Side), string>): map<int, string> {
    map i | 0 <= i < |ds| && (ds[i].ticker, ds[i].side) in cached :: cached[(ds[i].ticker, ds[i].side)]
  }
}
