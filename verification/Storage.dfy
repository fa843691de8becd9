// Storing the reviewed drafts of a week and their rationales.
module Storage {
  import opened Options
  import opened Trading

  predicate SameSlot(sug: Suggestion, a: Account, week: int, d: Draft) {
    sug.account == a && sug.weekOf == week && sug.order.ticker == d.ticker && sug.order.side == d.side
  }

  // Id of the stored suggestion for this account, week, ticker and side; |sugs| + 1 if none.
  function Slot(sugs: seq<Suggestion>, a: Account, week: int, d: Draft, n: nat := 1): (r: nat)
    requires 1 <= n <= |sugs| + 1
    ensures n <= r <= |sugs| + 1
    ensures r <= |sugs| ==> SameSlot(sugs[r - 1], a, week, d)
    ensures forall m :: n - 1 <= m < r - 1 ==> !SameSlot(sugs[m], a, week, d)
    decreases |sugs| + 1 - n
  {
    if n > |sugs| || SameSlot(sugs[n - 1], a, week, d) then n else Slot(sugs, a, week, d, n + 1)
  }

  function Store(sugs: seq<Suggestion>, a: Account, week: int, d: Draft, expires: Time, now: Time): seq<Suggestion> {
    var n := Slot(sugs, a, week, d);
    if n > |sugs| then sugs + [Suggestion(a, week, d, Pending, Some(expires), now, None, None)]
    else if sugs[n - 1].status == Pending then sugs[n - 1 := sugs[n - 1].(order := d)]
    else sugs
  }

  // What a suggestion is stored under.
  function Key(sug: Suggestion): (Account, int, Ticker, Side) {
    (sug.account, sug.weekOf, sug.order.ticker, sug.order.side)
  }

  // A draft is stored under its account, week, share and side: a pending suggestion there takes
  // its terms, a decided one stays as it is, and only without one is there a new suggestion,
  // pending, with the draft's terms. No other suggestion changes.
  lemma DraftIsStored(sugs: seq<Suggestion>, a: Account, week: int, d: Draft, expires: Time, now: Time)
    ensures var ys, key := Store(sugs, a, week, d, expires, now), (a, week, d.ticker, d.side);
            if exists i :: 0 <= i < |sugs| && Key(sugs[i]) == key then
              exists i :: && 0 <= i < |sugs| && Key(sugs[i]) == key
                          && ys == if sugs[i].status == Pending then sugs[i := sugs[i].(order := d)] else sugs
            else ys == sugs + [Suggestion(a, week, d, Pending, Some(expires), now, None, None)]
  {
    var n := Slot(sugs, a, week, d);
    if n <= |sugs| {
      assert Key(sugs[n - 1]) == (a, week, d.ticker, d.side);
    }
  }

  function StoreFrom(sugs: seq<Suggestion>, a: Account, week: int, ds: seq<Draft>, j: nat, expires: Time, now: Time,
                     ids: seq<nat>): (seq<Suggestion>, seq<nat>)
    requires j <= |ds|
    decreases |ds| - j
  {
    if j == |ds| then (sugs, ids)
    else StoreFrom(Store(sugs, a, week, ds[j], expires, now), a, week, ds, j + 1, expires, now,
        ids + [Slot(sugs, a, week, ds[j])])
  }

  // The stored suggestions and the id each draft ended up under.
  function StoreAll(sugs: seq<Suggestion>, a: Account, week: int, ds: seq<Draft>, expires: Time,
                    now: Time): (seq<Suggestion>, seq<nat>) {
    StoreFrom(sugs, a, week, ds, 0, expires, now, [])
  }

  // A rationale goes to the row stored for its position, if that row is pending.
  function Noting(sugs: seq<Suggestion>, ids: seq<nat>, notes: map<int, string>, j: nat): (r: seq<Suggestion>)
    requires j < |ids|
    ensures |r| == |sugs|
  {
    if j in notes && notes[j] != "" && Known(sugs, ids[j]) && sugs[ids[j] - 1].status == Pending then
      sugs[ids[j] - 1 := sugs[ids[j] - 1].(rationale := Some(notes[j]))]
    else sugs
  }

  function Annotate(sugs: seq<Suggestion>, ids: seq<nat>, notes: map<int, string>, j: nat): (r: seq<Suggestion>)
    requires j <= |ids|
    ensures |r| == |sugs|
    decreases |ids| - j
  {
    if j == |ids| then sugs else Annotate(Noting(sugs, ids, notes, j), ids, notes, j + 1)
  }

  function Finalize(sugs: seq<Suggestion>, a: Account, week: int, ds: seq<Draft>, notes: map<int, string>,
                    expires: Time, now: Time):
    (seq<Suggestion>, seq<nat>)
  {
    var (stored, ids) := StoreAll(sugs, a, week, ds, expires, now);
    (Annotate(stored, ids, notes, 0), ids)
  }
}
