// Time-versioned tables: a row is never rewritten, it is closed and another one inserted.
module Versioned {
  import opened Options
  import opened Trading

  // From `from` on, and before `until` once the row is closed.
  predicate Covers(from: Time, until: Option<Time>, t: Time) {
    from <= t && (until.Some? ==> t < until.value)
  }

  // ---- Account states ----------------------------------------------------------------------------

  datatype Identity = Identity(broker: string, mode: string, nickname: Option<string>, active: bool,
      config: Option<string>)

  datatype StateRow = StateRow(
    ref: Account, accountId: string, who: Identity, cash: real, equity: real,
    lastSync: Time, from: Time, until: Option<Time>)

  // The broker and mode come with every snapshot, and count only for an account's first row.
  datatype Snapshot = Snapshot(
    ref: Account, accountId: string, cash: real, equity: real, asOf: Time, broker: string, mode: string)

  function FirstIdentity(s: Snapshot): Identity {
    Identity(s.broker, s.mode, None, true, None)
  }

  // The most recently synced open row of an account among the first n; |rows| if none is open.
  function LatestOpen(rows: seq<StateRow>, ref: Account, n: nat): (r: nat)
    requires n <= |rows|
    ensures r < n || r == |rows|
    ensures r < |rows| ==> rows[r].ref == ref && rows[r].until == None
    ensures r == |rows| ==> forall i :: 0 <= i < n && rows[i].ref == ref ==> rows[i].until.Some?
  {
    if n == 0 then |rows|
    else
      var best := LatestOpen(rows, ref, n - 1);
      if rows[n - 1].ref == ref && rows[n - 1].until == None
          && (best == |rows| || rows[best].lastSync < rows[n - 1].lastSync)
      then n - 1 else best
  }

  predicate SameValues(r: StateRow, s: Snapshot) {
    r.accountId == s.accountId && Abs(r.cash - s.cash) <= 0.01 && Abs(r.equity - s.equity) <= 0.01
  }

  function Write(rows: seq<StateRow>, s: Snapshot): seq<StateRow> {
    var i := LatestOpen(rows, s.ref, |rows|);
    if i < |rows| && SameValues(rows[i], s) then rows[i := rows[i].(lastSync := s.asOf)]
    else
      (if i < |rows| then rows[i := rows[i].(until := Some(s.asOf))] else rows)
      + [StateRow(s.ref, s.accountId, if i < |rows| then rows[i].who else FirstIdentity(s), s.cash, s.equity,
                  s.asOf, s.asOf, None)]
  }

  class AccountTable {
    var rows: seq<StateRow>

    constructor ()
      ensures rows == []
    {
      rows := [];
    }

    method WriteBrokerAccount(s: Snapshot)
      modifies this
      ensures rows == Write(old(rows), s)
    {
      var latest := |rows|;
      for i := 0 to |rows|
        invariant latest == LatestOpen(rows, s.ref, i) && rows == old(rows)
      {
        if rows[i].ref == s.ref && rows[i].until == None && (latest == |rows|
            || rows[latest].lastSync < rows[i].lastSync) {
          latest := i;
        }
      }
      if latest < |rows| && SameValues(rows[latest], s) {
        rows := rows[latest := rows[latest].(lastSync := s.asOf)];
      } else {
        var who := FirstIdentity(s);
        if latest < |rows| {
          who := rows[latest].who;
          rows := rows[latest := rows[latest].(until := Some(s.asOf))];
        }
        rows := rows + [StateRow(s.ref, s.accountId, who, s.cash, s.equity, s.asOf, s.asOf, None)];
      }
    }
  }

  // The account's next row starts where row i was closed.
  predicate Continued(rows: seq<StateRow>, i: nat)
    requires i < |rows| && rows[i].until.Some?
  {
    exists j :: i < j < |rows| && rows[j].ref == rows[i].ref && rows[j].from == rows[i].until.value
  }

  // Rows of one account follow one another without gap or overlap, under one identity.
  ghost predicate Tiled(rows: seq<StateRow>) {
    && (forall i :: 0 <= i < |rows| && rows[i].until.Some? ==>
          rows[i].from <= rows[i].until.value && Continued(rows, i))
    && (forall i, j :: 0 <= i < j < |rows| && rows[i].ref == rows[j].ref ==>
          rows[i].until.Some? && rows[i].until.value <= rows[j].from && rows[i].who == rows[j].who)
  }

  ghost predicate Before(rows: seq<StateRow>, ref: Account, t: Time) {
    forall i :: 0 <= i < |rows| && rows[i].ref == ref ==> rows[i].from <= t
  }

  // An account that has a row has an open one.
  lemma {:induction false} SomeRowIsOpen(rows: seq<StateRow>, i: nat) returns (j: nat)
    requires Tiled(rows) && i < |rows|
    ensures i <= j < |rows| && rows[j].ref == rows[i].ref && rows[j].until == None
    decreases |rows| - i
  {
    if rows[i].until == None {
      j := i;
    } else {
      assert Continued(rows, i);
      var k :| i < k < |rows| && rows[k].ref == rows[i].ref && rows[k].from == rows[i].until.value;
      j := SomeRowIsOpen(rows, k);
    }
  }

  lemma WriteKeepsTiles(rows: seq<StateRow>, s: Snapshot)
    requires Tiled(rows) && Before(rows, s.ref, s.asOf)
    ensures Tiled(Write(rows, s))
  {
    var i, n := LatestOpen(rows, s.ref, |rows|), |rows|;
    var after := Write(rows, s);
    forall k | 0 <= k < n && rows[k].ref == s.ref
      ensures i < n && k <= i
    {
      var j := SomeRowIsOpen(rows, k);
    }
    forall k | 0 <= k < |after| && after[k].until.Some?
      ensures after[k].from <= after[k].until.value && Continued(after, k)
    {
      if k == i {
        assert after[n].from == s.asOf;
      } else {
        assert Continued(rows, k);
        var j :| k < j < |rows| && rows[j].ref == rows[k].ref && rows[j].from == rows[k].until.value;
        assert after[j].ref == after[k].ref && after[j].from == after[k].until.value;
      }
    }
  }

  function WriteAll(rows: seq<StateRow>, ss: seq<Snapshot>): seq<StateRow> {
    if ss == [] then rows else Write(WriteAll(rows, ss[..|ss| - 1]), ss[|ss| - 1])
  }

  lemma {:induction false} WritesStayBefore(rows: seq<StateRow>, ss: seq<Snapshot>, ref: Account, t: Time)
    requires Before(rows, ref, t) && forall i :: 0 <= i < |ss| && ss[i].ref == ref ==> ss[i].asOf <= t
    ensures Before(WriteAll(rows, ss), ref, t)
  {
    if ss != [] {
      WritesStayBefore(rows, ss[..|ss| - 1], ref, t);
    }
  }

  // Each account's snapshots come in order of time, after the rows it starts with.
  ghost predicate InOrder(rows: seq<StateRow>, ss: seq<Snapshot>) {
    && (forall i, j :: 0 <= i < j < |ss| && ss[i].ref == ss[j].ref ==> ss[i].asOf <= ss[j].asOf)
    && (forall i :: 0 <= i < |ss| ==> Before(rows, ss[i].ref, ss[i].asOf))
  }

  lemma {:induction false} RowsTileTime(rows: seq<StateRow>, ss: seq<Snapshot>)
    requires Tiled(rows) && InOrder(rows, ss)
    ensures Tiled(WriteAll(rows, ss))
  {
    hide Write, Tiled;
    if ss != [] {
      var n := |ss| - 1;
      RowsTileTime(rows, ss[..n]);
      WritesStayBefore(rows, ss[..n], ss[n].ref, ss[n].asOf);
      WriteKeepsTiles(WriteAll(rows, ss[..n]), ss[n]);
    }
  }

  // From an account's first row on, at every time exactly one of its rows is in force.
  lemma {:induction false} OneRowInForce(rows: seq<StateRow>, i: nat, t: Time) returns (j: nat)
    requires Tiled(rows) && i < |rows| && rows[i].from <= t
    ensures j < |rows| && rows[j].ref == rows[i].ref && Covers(rows[j].from, rows[j].until, t)
    ensures forall k :: 0 <= k < |rows| && k != j && rows[k].ref == rows[i].ref ==>
            !Covers(rows[k].from, rows[k].until, t)
    decreases |rows| - i
  {
    if Covers(rows[i].from, rows[i].until, t) {
      j := i;
    } else {
      assert Continued(rows, i);
      var k :| i < k < |rows| && rows[k].ref == rows[i].ref && rows[k].from == rows[i].until.value;
      j := OneRowInForce(rows, k, t);
    }
  }

  // A snapshot leaves the past as it was, and the state now in force within a cent of it.
  lemma WriteKeepsThePast(rows: seq<StateRow>, s: Snapshot)
    requires Tiled(rows) && Before(rows, s.ref, s.asOf)
    ensures var after := Write(rows, s);
            && |rows| <= |after|
            && (forall i, t :: 0 <= i < |rows| && t < s.asOf ==>
                  (Covers(after[i].from, after[i].until, t) <==> Covers(rows[i].from, rows[i].until, t)))
            && (forall i :: 0 <= i < |rows| ==> after[i] == rows[i].(lastSync := after[i].lastSync,
               until := after[i].until))
            && (forall i, t :: |rows| <= i < |after| && t < s.asOf ==> !Covers(after[i].from, after[i].until, t))
            && exists i :: 0 <= i < |after| && after[i].ref == s.ref && after[i].until == None
                           && after[i].lastSync == s.asOf && WithinACent(after[i], s)
  {
    var i := LatestOpen(rows, s.ref, |rows|);
    var after := Write(rows, s);
    var j := if i < |rows| && SameValues(rows[i], s) then i else |rows|;
    assert after[j].ref == s.ref && after[j].until == None && after[j].lastSync == s.asOf && WithinACent(after[j], s);
  }

  // The row says the same of the account as the snapshot, to the cent.
  predicate WithinACent(r: StateRow, s: Snapshot) {
    && r.accountId == s.accountId
    && s.cash - 0.01 <= r.cash <= s.cash + 0.01 && s.equity - 0.01 <= r.equity <= s.equity + 0.01
  }

  // Of several open rows of an account, one synced last.
  ghost predicate LastSynced(rows: seq<StateRow>, ref: Account, i: nat) {
    && i < |rows| && rows[i].ref == ref && rows[i].until == None
    && forall j :: 0 <= j < |rows| && rows[j].ref == ref && rows[j].until == None ==>
         rows[j].lastSync < rows[i].lastSync || (rows[j].lastSync == rows[i].lastSync && i <= j)
  }

  lemma {:induction false} LatestIsLastSynced(rows: seq<StateRow>, ref: Account, n: nat)
    requires n <= |rows|
    ensures var i := LatestOpen(rows, ref, n);
            i < |rows| ==> forall j :: 0 <= j < n && rows[j].ref == ref && rows[j].until == None ==>
              rows[j].lastSync < rows[i].lastSync || (rows[j].lastSync == rows[i].lastSync && i <= j)
  {
    if n > 0 {
      LatestIsLastSynced(rows, ref, n - 1);
    }
  }

  // A snapshot within a cent of the account's open row only renews its time of syncing. Any other
  // closes that row, if there is one, and adds one with the snapshot's figures, under the old
  // row's identity. No other row changes.
  lemma SnapshotIsWritten(rows: seq<StateRow>, s: Snapshot)
    ensures var after := Write(rows, s);
            && (forall i: nat :: LastSynced(rows, s.ref, i) && WithinACent(rows[i], s) ==>
                  after == rows[i := rows[i].(lastSync := s.asOf)])
            && (forall i: nat :: LastSynced(rows, s.ref, i) && !WithinACent(rows[i], s) ==>
                  after == rows[i := rows[i].(until := Some(s.asOf))]
                           + [StateRow(s.ref, s.accountId, rows[i].who, s.cash, s.equity, s.asOf, s.asOf, None)])
            && ((forall i :: 0 <= i < |rows| && rows[i].ref == s.ref ==> rows[i].until.Some?) ==>
                  after == rows + [StateRow(s.ref, s.accountId, Identity(s.broker, s.mode, None, true, None), s.cash,
                                            s.equity, s.asOf, s.asOf, None)])
  {
    LatestIsLastSynced(rows, s.ref, |rows|);
    var k := LatestOpen(rows, s.ref, |rows|);
    forall i: nat | LastSynced(rows, s.ref, i)
      ensures i == k
    {
    }
  }

  // ---- Target allocations ------------------------------------------------------------------------------

  datatype Target = Target(ticker: Ticker, pct: real, low: real, high: real)
  datatype TargetRow = TargetRow(ref: Account, terms: Target, from: Time, until: Option<Time>)
  datatype Change = Change(ref: Account, at: Time, before: map<Ticker, real>, after: map<Ticker, real>, maxShift: real)

  // The rows, the hash of the configuration last loaded for each account, and the audit trail.
  datatype Targets = Targets(rows: seq<TargetRow>, hashes: map<Account, string>, changes: seq<Change>)

  predicate IsOpen(r: TargetRow, ref: Account) {
    r.ref == ref && r.until == None
  }

  // What is in force for an account, in order.
  function OpenTerms(rows: seq<TargetRow>, ref: Account): seq<Target> {
    if rows == [] then []
    else OpenTerms(rows[..|rows| - 1], ref) + if IsOpen(rows[|rows| - 1], ref) then [rows[|rows| - 1].terms] else []
  }

  function CloseOne(r: TargetRow, ref: Account, now: Time): TargetRow {
    if IsOpen(r, ref) then r.(until := Some(now)) else r
  }

  function CloseAll(rows: seq<TargetRow>, ref: Account, now: Time): (r: seq<TargetRow>)
    ensures |r| == |rows| && forall i :: 0 <= i < |r| ==> r[i] == CloseOne(rows[i], ref, now)
  {
    seq(|rows|, i requires 0 <= i < |rows| => CloseOne(rows[i], ref, now))
  }

  function NewRows(config: seq<Target>, ref: Account, now: Time): (r: seq<TargetRow>)
    ensures |r| == |config|
  {
    seq(|config|, i requires 0 <= i < |config| => TargetRow(ref, config[i], now, None))
  }

  // Percentages by ticker; of several entries of one ticker the last counts.
  function Pcts(config: seq<Target>): map<Ticker, real> {
    if config == [] then map[]
    else Pcts(config[..|config| - 1])[config[|config| - 1].ticker := config[|config| - 1].pct]
  }

  function PctOf(m: map<Ticker, real>, t: Ticker): real {
    if t in m then m[t] else 0.0
  }

  function Shifts(before: map<Ticker, real>, after: map<Ticker, real>): map<Ticker, real> {
    map t | t in before.Keys + after.Keys :: PctOf(after, t) - PctOf(before, t)
  }

  // The largest absolute shift is reached, and no shift is larger; 0 when there are none.
  ghost predicate IsMaxShift(x: real, shifts: map<Ticker, real>) {
    && (forall t :: t in shifts ==> Abs(shifts[t]) <= x)
    && (if shifts == map[] then x == 0.0 else exists t :: t in shifts && Abs(shifts[t]) == x)
  }

  method MaxShift(shifts: map<Ticker, real>) returns (x: real)
    ensures IsMaxShift(x, shifts)
  {
    x := 0.0;
    var left := shifts.Keys;
    ghost var best: Option<Ticker> := None;
    while left != {}
      invariant left <= shifts.Keys
      invariant forall t :: t in shifts && t !in left ==> Abs(shifts[t]) <= x
      invariant best == None ==> x == 0.0 && left == shifts.Keys
      invariant best.Some? ==> best.value in shifts && Abs(shifts[best.value]) == x
    {
      var t :| t in left;
      if Abs(shifts[t]) >= x {
        x, best := Abs(shifts[t]), Some(t);
      }
      left := left - {t};
    }
    if best.Some? {
      assert best.value in shifts && Abs(shifts[best.value]) == x;
    } else {
      assert shifts.Keys == {};
    }
  }

  function Load(s: Targets, ref: Account, config: seq<Target>, hash: string, now: Time, maxShift: real): Targets {
    if ref in s.hashes && s.hashes[ref] == hash then s
    else
      Targets(CloseAll(s.rows, ref, now) + NewRows(config, ref, now), s.hashes[ref := hash],
              s.changes + [Change(ref, now, Pcts(OpenTerms(s.rows, ref)), Pcts(config), maxShift)])
  }

  class TargetTable {
    var rows: seq<TargetRow>
    var hashes: map<Account, string>
    var changes: seq<Change>

    constructor ()
      ensures rows == [] && hashes == map[] && changes == []
    {
      rows, hashes, changes := [], map[], [];
    }

    ghost function Snap(): Targets
      reads this
    {
      Targets(rows, hashes, changes)
    }

    // The shift recorded with the latest change.
    ghost function LastShift(): real
      reads this
    {
      if changes == [] then 0.0 else changes[|changes| - 1].maxShift
    }

    // Closes the account's open rows and returns their percentages.
    method CloseOpenRows(ref: Account, now: Time) returns (before: map<Ticker, real>)
      modifies this`rows
      ensures rows == CloseAll(old(rows), ref, now)
      ensures before == Pcts(OpenTerms(old(rows), ref))
    {
      before := map[];
      ghost var found := rows;
      assert Pcts(OpenTerms(found[..0], ref)) == map[];
      hide Pcts, OpenTerms;
      for i := 0 to |rows|
        invariant |rows| == |found|
        invariant before == Pcts(OpenTerms(found[..i], ref))
        invariant forall k :: 0 <= k < i ==> rows[k] == CloseOne(found[k], ref, now)
        invariant forall k :: i <= k < |rows| ==> rows[k] == found[k]
      {
        OneMoreTerm(found, i, ref);
        if IsOpen(rows[i], ref) {
          before := before[rows[i].terms.ticker := rows[i].terms.pct];
          rows := rows[i := rows[i].(until := Some(now))];
        }
      }
      assert found[..|found|] == found;
    }

    // Idempotent by content hash. `updated` says whether anything was written.
    method LoadTargets(ref: Account, config: seq<Target>, hash: string, now: Time) returns (updated: bool)
      modifies this
      ensures updated <==> !(ref in old(hashes) && old(hashes)[ref] == hash)
      ensures Snap() == Load(old(Snap()), ref, config, hash, now, LastShift())
      ensures updated ==> IsMaxShift(LastShift(), Shifts(Pcts(OpenTerms(old(rows), ref)), Pcts(config)))
    {
      updated := !(ref in hashes && hashes[ref] == hash);
      if !updated {
        return;
      }
      var before := CloseOpenRows(ref, now);
      ghost var closed := rows;
      var after: map<Ticker, real> := map[];
      for i := 0 to |config|
        invariant hashes == old(hashes) && changes == old(changes)
        invariant after == Pcts(config[..i])
        invariant rows == closed + NewRows(config[..i], ref, now)
      {
        assert config[..i + 1][..i] == config[..i];
        rows := rows + [TargetRow(ref, config[i], now, None)];
        after := after[config[i].ticker := config[i].pct];
      }
      assert config[..|config|] == config;
      hashes := hashes[ref := hash];
      var x := MaxShift(Shifts(before, after));
      changes := changes + [Change(ref, now, before, after, x)];
    }
  }

  lemma OneMoreTerm(rows: seq<TargetRow>, i: nat, ref: Account)
    requires i < |rows|
    ensures OpenTerms(rows[..i + 1], ref) ==
            if IsOpen(rows[i], ref) then OpenTerms(rows[..i], ref) + [rows[i].terms] else OpenTerms(rows[..i], ref)
  {
    assert rows[..i + 1][..i] == rows[..i];
  }

  lemma {:induction false} ClosedTerms(rows: seq<TargetRow>, ref: Account, now: Time, other: Account)
    ensures OpenTerms(CloseAll(rows, ref, now), other) == if other == ref then [] else OpenTerms(rows, other)
  {
    if rows != [] {
      var n := |rows| - 1;
      ClosedTerms(rows[..n], ref, now, other);
      assert CloseAll(rows, ref, now)[..n] == CloseAll(rows[..n], ref, now);
    }
  }

  lemma {:induction false} AddedTerms(rows: seq<TargetRow>, config: seq<Target>, ref: Account, now: Time,
                                      other: Account)
    ensures OpenTerms(rows + NewRows(config, ref, now), other) == OpenTerms(rows, other) + if other == ref then config
            else []
  {
    if config == [] {
      assert rows + NewRows(config, ref, now) == rows;
    } else {
      var n := |config| - 1;
      AddedTerms(rows, config[..n], ref, now, other);
      assert (rows + NewRows(config, ref, now))[..|rows| + n] == rows + NewRows(config[..n], ref, now);
      assert config == config[..n] + [config[n]];
    }
  }

  // The open rows of an account are the configuration its stored hash stands for.
  ghost predicate InStep(s: Targets, content: string -> seq<Target>) {
    forall ref :: ref in s.hashes ==> OpenTerms(s.rows, ref) == content(s.hashes[ref])
  }

  // After a load the account's open rows are the configuration loaded; no other account's
  // open rows change.
  lemma LoadInstalls(s: Targets, content: string -> seq<Target>, ref: Account, hash: string, now: Time, maxShift: real)
    requires InStep(s, content)
    ensures var after := Load(s, ref, content(hash), hash, now, maxShift);
            && InStep(after, content)
            && OpenTerms(after.rows, ref) == content(hash)
            && (forall other :: other != ref ==> OpenTerms(after.rows, other) == OpenTerms(s.rows, other))
            && Load(after, ref, content(hash), hash, now + 1, maxShift) == after
  {
    var after := Load(s, ref, content(hash), hash, now, maxShift);
    if after != s {
      forall other
        ensures OpenTerms(after.rows, other) == if other == ref then content(hash) else OpenTerms(s.rows, other)
      {
        ClosedTerms(s.rows, ref, now, other);
        AddedTerms(CloseAll(s.rows, ref, now), content(hash), ref, now, other);
      }
    }
  }

  datatype Loading = Loading(ref: Account, hash: string, now: Time, maxShift: real)

  function LoadAll(s: Targets, content: string -> seq<Target>, loads: seq<Loading>): Targets {
    if loads == [] then s
    else
      var x := loads[|loads| - 1];
      Load(LoadAll(s, content, loads[..|loads| - 1]), x.ref, content(x.hash), x.hash, x.now, x.maxShift)
  }

  // Index of the last load for an account; |loads| if there is none.
  function LastLoad(loads: seq<Loading>, ref: Account, n: nat): (r: nat)
    requires n <= |loads|
    ensures r < n || r == |loads|
    ensures r < |loads| ==> loads[r].ref == ref && forall i :: r < i < n ==> loads[i].ref != ref
    ensures r == |loads| ==> forall i :: 0 <= i < n ==> loads[i].ref != ref
  {
    if n == 0 then |loads| else if loads[n - 1].ref == ref then n - 1 else LastLoad(loads, ref, n - 1)
  }

  // Over any run of loads, an account's open rows are exactly its last loaded configuration.
  lemma {:induction false} LastLoadIsInForce(s: Targets, content: string -> seq<Target>, loads: seq<Loading>,
                                             ref: Account)
    requires InStep(s, content)
    ensures var after := LoadAll(s, content, loads);
            && InStep(after, content)
            && var i := LastLoad(loads, ref, |loads|);
            OpenTerms(after.rows, ref) == if i < |loads| then content(loads[i].hash) else OpenTerms(s.rows, ref)
  {
    hide Load, InStep, OpenTerms;
    if loads != [] {
      var n := |loads| - 1;
      var before := LoadAll(s, content, loads[..n]);
      assert LoadAll(s, content, loads) == Load(before, loads[n].ref, content(loads[n].hash), loads[n].hash,
          loads[n].now, loads[n].maxShift);
      hide LoadAll;
      LastLoadIsInForce(s, content, loads[..n], ref);
      LoadInstalls(before, content, loads[n].ref, loads[n].hash, loads[n].now, loads[n].maxShift);
      if loads[n].ref != ref {
      }
    }
  }

  // A load rewrites no terms and leaves what was in force before it in force then.
  lemma LoadKeepsThePast(s: Targets, ref: Account, config: seq<Target>, hash: string, now: Time, maxShift: real)
    requires forall i :: 0 <= i < |s.rows| ==> s.rows[i].from <= now
    ensures var after := Load(s, ref, config, hash, now, maxShift);
            && |s.rows| <= |after.rows|
            && (forall i :: 0 <= i < |after.rows| ==> after.rows[i].from <= now)
            && (forall i :: 0 <= i < |s.rows| ==> after.rows[i] == s.rows[i].(until := after.rows[i].until))
            && (forall i, t :: 0 <= i < |s.rows| && t < now ==>
                  (Covers(after.rows[i].from, after.rows[i].until, t) <==> Covers(s.rows[i].from, s.rows[i].until, t)))
            && (forall i, t :: |s.rows| <= i < |after.rows| && t < now ==>
               !Covers(after.rows[i].from, after.rows[i].until, t))
  {
  }

  // The shifts recorded for a change turn the old percentages into the new ones.
  lemma ShiftsExplain(before: map<Ticker, real>, after: map<Ticker, real>, t: Ticker)
    ensures PctOf(before, t) + PctOf(Shifts(before, after), t) == PctOf(after, t)
    ensures t in Shifts(before, after) <==> t in before || t in after
  {
  }
}
