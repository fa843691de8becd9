// The submissions of a run, read off the history of broker calls.
module Submissions {
  import opened Options
  import opened OrderIds
  import opened Trading
  import opened Broker
  import opened AutoTrade
  import opened Consistency
  import opened PassSafety
  import opened Ledger
  import opened Reconciliation
  import opened Runs

  // The pass goes on from the state before its j-th turn as if it had started there.
  lemma {:induction false} BeforeIsOnThePass(s: State, a: Account, mode: Mode, ids: seq<nat>, j: nat,
                                             caps: Option<Caps>, now: Time) returns (outcomes: seq<Outcome>)
    requires AllKnown(s, ids) && j <= |ids| && Before(s, a, mode, ids, j, caps, now).Some?
    ensures |outcomes| == j
    ensures PassFrom(s, a, mode, ids, 0, caps, now, []) ==
            PassFrom(Before(s, a, mode, ids, j, caps, now).value, a, mode, ids, j, caps, now, outcomes)
  {
    hide Process;
    outcomes := [];
    if j > 0 {
      outcomes := BeforeIsOnThePass(s, a, mode, ids, j - 1, caps, now);
      var s1 := Before(s, a, mode, ids, j - 1, caps, now).value;
      outcomes := outcomes + [Process(s1, a, mode, ids[j - 1], caps, now).outcome];
    }
  }

  // Turn j of a live pass: its suggestion and the state in which the guards let it through.
  function Cleared(s: State, a: Account, caps: Option<Caps>, now: Time, j: nat): Option<(State, nat)> {
    var ids := Fetch(s, a, now);
    if j >= |ids| || Before(s, a, Live, ids, j, caps, now) == None then None
    else
      var (s2, v) := Guards(Before(s, a, Live, ids, j, caps, now).value, a, Live, ids[j], caps, now);
      if v == Go then Some((s2, ids[j])) else None
  }

  // Call k was made from state s (at most one order was read in between) and submits under
  // the next id of suggestion n.
  predicate Asks(s: State, n: nat, a: Account, calls: seq<Call>, k: nat) {
    && |s.world.calls| <= k <= |s.world.calls| + 1 && k < |calls|
    && calls[k] == SubmitCall(a, Print(n, NextRetry(s.rows, n)))
  }

  predicate Unused(rows: seq<Row>, id: string) {
    forall i :: 0 <= i < |rows| && !rows[i].dryRun ==> rows[i].clientId != Some(id)
  }

  lemma SubmitFreshAsks(s: State, a: Account, n: nat, now: Time)
    requires Known(s.sugs, n)
    ensures var w := SubmitFresh(s, a, n, now).s.world;
            && s.world.calls <= w.calls
            && |s.world.calls| < |w.calls| && w.calls[|s.world.calls|] == SubmitCall(a, Print(n, NextRetry(s.rows, n)))
            && forall k :: |s.world.calls| < k < |w.calls| ==> !w.calls[k].SubmitCall?
  {
    hide SubmitOrder, GetOrder, Kill, NextRetry, Print;
  }

  lemma TurnAsks(s: State, a: Account, mode: Mode, n: nat, caps: Option<Caps>, now: Time)
    requires Known(s.sugs, n)
    ensures var calls := Process(s, a, mode, n, caps, now).s.world.calls;
            var (s2, v) := Guards(s, a, mode, n, caps, now);
            && s.world.calls <= calls
            && forall k :: |s.world.calls| <= k < |calls| && calls[k].SubmitCall? ==>
                 mode != DryRun && v == Go && Asks(s2, n, a, calls, k)
  {
    hide Guards, SubmitFresh, Newest, NextRetry, Print;
    var (s2, v) := Guards(s, a, mode, n, caps, now);
    if v == Go && mode != DryRun {
      var i := Newest(s2.rows, Readoptable(n), |s2.rows|);
      SubmitFreshAsks(s2, a, n, now);
      if i < |s2.rows| {
        var w1 := GetOrder(s2.world, a, s2.rows[i].orderId.value).0;
        assert w1.calls == s2.world.calls + [GetOrderCall(a, s2.rows[i].orderId.value)];
        SubmitFreshAsks(s2.(world := w1), a, n, now);
      }
    }
  }

  // Call k was made at turn j of a live pass from s, under an id no real row carried then.
  ghost predicate MadeAt(s: State, a: Account, caps: Option<Caps>, now: Time, j: nat, calls: seq<Call>, k: nat) {
    var c := Cleared(s, a, caps, now, j);
    c.Some? && Asks(c.value.0, c.value.1, a, calls, k) && Unused(c.value.0.rows,
        Print(c.value.1, NextRetry(c.value.0.rows, c.value.1)))
  }

  lemma ClearedIsUnused(s: State, a: Account, caps: Option<Caps>, now: Time, j: nat)
    requires Inv(s) && Cleared(s, a, caps, now, j).Some?
    ensures var (s2, n) := Cleared(s, a, caps, now, j).value; Unused(s2.rows, Print(n, NextRetry(s2.rows, n)))
  {
    hide Inv, Guards, Before;
    var ids := Fetch(s, a, now);
    BeforeKeeps(s, a, Live, ids, j, caps, now);
    var s1 := Before(s, a, Live, ids, j, caps, now).value;
    GuardsKeep(s1, a, Live, ids[j], caps, now);
    NextIdIsFresh(Guards(s1, a, Live, ids[j], caps, now).0, ids[j]);
  }

  lemma {:induction false} PassFromAsks(s: State, a: Account, mode: Mode, j: nat, caps: Option<Caps>, now: Time,
                                        outcomes: seq<Outcome>)
    requires Inv(s) && mode != Off
    requires j <= |Fetch(s, a, now)| && Before(s, a, mode, Fetch(s, a, now), j, caps, now).Some?
    ensures var s1 := Before(s, a, mode, Fetch(s, a, now), j, caps, now).value;
            var calls := PassFrom(s1, a, mode, Fetch(s, a, now), j, caps, now, outcomes).s.world.calls;
            && s1.world.calls <= calls
            && forall k :: |s1.world.calls| <= k < |calls| && calls[k].SubmitCall? ==>
                 mode == Live && exists i :: MadeAt(s, a, caps, now, i, calls, k)
    decreases |Fetch(s, a, now)| - j
  {
    hide Process, Inv, Guards, Fetch, Asks, Unused, NextRetry, Print;
    var ids := Fetch(s, a, now);
    var s1 := Before(s, a, mode, ids, j, caps, now).value;
    if j < |ids| {
      TurnAsks(s1, a, mode, ids[j], caps, now);
      var t := Process(s1, a, mode, ids[j], caps, now);
      var calls := PassFrom(s1, a, mode, ids, j, caps, now, outcomes).s.world.calls;
      if t.Turn? && !t.stop {
        PassFromAsks(s, a, mode, j + 1, caps, now, outcomes + [t.outcome]);
      }
      forall k | |s1.world.calls| <= k < |t.s.world.calls| && calls[k].SubmitCall?
        ensures mode == Live && MadeAt(s, a, caps, now, j, calls, k)
      {
        assert t.s.world.calls[k] == calls[k];
        AsksLater(Guards(s1, a, mode, ids[j], caps, now).0, ids[j], a, t.s.world.calls, calls, k);
        ClearedIsUnused(s, a, caps, now, j);
      }
    }
  }

  lemma AsksLater(s: State, n: nat, a: Account, calls: seq<Call>, calls': seq<Call>, k: nat)
    requires Asks(s, n, a, calls, k) && calls <= calls'
    ensures Asks(s, n, a, calls', k)
  {
  }

  // Every submission of a pass is made at a turn of the live pass that got past the guards,
  // under an id no real row of any suggestion carries at that moment.
  lemma PassSubmissionsAreFresh(s: State, a: Account, caps: Option<Caps>, now: Time)
    requires Inv(s)
    ensures var calls := Pass(s, a, caps, now).s.world.calls;
            && s.world.calls <= calls
            && forall k :: |s.world.calls| <= k < |calls| && calls[k].SubmitCall? ==>
                 ModeOf(s.modes, a) == Live && exists j :: MadeAt(s, a, caps, now, j, calls, k)
  {
    hide PassFrom, Inv, Fetch, MadeAt;
    if ModeOf(s.modes, a) != Off {
      PassFromAsks(s, a, ModeOf(s.modes, a), 0, caps, now, []);
    }
  }

  // Steps that are not passes submit nothing.
  lemma OnlyPassesSubmit(s: State, step: Step)
    requires !step.Passes?
    ensures NoSubmits(s.world.calls, Apply(s, step).world.calls)
  {
    hide Kill, Pass, SweepAccepted, CancelAllFrom, ResetFrom, DropFrom, CancelWorking, PersistFrom;
  }

  // Call k of the run was made at turn j of step i, a pass on an account that is LIVE.
  ghost predicate MadeInRun(s: State, steps: seq<Step>, i: nat, j: nat, calls: seq<Call>, k: nat) {
    && i < |steps| && steps[i].Passes?
    && var now := Run(s, steps[..i]);
    && ModeOf(now.modes, steps[i].a) == Live
    && MadeAt(now, steps[i].a, steps[i].caps, steps[i].now, j, calls, k)
  }

  lemma {:induction false} RunSubmits(s: State, steps: seq<Step>, k: nat) returns (i: nat, j: nat)
    requires Inv(s) && Lawful(s, steps)
    ensures s.world.calls <= Run(s, steps).world.calls
    ensures var calls := Run(s, steps).world.calls;
            |s.world.calls| <= k < |calls| && calls[k].SubmitCall? ==> MadeInRun(s, steps, i, j, calls, k)
    decreases |steps|
  {
    hide Inv, Apply, Enabled, MadeAt;
    i, j := 0, 0;
    if steps != [] {
      var s1 := Apply(s, steps[0]);
      var calls := Run(s, steps).world.calls;
      StepKeeps(s, steps[0]);
      StepCalls(s, steps[0]);
      var i1, j1 := RunSubmits(s1, steps[1..], k);
      if k < |s1.world.calls| {
        if |s.world.calls| <= k && calls[k].SubmitCall? {
          assert s1.world.calls[k] == calls[k];
          j :| MadeAt(s, steps[0].a, steps[0].caps, steps[0].now, j, s1.world.calls, k);
          MadeLater(s, steps[0].a, steps[0].caps, steps[0].now, j, s1.world.calls, calls, k);
          assert steps[..0] == [];
        }
      } else {
        i, j := i1 + 1, j1;
        if k < |calls| && calls[k].SubmitCall? {
          assert steps[..i][1..] == steps[1..][..i1] && steps[..i][0] == steps[0];
        }
      }
    }
  }

  lemma StepCalls(s: State, step: Step)
    requires Inv(s)
    ensures var calls := Apply(s, step).world.calls;
            && s.world.calls <= calls
            && forall k :: |s.world.calls| <= k < |calls| && calls[k].SubmitCall? ==>
                 && step.Passes? && ModeOf(s.modes, step.a) == Live
                 && exists j :: MadeAt(s, step.a, step.caps, step.now, j, calls, k)
  {
    hide Inv, MadeAt, Pass;
    if step.Passes? {
      PassSubmissionsAreFresh(s, step.a, step.caps, step.now);
      assert Apply(s, step) == Pass(s, step.a, step.caps, step.now).s;
    } else {
      OnlyPassesSubmit(s, step);
    }
  }

  lemma MadeLater(s: State, a: Account, caps: Option<Caps>, now: Time, j: nat, calls: seq<Call>, calls': seq<Call>,
                  k: nat)
    requires MadeAt(s, a, caps, now, j, calls, k) && calls <= calls'
    ensures MadeAt(s, a, caps, now, j, calls', k)
  {
    hide Cleared, Unused, Print, NextRetry;
  }

  // In every lawful run from the start of the system, every submission in the call history
  // was made by a live pass of the run, under an id that no real row of any suggestion
  // carried when the call was made.
  lemma SubmissionsAreFresh(s: State, steps: seq<Step>, k: nat)
    requires Initial(s) && Lawful(s, steps)
    requires |s.world.calls| <= k < |Run(s, steps).world.calls| && Run(s, steps).world.calls[k].SubmitCall?
    ensures exists i, j :: MadeInRun(s, steps, i, j, Run(s, steps).world.calls, k)
  {
    assert Inv(s);
    hide Inv, Lawful, Run, MadeInRun;
    var i, j := RunSubmits(s, steps, k);
  }
}
