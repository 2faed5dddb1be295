/** One simulation run: every tick first adds the channels in use at both
    towers to the occupancy totals, then lets every user take its tick in
    list order; afterwards the counters of the two towers are summed into
    the statistics record of the run. The run keeps the bookkeeping
    invariant that each tower has exactly as many channels in use as there
    are users connected to it, so a tower is never asked to release a
    channel it does not have. */
module Simulation {
  import opened Prelude
  import opened Towers
  import opened Cfg
  import opened Users

  /** The statistics record of one run. */
  datatype Stats = Stats(
    runtime: real,
    totalCallAttempts: nat,
    totalCallFailures: nat,
    totalFailNoSignal: nat,
    totalFailNoChannel: nat,
    totalHandoverSuccess: nat,
    totalHandoverFailures: nat,
    totalHandoverAttempts: nat,
    totalDropped: nat,
    totalFailedToConnect: nat,
    totalSavedBySecondary: nat,
    avgCallsBase: real,
    avgCallsCell: real)

  /** Number of users connected to the tower of type `kind`. */
  function Occupancy(states: seq<UserState>, kind: TowerType): (n: nat)
    ensures n <= |states|
  {
    if states == [] then 0 else Occupancy(states[..|states| - 1], kind) + Conn(states[|states| - 1], kind)
  }

  /** Replacing one user's state changes the occupancy by that user's hold only. */
  lemma {:induction false} OccupancyUpdate(states: seq<UserState>, j: nat, x: UserState, kind: TowerType)
    requires j < |states|
    ensures Occupancy(states[j := x], kind) + Conn(states[j], kind) == Occupancy(states, kind) + Conn(x, kind)
    decreases |states|
  {
    var n := |states| - 1;
    var updated := states[j := x];
    if j == n {
      assert updated[..n] == states[..n];
    } else {
      assert updated[..n] == states[..n][j := x];
      OccupancyUpdate(states[..n], j, x, kind);
    }
  }

  /** A user that holds a channel of a tower is counted in its occupancy. */
  lemma {:induction false} OccupancyCountsHolder(states: seq<UserState>, j: nat, kind: TowerType)
    requires j < |states| && states[j].connectedTo == Some(kind)
    ensures Occupancy(states, kind) > 0
    decreases |states|
  {
    var n := |states| - 1;
    if j < n {
      OccupancyCountsHolder(states[..n], j, kind);
    }
  }

  /** Nobody holds a channel before any call was made. */
  lemma {:induction false} IdleOccupancy(states: seq<UserState>, kind: TowerType)
    requires forall i :: 0 <= i < |states| ==> states[i].connectedTo == None
    ensures Occupancy(states, kind) == 0
    decreases |states|
  {
    if states != [] {
      IdleOccupancy(states[..|states| - 1], kind);
    }
  }

  /** The states of all users, in list order. */
  function UserStates(users: seq<User>): (r: seq<UserState>)
    reads users
    ensures |r| == |users| && forall i :: 0 <= i < |users| ==> r[i] == users[i].State()
  {
    seq(|users|, i requires 0 <= i < |users| reads users => users[i].State())
  }

  function Sum(s: seq<nat>): nat {
    if s == [] then 0 else Sum(s[..|s| - 1]) + s[|s| - 1]
  }

  lemma SumAppend(s: seq<nat>, x: nat)
    ensures Sum(s + [x]) == Sum(s) + x
  {
    assert (s + [x])[..|s|] == s;
  }

  /** The ten totals and the two averages of a run: each total is the
      base-station counter plus the small-cell counter. */
  function AddTower(acc: Stats, t: TowerState): Stats {
    acc.(totalCallAttempts := acc.totalCallAttempts + t.connectionsAttempts,
         totalCallFailures := acc.totalCallFailures + (t.blockedNoSig + t.blockedNoChan),
         totalFailNoSignal := acc.totalFailNoSignal + t.blockedNoSig,
         totalFailNoChannel := acc.totalFailNoChannel + t.blockedNoChan,
         totalHandoverSuccess := acc.totalHandoverSuccess + t.handoverSuccess,
         totalHandoverFailures := acc.totalHandoverFailures + t.handoverFailure,
         totalHandoverAttempts := acc.totalHandoverAttempts + t.handoverAttempt,
         totalDropped := acc.totalDropped + t.dropped,
         totalFailedToConnect := acc.totalFailedToConnect + t.failedToConnect,
         totalSavedBySecondary := acc.totalSavedBySecondary + t.savedBySecondary)
  }

  /** The record with every total at zero. */
  function NoTotals(runtime: real, avgBase: real, avgCell: real): Stats {
    Stats(runtime, 0, 0, 0, 0, 0, 0, 0, 0, 0, 0, avgBase, avgCell)
  }

  /** The totals over the towers in `towers`, in order. */
  function Accumulated(towers: seq<TowerState>, runtime: real, avgBase: real, avgCell: real): Stats {
    if towers == [] then NoTotals(runtime, avgBase, avgCell)
    else AddTower(Accumulated(towers[..|towers| - 1], runtime, avgBase, avgCell), towers[|towers| - 1])
  }

  /** The summary loop over `[base_station, small_cell]`. */
  method Summarize(base: TowerState, small: TowerState, runtime: real, avgBase: real, avgCell: real)
    returns (s: Stats)
    ensures s.runtime == runtime && s.avgCallsBase == avgBase && s.avgCallsCell == avgCell
    ensures s.totalCallAttempts == base.connectionsAttempts + small.connectionsAttempts
    ensures s.totalFailNoSignal == base.blockedNoSig + small.blockedNoSig
    ensures s.totalFailNoChannel == base.blockedNoChan + small.blockedNoChan
    ensures s.totalHandoverSuccess == base.handoverSuccess + small.handoverSuccess
    ensures s.totalHandoverFailures == base.handoverFailure + small.handoverFailure
    ensures s.totalHandoverAttempts == base.handoverAttempt + small.handoverAttempt
    ensures s.totalDropped == base.dropped + small.dropped
    ensures s.totalFailedToConnect == base.failedToConnect + small.failedToConnect
    ensures s.totalSavedBySecondary == base.savedBySecondary + small.savedBySecondary
    // every failed call attempt was refused for exactly one of the two reasons
    ensures s.totalCallFailures == s.totalFailNoSignal + s.totalFailNoChannel
    ensures s == Accumulated([base, small], runtime, avgBase, avgCell)
  {
    var towers := [base, small];
    s := NoTotals(runtime, avgBase, avgCell);
    var n := 0;
    while n < |towers|
      invariant 0 <= n <= |towers|
      invariant s == Accumulated(towers[..n], runtime, avgBase, avgCell)
    {
      assert towers[..n + 1][..n] == towers[..n];
      s := AddTower(s, towers[n]);
      n := n + 1;
    }
    assert towers[..2] == towers;
    assert towers[..1] == [base];
    assert [base][..0] == [];
  }

  /** The bookkeeping invariant on values: each tower has exactly as many
      channels in use as there are users connected to it. */
  predicate BalancedStates(states: seq<UserState>, base: TowerState, small: TowerState) {
    base.channelsInUse == Occupancy(states, BaseStation) &&
    small.channelsInUse == Occupancy(states, SmallCell)
  }

  /** The bookkeeping invariant on the objects of a run. */
  predicate Balanced(base: Tower, small: Tower, users: seq<User>)
    reads base, small, users
  {
    BalancedStates(UserStates(users), base.State(), small.State())
  }

  /** A balanced tower owes a channel to each user connected to it. */
  lemma BalancedHolds(states: seq<UserState>, j: nat, base: TowerState, small: TowerState)
    requires j < |states| && BalancedStates(states, base, small)
    ensures Holds(states[j], base, small)
  {
    if states[j].connectedTo == Some(BaseStation) {
      OccupancyCountsHolder(states, j, BaseStation);
    }
    if states[j].connectedTo == Some(SmallCell) {
      OccupancyCountsHolder(states, j, SmallCell);
    }
  }

  /** One user's tick keeps the towers balanced against all users. */
  lemma TickKeepsBalance(g: Geometry, p: UserParams, states: seq<UserState>, j: nat,
                         base: TowerState, small: TowerState, d: Draws)
    requires j < |states| && base.kind == BaseStation && small.kind == SmallCell
    requires BalancedStates(states, base, small) && Holds(states[j], base, small)
    ensures var t := Tick(g, p, states[j], base, small, d);
      BalancedStates(states[j := t.user], t.base, t.small)
  {
    var t := Tick(g, p, states[j], base, small, d);
    OccupancyUpdate(states, j, t.user, BaseStation);
    OccupancyUpdate(states, j, t.user, SmallCell);
  }

  /** The parameters of all users, in list order. */
  function ParamsOf(users: seq<User>): (r: seq<UserParams>)
    ensures |r| == |users| && forall i :: 0 <= i < |users| ==> r[i] == users[i].Params()
  {
    seq(|users|, i requires 0 <= i < |users| => users[i].Params())
  }

  /** The users and the two towers after some users have ticked. */
  datatype Round = Round(users: seq<UserState>, base: TowerState, small: TowerState, outcome: Outcome<Raised>)

  /** `for u in users: u.on_timestep(...)` from user `j` on: every user
      ticks in list order, and the first exception ends the round with the
      state reached by then. */
  function TickUsers(g: Geometry, params: seq<UserParams>, states: seq<UserState>,
                     base: TowerState, small: TowerState, ds: seq<Draws>, j: nat): (r: Round)
    requires |params| == |states| == |ds| && j <= |states|
    requires base.kind == BaseStation && small.kind == SmallCell
    requires BalancedStates(states, base, small)
    ensures |r.users| == |states| && BalancedStates(r.users, r.base, r.small)
    ensures r.base.kind == BaseStation && r.small.kind == SmallCell
    ensures base.Valid() && small.Valid() ==> r.base.Valid() && r.small.Valid()
    ensures r.outcome.Fail? ==> r.outcome.error == InitializationError
    // users before the cursor have taken their tick already
    ensures forall i :: 0 <= i < j ==> r.users[i] == states[i]
    decreases |states| - j
  {
    if j == |states| then Round(states, base, small, Pass)
    else
      BalancedHolds(states, j, base, small);
      var t := Tick(g, params[j], states[j], base, small, ds[j]);
      TickKeepsBalance(g, params[j], states, j, base, small, ds[j]);
      var next := states[j := t.user];
      if t.outcome.Fail? then Round(next, t.base, t.small, t.outcome)
      else TickUsers(g, params, next, t.base, t.small, ds, j + 1)
  }

  /** The ticks of a run so far: `trace[t]` holds the user states at the
      start of tick `t`, `occBase[t]`, `occCell[t]` the channels in use that
      tick adds to the occupancy totals `totBase`, `totCell`. */
  datatype Run = Run(trace: seq<seq<UserState>>, occBase: seq<nat>, occCell: seq<nat>,
                     totBase: nat, totCell: nat,
                     users: seq<UserState>, base: TowerState, small: TowerState, outcome: Outcome<Raised>)

  /** One draw record per user at every tick. */
  predicate DrawsFor(n: nat, ds: seq<seq<Draws>>) {
    forall i :: 0 <= i < |ds| ==> |ds[i]| == n
  }

  /** A run so far that the remaining ticks can continue: a parameter record
      and a draw per user and tick, the towers of their kinds and balanced,
      and one recorded occupancy per recorded tick. */
  predicate Fits(params: seq<UserParams>, ds: seq<seq<Draws>>, acc: Run) {
    |params| == |acc.users| && DrawsFor(|params|, ds) &&
    acc.base.kind == BaseStation && acc.small.kind == SmallCell &&
    BalancedStates(acc.users, acc.base, acc.small) &&
    |acc.trace| == |acc.occBase| == |acc.occCell|
  }

  /** `for i in range(...)` from tick `t` on, with `acc` the run so far:
      each tick first records the channels in use at both towers, then lets
      all users tick; the first exception ends the run. */
  function RunFrom(g: Geometry, params: seq<UserParams>, ds: seq<seq<Draws>>, t: nat, acc: Run): (r: Run)
    requires t <= |ds| && Fits(params, ds, acc)
    ensures |r.trace| == |r.occBase| == |r.occCell|
    ensures |acc.trace| <= |r.trace| <= |acc.trace| + (|ds| - t)
    ensures r.outcome.Pass? ==> |r.trace| == |acc.trace| + (|ds| - t)
    ensures r.outcome.Fail? && t < |ds| ==> |acc.trace| < |r.trace| && r.outcome.error == InitializationError
    // earlier ticks stay as they were; tick `t` starts from the current users
    ensures forall i :: 0 <= i < |acc.trace| ==> r.trace[i] == acc.trace[i]
    ensures t < |ds| ==> r.trace[|acc.trace|] == acc.users
    ensures |r.users| == |acc.users| && BalancedStates(r.users, r.base, r.small)
    ensures r.base.kind == BaseStation && r.small.kind == SmallCell
    ensures acc.base.Valid() && acc.small.Valid() ==> r.base.Valid() && r.small.Valid()
    decreases |ds| - t
  {
    if t == |ds| then acc
    else
      var next := NextRun(g, params, ds, t, acc);
      if next.outcome.Fail? then next else RunFrom(g, params, ds, t + 1, next)
  }

  /** The tick loop of `simulate` over all of `draws`, from the given users
      and towers. */
  function RunTicks(g: Geometry, params: seq<UserParams>, states: seq<UserState>,
                    base: TowerState, small: TowerState, draws: seq<seq<Draws>>): (r: Run)
    requires |params| == |states| && forall t :: 0 <= t < |draws| ==> |draws[t]| == |states|
    requires base.kind == BaseStation && small.kind == SmallCell
    requires BalancedStates(states, base, small)
    ensures |r.trace| == |r.occBase| == |r.occCell| <= |draws|
    ensures r.outcome.Pass? ==> |r.trace| == |draws|
    ensures r.outcome.Fail? ==> 1 <= |r.trace| && r.outcome.error == InitializationError
    ensures 1 <= |r.trace| ==> r.trace[0] == states
    ensures |r.users| == |states| && BalancedStates(r.users, r.base, r.small)
    ensures r.base.kind == BaseStation && r.small.kind == SmallCell
    ensures base.Valid() && small.Valid() ==> r.base.Valid() && r.small.Valid()
  {
    RunFrom(g, params, draws, 0, Run([], [], [], 0, 0, states, base, small, Pass))
  }

  /** Every recorded occupancy is the number of users in the recorded states
      that hold a channel of that tower. */
  predicate Recorded(r: Run) {
    |r.occBase| == |r.trace| && |r.occCell| == |r.trace| &&
    forall t :: 0 <= t < |r.trace| ==>
      r.occBase[t] == Occupancy(r.trace[t], BaseStation) && r.occCell[t] == Occupancy(r.trace[t], SmallCell)
  }

  /** The totals are the sums of the recorded occupancies. */
  predicate Totalled(r: Run) {
    r.totBase == Sum(r.occBase) && r.totCell == Sum(r.occCell)
  }

  /** The run after tick `t`, when `t` is not the last. */
  function NextRun(g: Geometry, params: seq<UserParams>, ds: seq<seq<Draws>>, t: nat, acc: Run): (next: Run)
    requires t < |ds| && Fits(params, ds, acc)
    ensures Fits(params, ds, next)
    ensures next.trace == acc.trace + [acc.users]
    ensures next.occBase == acc.occBase + [acc.base.channelsInUse] && next.occCell == acc.occCell + [acc.small.channelsInUse]
    ensures next.totBase == acc.totBase + acc.base.channelsInUse && next.totCell == acc.totCell + acc.small.channelsInUse
    ensures |next.users| == |acc.users|
  {
    var rd := TickUsers(g, params, acc.users, acc.base, acc.small, ds[t], 0);
    Run(acc.trace + [acc.users], acc.occBase + [acc.base.channelsInUse],
        acc.occCell + [acc.small.channelsInUse], acc.totBase + acc.base.channelsInUse,
        acc.totCell + acc.small.channelsInUse, rd.users, rd.base, rd.small, rd.outcome)
  }

  /** One tick of a run: either it raises and the run ends with it, or the
      run goes on from the next tick. */
  lemma RunFromStep(g: Geometry, params: seq<UserParams>, ds: seq<seq<Draws>>, t: nat, acc: Run)
    requires t < |ds| && Fits(params, ds, acc)
    ensures var next := NextRun(g, params, ds, t, acc);
      RunFrom(g, params, ds, t, acc) == if next.outcome.Fail? then next else RunFrom(g, params, ds, t + 1, next)
  {
  }

  /** Recording keeps going: every tick from `t` on records the occupancies
      of the users it starts from. */
  lemma {:induction false} RunFromRecords(g: Geometry, params: seq<UserParams>, ds: seq<seq<Draws>>, t: nat, acc: Run)
    requires t <= |ds| && Fits(params, ds, acc) && Recorded(acc)
    ensures Recorded(RunFrom(g, params, ds, t, acc))
    decreases |ds| - t
  {
    if t < |ds| {
      var next := NextRun(g, params, ds, t, acc);
      NextRunRecords(g, params, ds, t, acc);
      if next.outcome.Pass? {
        RunFromRecords(g, params, ds, t + 1, next);
      }
      StepKeepsRecords(g, params, ds, t, acc);
    } else {
      assert RunFrom(g, params, ds, t, acc) == acc;
    }
  }

  /** A run whose next tick is recorded, and whose rest is recorded when
      there is one, is recorded. */
  lemma StepKeepsRecords(g: Geometry, params: seq<UserParams>, ds: seq<seq<Draws>>, t: nat, acc: Run)
    requires t < |ds| && Fits(params, ds, acc) && Recorded(NextRun(g, params, ds, t, acc))
    requires var next := NextRun(g, params, ds, t, acc);
      next.outcome.Pass? ==> Recorded(RunFrom(g, params, ds, t + 1, next))
    ensures Recorded(RunFrom(g, params, ds, t, acc))
  {
    RunFromStep(g, params, ds, t, acc);
  }

  /** The occupancies a tick records are those of the users it starts from. */
  lemma NextRunRecords(g: Geometry, params: seq<UserParams>, ds: seq<seq<Draws>>, t: nat, acc: Run)
    requires t < |ds| && Fits(params, ds, acc) && Recorded(acc)
    ensures Recorded(NextRun(g, params, ds, t, acc))
  {
    var next := NextRun(g, params, ds, t, acc);
    var n := |acc.trace|;
    assert forall i :: 0 <= i < n ==>
      next.trace[i] == acc.trace[i] && next.occBase[i] == acc.occBase[i] && next.occCell[i] == acc.occCell[i];
    assert next.trace[n] == acc.users;
  }

  /** The running totals stay the sums of the recorded occupancies. */
  lemma {:induction false} RunFromTotals(g: Geometry, params: seq<UserParams>, ds: seq<seq<Draws>>, t: nat, acc: Run)
    requires t <= |ds| && Fits(params, ds, acc) && Totalled(acc)
    ensures Totalled(RunFrom(g, params, ds, t, acc))
    decreases |ds| - t
  {
    if t < |ds| {
      var next := NextRun(g, params, ds, t, acc);
      SumAppend(acc.occBase, acc.base.channelsInUse);
      SumAppend(acc.occCell, acc.small.channelsInUse);
      RunFromStep(g, params, ds, t, acc);
      if next.outcome.Pass? {
        RunFromTotals(g, params, ds, t + 1, next);
      }
    }
  }

  /** What each tick of a run adds to the occupancy totals is the number of
      users holding a channel of that tower at the start of the tick, and the
      totals are the sums of what the ticks added. */
  lemma RunTicksRecordsOccupancy(g: Geometry, params: seq<UserParams>, states: seq<UserState>,
                                 base: TowerState, small: TowerState, draws: seq<seq<Draws>>)
    requires |params| == |states| && forall t :: 0 <= t < |draws| ==> |draws[t]| == |states|
    requires base.kind == BaseStation && small.kind == SmallCell
    requires BalancedStates(states, base, small)
    ensures var r := RunTicks(g, params, states, base, small, draws);
      forall t :: 0 <= t < |r.trace| ==>
        r.occBase[t] == Occupancy(r.trace[t], BaseStation) && r.occCell[t] == Occupancy(r.trace[t], SmallCell)
    ensures var r := RunTicks(g, params, states, base, small, draws);
      r.totBase == Sum(r.occBase) && r.totCell == Sum(r.occCell)
  {
    RunFromRecords(g, params, draws, 0, Run([], [], [], 0, 0, states, base, small, Pass));
    RunFromTotals(g, params, draws, 0, Run([], [], [], 0, 0, states, base, small, Pass));
  }

  /** Ticks of a run before the `for` loop ends; a negative count runs none. */
  function TickCount(iterations: int): nat {
    if iterations < 0 then 0 else iterations
  }

  /** The tick loop of `simulate`, one tick per entry of `ds`, returning the
      occupancy totals. `occBase` and `occCell` are the occupancies added at
      each tick. */
  method TickLoop(base: Tower, small: Tower, users: seq<User>, g: Geometry, ds: seq<seq<Draws>>)
    returns (outcome: Outcome<Raised>, totBase: nat, totCell: nat, ghost occBase: seq<nat>, ghost occCell: seq<nat>)
    requires base != small && base.towerType == BaseStation && small.towerType == SmallCell
    requires forall i, j :: 0 <= i < j < |users| ==> users[i] != users[j]
    requires forall t :: 0 <= t < |ds| ==> |ds[t]| == |users|
    requires Balanced(base, small, users)
    modifies base, small, users
    ensures var run := RunTicks(g, ParamsOf(users), old(UserStates(users)), old(base.State()), old(small.State()), ds);
      UserStates(users) == run.users && base.State() == run.base && small.State() == run.small &&
      occBase == run.occBase && occCell == run.occCell && outcome == run.outcome &&
      totBase == run.totBase && totCell == run.totCell
    ensures Balanced(base, small, users)
  {
    ghost var params := ParamsOf(users);
    ghost var run0 := RunTicks(g, params, UserStates(users), base.State(), small.State(), ds);
    ghost var acc := Run([], [], [], 0, 0, UserStates(users), base.State(), small.State(), Pass);
    totBase, totCell := 0, 0;
    outcome := Pass;
    for t := 0 to |ds|
      invariant Fits(params, ds, acc)
      invariant outcome == acc.outcome == Pass
      invariant totBase == acc.totBase && totCell == acc.totCell
      invariant UserStates(users) == acc.users && base.State() == acc.base && small.State() == acc.small
      invariant RunFrom(g, params, ds, t, acc) == run0
    {
      RunFromStep(g, params, ds, t, acc);
      outcome, totBase, totCell, acc := RecordTick(base, small, users, g, ds, t, params, acc, totBase, totCell);
      if outcome.Fail? {
        assert acc == run0;
        break;
      }
    }
    occBase, occCell := acc.occBase, acc.occCell;
  }

  /** One pass of the tick loop: add the channels in use to the totals, then
      let every user tick. `acc` is the run so far, `next` the run after it. */
  method RecordTick(base: Tower, small: Tower, users: seq<User>, g: Geometry, ds: seq<seq<Draws>>, t: nat,
                    ghost params: seq<UserParams>, ghost acc: Run, totBase: nat, totCell: nat)
    returns (outcome: Outcome<Raised>, totBase': nat, totCell': nat, ghost next: Run)
    requires base != small && base.towerType == BaseStation && small.towerType == SmallCell
    requires forall i, j :: 0 <= i < j < |users| ==> users[i] != users[j]
    requires t < |ds| && params == ParamsOf(users) && Fits(params, ds, acc)
    requires UserStates(users) == acc.users && base.State() == acc.base && small.State() == acc.small
    requires totBase == acc.totBase && totCell == acc.totCell
    modifies base, small, users
    ensures next == NextRun(g, params, ds, t, acc)
    ensures outcome == next.outcome
    ensures UserStates(users) == next.users && base.State() == next.base && small.State() == next.small
    ensures totBase' == next.totBase && totCell' == next.totCell
  {
    totBase', totCell' := totBase + base.channelsInUse, totCell + small.channelsInUse;
    outcome := UsersTick(base, small, users, g, ds[t]);
    next := Run(acc.trace + [acc.users], acc.occBase + [acc.base.channelsInUse],
                acc.occCell + [acc.small.channelsInUse], totBase', totCell',
                UserStates(users), base.State(), small.State(), outcome);
  }

  /** `simulate(base_station, small_cell, users, geometry, sim_opts, cli_args)`
      with `draws[t][j]` the random draws and signal levels of user `j` at
      tick `t` and `runtime` the measured wall-clock time. The averages
      divide the occupancy totals by the last tick index, `iterations - 1`.
      `occBase` and `occCell` are the occupancies added at each tick. */
  method Simulate(base: Tower, small: Tower, users: seq<User>, g: Geometry, iterations: int,
                  draws: seq<seq<Draws>>, runtime: real)
    returns (r: Result<Stats, Raised>, ghost occBase: seq<nat>, ghost occCell: seq<nat>)
    requires base != small && base.towerType == BaseStation && small.towerType == SmallCell
    requires forall i, j :: 0 <= i < j < |users| ==> users[i] != users[j]
    requires iterations <= |draws| && forall t :: 0 <= t < |draws| ==> |draws[t]| == |users|
    // the bookkeeping invariant holds at the start (e.g. fresh towers, idle users)
    requires Balanced(base, small, users)
    modifies base, small, users
    // the users, the towers and the recorded occupancies are those of the tick loop
    ensures var run := RunTicks(g, ParamsOf(users), old(UserStates(users)), old(base.State()), old(small.State()),
                                draws[..TickCount(iterations)]);
      UserStates(users) == run.users && base.State() == run.base && small.State() == run.small &&
      occBase == run.occBase && occCell == run.occCell &&
      (run.outcome.Fail? ==> r == Failure(run.outcome.error)) &&
      (r.Success? <==> run.outcome.Pass? && 2 <= iterations)
    // ... so the bookkeeping invariant holds at the end, however the run ends
    ensures Balanced(base, small, users)
    ensures old(base.State()).Valid() && old(small.State()).Valid() ==> base.State().Valid() && small.State().Valid()
    // the only exceptions: a user position read before it was set, no tick
    // at all, or a single tick whose index 0 is then divided by
    ensures r.Failure? ==> r.error in {InitializationError, UnboundLocalError, ZeroDivisionError}
    ensures iterations <= 0 ==> r == Failure(UnboundLocalError)
    ensures iterations == 1 ==> r.Failure?
    ensures r.Success? ==> |occBase| == |occCell| == iterations
    ensures r.Success? ==>
      r.value.avgCallsBase == Sum(occBase) as real / (iterations - 1) as real &&
      r.value.avgCallsCell == Sum(occCell) as real / (iterations - 1) as real
    // the totals are the counters of the two towers at the end, summed
    ensures r.Success? ==>
      r.value == Accumulated([base.State(), small.State()], runtime, r.value.avgCallsBase, r.value.avgCallsCell)
    ensures r.Success? ==> r.value.totalCallFailures == r.value.totalFailNoSignal + r.value.totalFailNoChannel
  {
    RunTicksRecordsOccupancy(g, ParamsOf(users), UserStates(users), base.State(), small.State(),
                             draws[..TickCount(iterations)]);
    var tick, totBase, totCell;
    tick, totBase, totCell, occBase, occCell := TickLoop(base, small, users, g, draws[..TickCount(iterations)]);
    if tick.Fail? {
      return Failure(tick.error), occBase, occCell;
    }
    if iterations <= 0 {
      return Failure(UnboundLocalError), occBase, occCell;
    }
    var last := iterations - 1;
    if last == 0 {
      return Failure(ZeroDivisionError), occBase, occCell;
    }
    var avgBase := totBase as real / last as real;
    var avgCell := totCell as real / last as real;
    var stats := Summarize(base.State(), small.State(), runtime, avgBase, avgCell);
    r := Success(stats);
  }

  /** One tick of every user, in list order; the first exception ends it. */
  method UsersTick(base: Tower, small: Tower, users: seq<User>, g: Geometry, ds: seq<Draws>)
    returns (r: Outcome<Raised>)
    requires base != small && base.towerType == BaseStation && small.towerType == SmallCell
    requires forall i, j :: 0 <= i < j < |users| ==> users[i] != users[j]
    requires |ds| == |users|
    requires Balanced(base, small, users)
    modifies base, small, users
    ensures var rd := TickUsers(g, ParamsOf(users), old(UserStates(users)), old(base.State()), old(small.State()), ds, 0);
      UserStates(users) == rd.users && base.State() == rd.base && small.State() == rd.small && r == rd.outcome
    ensures Balanced(base, small, users)
  {
    ghost var params := ParamsOf(users);
    ghost var rd0 := TickUsers(g, params, UserStates(users), base.State(), small.State(), ds, 0);
    var j := 0;
    while j < |users|
      invariant 0 <= j <= |users|
      invariant Balanced(base, small, users)
      invariant TickUsers(g, params, UserStates(users), base.State(), small.State(), ds, j) == rd0
    {
      r := OneTick(base, small, users, j, g, ds[j]);
      if r.Fail? {
        return;
      }
      j := j + 1;
    }
    r := Pass;
  }

  /** User `j`'s tick inside the run: user `j` and the towers change as
      `Tick` says, every other user is left alone. */
  method OneTick(base: Tower, small: Tower, users: seq<User>, j: nat, g: Geometry, d: Draws)
    returns (r: Outcome<Raised>)
    requires base != small && base.towerType == BaseStation && small.towerType == SmallCell
    requires forall i, k :: 0 <= i < k < |users| ==> users[i] != users[k]
    requires j < |users|
    requires Balanced(base, small, users)
    modifies base, small, users[j]
    ensures Holds(old(users[j].State()), old(base.State()), old(small.State())) &&
      var t := Tick(g, users[j].Params(), old(users[j].State()), old(base.State()), old(small.State()), d);
      UserStates(users) == old(UserStates(users))[j := t.user] &&
      base.State() == t.base && small.State() == t.small && r == t.outcome
    ensures Balanced(base, small, users)
  {
    var before := UserStates(users);
    var u := users[j];
    BalancedHolds(before, j, base.State(), small.State());
    r := u.OnTimestep(g, base, small, d);
    assert UserStates(users) == before[j := u.State()];
    TickKeepsBalance(g, u.Params(), before, j, old(base.State()), old(small.State()), d);
  }
}
