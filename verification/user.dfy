/** A mobile user: idle until the call-arrival table says it wants to call,
    then spawned somewhere in the mall, the parking lot or on the road and
    admitted by one of the two towers; while connected it moves one tick at
    a time and either finishes its call, leaves the covered stretch, drops,
    or is handed over to the other tower.

    The random draws and the signal levels of one tick are given as `Draws`.
    The pure functions say what a tick does to the user and the two towers;
    the `User` class performs the same steps in place and is proved against
    them. */
module Users {
  import opened Prelude
  import opened Towers
  import opened Cfg
  import opened Rf

  /** The position of a user that is not in the simulated area. */
  const Unplaced: real := -1.0

  datatype UserState = UserState(
    pos: real,
    direction: int,               // +1 towards the base station, -1 towards the small cell
    connectedTo: Option<TowerType>,
    wantsToCall: bool,
    timeRemaining: int)           // seconds left of the current call

  /** The configuration a user copies from its options. */
  datatype UserParams = UserParams(
    height: real,
    rslThreshold: real,
    avgCallDuration: int,
    mallSpeed: real,
    parkingSpeed: real,
    roadSpeed: real)

  /** What one tick of one user draws at random or measures: the call
      arrival bit, the spawn sector and the uniform draw inside it, the call
      duration, and the signal levels from the primary and the other tower. */
  datatype Draws = Draws(
    wantCall: bool,
    sector: real,
    spot: real,
    callTime: int,
    rslPrimary: real,
    rslSecondary: real)

  /** 1 when `u` holds a channel of the tower of type `kind`, else 0. */
  function Conn(u: UserState, kind: TowerType): nat {
    if u.connectedTo == Some(kind) then 1 else 0
  }

  /** `disconnect()` / `drop()`: out of the area, no call, no wish to call;
      the direction is kept. */
  function Reset(u: UserState): (r: UserState)
    ensures r.connectedTo == None && r.pos == Unplaced && !r.wantsToCall && r.timeRemaining == 0
    ensures r.direction == u.direction
  {
    u.(pos := Unplaced, connectedTo := None, wantsToCall := false, timeRemaining := 0)
  }

  /** `is_outside(geometry)`: past the mall, i.e. in the parking lot or on the road. */
  function IsOutside(g: Geometry, pos: real): (r: Result<bool, Raised>)
    ensures r.Failure? <==> pos == Unplaced
    ensures r.Failure? ==> r.error == InitializationError
    ensures r.Success? ==> (r.value <==> g.parkingStart < pos)
  {
    if pos == Unplaced then Failure(InitializationError) else Success(pos > g.parkingStart)
  }

  /** `on_road(geometry)`: past the parking lot. */
  function OnRoad(g: Geometry, pos: real): (r: Result<bool, Raised>)
    ensures r.Failure? <==> pos == Unplaced
    ensures r.Failure? ==> r.error == InitializationError
    ensures r.Success? ==> (r.value <==> g.parkingEnd < pos)
  {
    if pos == Unplaced then Failure(InitializationError) else Success(pos > g.parkingEnd)
  }

  /** With the parking lot after the start of the parking area, a user on
      the road is also outside. */
  lemma RoadIsOutside(g: Geometry, pos: real)
    requires g.parkingStart <= g.parkingEnd
    requires OnRoad(g, pos) == Success(true)
    ensures IsOutside(g, pos) == Success(true)
  {
  }

  /** `update_pos(geometry)`: the new position; road speed iff the old
      position is on the road, walking speed otherwise. */
  function MovedPos(g: Geometry, p: UserParams, u: UserState): (r: Result<real, Raised>)
    ensures r.Failure? <==> u.pos == Unplaced
    ensures r.Failure? ==> r.error == InitializationError
    ensures r.Success? && g.parkingEnd < u.pos ==> r.value == u.pos + p.roadSpeed * u.direction as real
    ensures r.Success? && u.pos <= g.parkingEnd ==> r.value == u.pos + p.mallSpeed * u.direction as real
  {
    var road := OnRoad(g, u.pos);
    if road.Failure? then Failure(road.error)
    else
      var speed := if road.value then p.roadSpeed else p.mallSpeed;
      Success(u.pos + speed * u.direction as real)
  }

  /** Where a spawned user appears, and which way it walks or drives. */
  datatype Spawn = Spawn(pos: real, direction: int)

  /** A uniform draw in [0, 1) scaled to a segment of positive length lands
      inside it. */
  function Scaled(length: real, spot: real): (x: real)
    ensures 0.0 < length && 0.0 <= spot < 1.0 ==> 0.0 <= x < length
  {
    assert 0.0 < length && 0.0 <= spot < 1.0 ==> length * spot < length * 1.0;
    length * spot
  }

  /** `random_pos(geometry)` for the sector draw `sector` and the uniform
      draw `spot`: road users head for the mall, mall users for the road. */
  function RandomPos(g: Geometry, sector: real, spot: real): (r: Spawn)
    ensures 0.0 < sector < 0.2 ==> r.direction == -1
    ensures 0.0 < sector < 0.2 && 0.0 <= spot < 1.0 && g.roadStart < g.roadEnd ==>
      g.roadStart <= r.pos < g.roadEnd
    ensures 0.2 <= sector < 0.5 ==> r.direction == -1
    ensures 0.2 <= sector < 0.5 && 0.0 <= spot < 1.0 && g.parkingStart < g.roadStart ==>
      g.parkingStart <= r.pos < g.roadStart
    ensures (sector <= 0.0 || 0.5 <= sector) ==> r.direction == 1
    ensures (sector <= 0.0 || 0.5 <= sector) && 0.0 <= spot < 1.0 && 0.0 < g.mallEnd ==>
      0.0 <= r.pos < g.mallEnd
  {
    var roadLength := g.roadEnd - g.roadStart;
    var parkingLength := g.roadStart - g.parkingStart;
    var mallLength := g.mallEnd;
    if 0.0 < sector < 0.2 then Spawn(g.roadStart + Scaled(roadLength, spot), -1)
    else if 0.2 <= sector < 0.5 then Spawn(g.parkingStart + Scaled(parkingLength, spot), -1)
    else Spawn(Scaled(mallLength, spot), 1)
  }

  /** The user and the two towers after a step that involves both. */
  datatype Attempt = Attempt(user: UserState, primary: TowerState, secondary: TowerState)

  /** `attempt_call(geometry, primary, secondary)`: the primary tower first;
      on refusal the other tower as a secondary; a rescue is credited to the
      primary, a double refusal counted against it. */
  function CallAttempt(p: UserParams, u: UserState, primary: TowerState, secondary: TowerState,
                       rslPrimary: real, rslSecondary: real, callTime: int): (r: Attempt)
    requires u.connectedTo == None && primary.kind != secondary.kind
    // admitted by the primary
    ensures Admit(primary, rslPrimary, p.rslThreshold, true).outcome.Pass? ==>
      r.user.connectedTo == Some(primary.kind) && r.user.timeRemaining == callTime &&
      r.primary.channelsInUse == primary.channelsInUse + 1 && r.secondary == secondary
    // refused by the primary, saved by the secondary
    ensures Admit(primary, rslPrimary, p.rslThreshold, true).outcome.Fail? &&
            Admit(secondary, rslSecondary, p.rslThreshold, false).outcome.Pass? ==>
      r.user.connectedTo == Some(secondary.kind) && r.user.timeRemaining == callTime &&
      r.primary.savedBySecondary == primary.savedBySecondary + 1 &&
      r.primary.channelsInUse == primary.channelsInUse &&
      r.secondary.channelsInUse == secondary.channelsInUse + 1
    // refused by both: the user keeps its spawn position and stays unconnected
    ensures Admit(primary, rslPrimary, p.rslThreshold, true).outcome.Fail? &&
            Admit(secondary, rslSecondary, p.rslThreshold, false).outcome.Fail? ==>
      r.user == u && r.primary.failedToConnect == primary.failedToConnect + 1 &&
      r.primary.channelsInUse == primary.channelsInUse && r.secondary == secondary
    // the primary always records exactly one attempt
    ensures r.primary.connectionsAttempts == primary.connectionsAttempts + 1
    // each tower's occupancy moves exactly with the user's connection
    ensures r.primary.channelsInUse == primary.channelsInUse + Conn(r.user, primary.kind)
    ensures r.secondary.channelsInUse == secondary.channelsInUse + Conn(r.user, secondary.kind)
    ensures r.user.pos == u.pos && r.user.direction == u.direction
    ensures r.primary.kind == primary.kind && r.secondary.kind == secondary.kind
    ensures r.primary.pos == primary.pos && r.secondary.pos == secondary.pos
    ensures primary.Valid() && secondary.Valid() ==> r.primary.Valid() && r.secondary.Valid()
  {
    var first := Admit(primary, rslPrimary, p.rslThreshold, true);
    if first.outcome.Pass? then
      Attempt(u.(timeRemaining := callTime, connectedTo := Some(primary.kind)), first.state, secondary)
    else
      var second := Admit(secondary, rslSecondary, p.rslThreshold, false);
      if second.outcome.Pass? then
        Attempt(u.(timeRemaining := callTime, connectedTo := Some(secondary.kind)), Saved(first.state), second.state)
      else
        Attempt(u, NotConnected(first.state), secondary)
  }

  /** The checks of a connected user after it has moved, in the source's
      order: the call ends, the user leaves the covered stretch at `exit`,
      the signal is lost, or a stronger other tower takes the call. */
  function ConnectedSteps(p: UserParams, u: UserState, primary: TowerState, secondary: TowerState,
                          exit: real, rslPrimary: real, rslSecondary: real): (r: Attempt)
    requires u.connectedTo == Some(primary.kind) && primary.kind != secondary.kind
    requires primary.channelsInUse > 0
    // 1. the call timer runs out: a finished call
    ensures u.timeRemaining - 1 < 0 ==>
      r.user == Reset(u) && r.primary == Disconnected(primary, true) && r.secondary == secondary
    // 2. within a metre of the tower it walks or drives towards: a handover out of the area
    ensures 0 <= u.timeRemaining - 1 && Near(1.0, u.pos, exit) ==>
      r.user == Reset(u) && r.secondary == secondary &&
      r.primary == HandedOver(HandoverAttempted(primary), u.pos)
    // 3. the signal is too weak: a dropped call
    ensures 0 <= u.timeRemaining - 1 && !Near(1.0, u.pos, exit) && rslPrimary < p.rslThreshold ==>
      r.user == Reset(u) && r.primary == Dropped(primary) && r.secondary == secondary
    // 4. the other tower is strictly stronger: a handover attempt
    ensures 0 <= u.timeRemaining - 1 && !Near(1.0, u.pos, exit) && p.rslThreshold <= rslPrimary < rslSecondary ==>
      r.primary.handoverAttempt == primary.handoverAttempt + 1 &&
      r.secondary == Admit(secondary, rslSecondary, p.rslThreshold, true).state &&
      // the timer runs down and only the connection may change
      r.user == u.(timeRemaining := u.timeRemaining - 1,
                   connectedTo := if Admit(secondary, rslSecondary, p.rslThreshold, true).outcome.Pass?
                                  then Some(secondary.kind) else u.connectedTo) &&
      (r.user.connectedTo == Some(secondary.kind) <==>
         Admit(secondary, rslSecondary, p.rslThreshold, true).outcome.Pass?) &&
      (r.user.connectedTo == Some(secondary.kind) ==> r.primary == HandedOver(HandoverAttempted(primary), u.pos)) &&
      (r.user.connectedTo == Some(primary.kind) ==> r.primary == HandoverFailed(HandoverAttempted(primary), u.pos))
    // 5. nothing happens but the timer
    ensures 0 <= u.timeRemaining - 1 && !Near(1.0, u.pos, exit) && p.rslThreshold <= rslPrimary &&
            rslSecondary <= rslPrimary ==>
      r == Attempt(u.(timeRemaining := u.timeRemaining - 1), primary, secondary)
    // the connected tower gives up one channel exactly when the user leaves it
    ensures r.primary.channelsInUse + 1 == primary.channelsInUse + Conn(r.user, primary.kind)
    ensures r.secondary.channelsInUse == secondary.channelsInUse + Conn(r.user, secondary.kind)
    ensures r.primary.kind == primary.kind && r.secondary.kind == secondary.kind
    ensures r.primary.pos == primary.pos && r.secondary.pos == secondary.pos
    ensures primary.Valid() && secondary.Valid() ==> r.primary.Valid() && r.secondary.Valid()
  {
    var timed := u.(timeRemaining := u.timeRemaining - 1);
    if timed.timeRemaining < 0 then
      Attempt(Reset(timed), Disconnected(primary, true), secondary)
    else if Near(1.0, timed.pos, exit) then
      Attempt(Reset(timed), HandedOver(HandoverAttempted(primary), timed.pos), secondary)
    else if rslPrimary < p.rslThreshold then
      Attempt(Reset(timed), Dropped(primary), secondary)
    else if rslSecondary > rslPrimary then
      var attempted := HandoverAttempted(primary);
      var adm := Admit(secondary, rslSecondary, p.rslThreshold, true);
      if adm.outcome.Pass? then
        Attempt(timed.(connectedTo := Some(secondary.kind)), HandedOver(attempted, timed.pos), adm.state)
      else
        Attempt(timed, HandoverFailed(attempted, timed.pos), adm.state)
    else
      Attempt(timed, primary, secondary)
  }

  /** One tick of one user, with the base station and the small cell. */
  datatype TickResult = TickResult(user: UserState, base: TowerState, small: TowerState, outcome: Outcome<Raised>)

  /** The channels in use are owed to the users connected to each tower. */
  predicate Holds(u: UserState, base: TowerState, small: TowerState) {
    (u.connectedTo == Some(BaseStation) ==> base.channelsInUse > 0) &&
    (u.connectedTo == Some(SmallCell) ==> small.channelsInUse > 0)
  }

  /** `on_timestep(geometry, base_station, small_cell)`. An idle user draws
      the call bit and, when it wants to call, spawns and tries the base
      station first iff it is outside the mall. A connected user moves, then
      runs `ConnectedSteps` against the tower it holds, with the tower in its
      direction of travel as the exit. */
  function Tick(g: Geometry, p: UserParams, u: UserState, base: TowerState, small: TowerState, d: Draws): (r: TickResult)
    requires base.kind == BaseStation && small.kind == SmallCell
    requires Holds(u, base, small)
    // the headline bookkeeping: each tower's occupancy changes exactly as
    // the user's hold on it does
    ensures r.base.channelsInUse + Conn(u, BaseStation) == base.channelsInUse + Conn(r.user, BaseStation)
    ensures r.small.channelsInUse + Conn(u, SmallCell) == small.channelsInUse + Conn(r.user, SmallCell)
    ensures r.base.kind == BaseStation && r.small.kind == SmallCell
    ensures r.base.pos == base.pos && r.small.pos == small.pos
    ensures base.Valid() && small.Valid() ==> r.base.Valid() && r.small.Valid()
    // the only exception is a position read before it was set
    ensures r.outcome.Fail? ==> r.outcome.error == InitializationError && r.base == base && r.small == small
    // an idle user that wants to call tries the base station first when it
    // spawns outside the mall, the small cell first otherwise
    ensures u.connectedTo == None && d.wantCall && r.outcome.Pass? ==>
      var outside := g.parkingStart < RandomPos(g, d.sector, d.spot).pos;
      (outside ==> r.base.connectionsAttempts == base.connectionsAttempts + 1) &&
      (!outside ==> r.small.connectionsAttempts == small.connectionsAttempts + 1)
  {
    if u.connectedTo == None then
      var u1 := u.(wantsToCall := d.wantCall);
      if !d.wantCall then TickResult(u1, base, small, Pass)
      else
        var spawn := RandomPos(g, d.sector, d.spot);
        var u2 := u1.(pos := spawn.pos, direction := spawn.direction);
        var outside := IsOutside(g, spawn.pos);
        if outside.Failure? then TickResult(u2, base, small, Fail(outside.error))
        else if outside.value then
          var a := CallAttempt(p, u2, base, small, d.rslPrimary, d.rslSecondary, d.callTime);
          TickResult(a.user, a.primary, a.secondary, Pass)
        else
          var a := CallAttempt(p, u2, small, base, d.rslPrimary, d.rslSecondary, d.callTime);
          TickResult(a.user, a.secondary, a.primary, Pass)
    else
      var moved := MovedPos(g, p, u);
      if moved.Failure? then TickResult(u, base, small, Fail(moved.error))
      else
        var u1 := u.(pos := moved.value);
        var exit := if u1.direction == 1 then base.pos else small.pos;
        if u.connectedTo == Some(BaseStation) then
          var a := ConnectedSteps(p, u1, base, small, exit, d.rslPrimary, d.rslSecondary);
          TickResult(a.user, a.primary, a.secondary, Pass)
        else
          assert u.connectedTo.value == SmallCell;
          var a := ConnectedSteps(p, u1, small, base, exit, d.rslPrimary, d.rslSecondary);
          TickResult(a.user, a.secondary, a.primary, Pass)
  }

  /** A tick moves at most one channel in total: a user takes one, gives
      one back, or moves one from one tower to the other. */
  lemma {:induction false} TickMovesAtMostOneChannel(g: Geometry, p: UserParams, u: UserState,
                                                     base: TowerState, small: TowerState, d: Draws)
    requires base.kind == BaseStation && small.kind == SmallCell
    requires Holds(u, base, small)
    ensures var r := Tick(g, p, u, base, small, d);
      -1 <= (r.base.channelsInUse + r.small.channelsInUse) - (base.channelsInUse + small.channelsInUse) <= 1
  {
    var r := Tick(g, p, u, base, small, d);
    assert Conn(u, BaseStation) + Conn(u, SmallCell) <= 1;
    assert Conn(r.user, BaseStation) + Conn(r.user, SmallCell) <= 1;
  }

  /** A user of the simulation. The options are copied at construction;
      the call state changes every tick. */
  class User {
    const id: int
    const height: real
    const rslThreshold: real
    const avgCallDuration: int
    const mallSpeed: real
    const parkingSpeed: real
    const roadSpeed: real

    var pos: real
    var direction: int
    var connectedTo: Option<TowerType>
    var wantsToCall: bool
    var timeRemaining: int

    function State(): UserState
      reads this
    {
      UserState(pos, direction, connectedTo, wantsToCall, timeRemaining)
    }

    function Params(): UserParams {
      UserParams(height, rslThreshold, avgCallDuration, mallSpeed, parkingSpeed, roadSpeed)
    }

    /** `User(id, user_cfg, pos)`: idle, standing still, with the average
        call duration converted from minutes to seconds. */
    constructor (id: int, opts: UserOptions, pos: real)
      ensures this.id == id
      ensures State() == UserState(pos, 0, None, false, 0)
      ensures Params() == UserParams(opts.height, opts.rslThreshold, opts.avgCallDuration * 60,
                                     opts.mallSpeed, opts.parkingSpeed, opts.roadSpeed)
    {
      this.id := id;
      this.pos, direction, connectedTo, wantsToCall, timeRemaining := pos, 0, None, false, 0;
      height, rslThreshold, avgCallDuration := opts.height, opts.rslThreshold, opts.avgCallDuration * 60;
      mallSpeed, parkingSpeed, roadSpeed := opts.mallSpeed, opts.parkingSpeed, opts.roadSpeed;
    }

    method UpdatePos(g: Geometry) returns (r: Outcome<Raised>)
      modifies this`pos
      ensures var moved := MovedPos(g, Params(), old(State()));
        (moved.Success? ==> r == Pass && State() == old(State()).(pos := moved.value)) &&
        (moved.Failure? ==> r == Fail(moved.error) && State() == old(State()))
    {
      var road := OnRoad(g, pos);
      if road.Failure? {
        return Fail(road.error);
      }
      var speed := if road.value then roadSpeed else mallSpeed;
      pos := pos + speed * direction as real;
      r := Pass;
    }

    /** One second less to talk; true once the call is over. */
    method UpdateCalltime() returns (done: bool)
      modifies this`timeRemaining
      ensures timeRemaining == old(timeRemaining) - 1
      ensures done <==> timeRemaining < 0
    {
      timeRemaining := timeRemaining - 1;
      done := timeRemaining < 0;
    }

    method Disconnect()
      modifies this`pos, this`connectedTo, this`wantsToCall, this`timeRemaining
      ensures State() == Reset(old(State()))
    {
      pos := Unplaced;
      connectedTo := None;
      wantsToCall := false;
      timeRemaining := 0;
    }

    method Drop()
      modifies this`pos, this`connectedTo, this`wantsToCall, this`timeRemaining
      ensures State() == Reset(old(State()))
    {
      Disconnect();
    }

    method AttemptCall(primary: Tower, secondary: Tower, rslPrimary: real, rslSecondary: real, callTime: int)
      requires connectedTo == None && primary.towerType != secondary.towerType
      modifies this`connectedTo, this`timeRemaining, primary, secondary
      ensures var a := CallAttempt(Params(), old(State()), old(primary.State()), old(secondary.State()),
                                   rslPrimary, rslSecondary, callTime);
        State() == a.user && primary.State() == a.primary && secondary.State() == a.secondary
    {
      var first := primary.Connect(rslPrimary, rslThreshold, true);
      var kind;
      if first.Pass? {
        kind := primary.towerType;
      } else {
        var second := secondary.Connect(rslSecondary, rslThreshold, false);
        if second.Fail? {
          primary.FailedToConnect();
          return;
        }
        kind := secondary.towerType;
        primary.SavedBySecondary();
      }
      timeRemaining := callTime;
      connectedTo := Some(kind);
    }

    /** The idle half of `on_timestep`. */
    method IdleStep(g: Geometry, base: Tower, small: Tower, d: Draws) returns (r: Outcome<Raised>)
      requires connectedTo == None && base.towerType == BaseStation && small.towerType == SmallCell
      modifies this, base, small
      ensures var t := Tick(g, Params(), old(State()), old(base.State()), old(small.State()), d);
        State() == t.user && base.State() == t.base && small.State() == t.small && r == t.outcome
    {
      wantsToCall := d.wantCall;
      if !wantsToCall {
        return Pass;
      }
      var spawn := RandomPos(g, d.sector, d.spot);
      pos, direction := spawn.pos, spawn.direction;
      var outside := IsOutside(g, pos);
      if outside.Failure? {
        return Fail(outside.error);
      }
      if outside.value {
        AttemptCall(base, small, d.rslPrimary, d.rslSecondary, d.callTime);
      } else {
        AttemptCall(small, base, d.rslPrimary, d.rslSecondary, d.callTime);
      }
      r := Pass;
    }

    /** The connected half of `on_timestep`, after the move, against the
        tower the user holds (`primary`) and the other one. */
    method Steps(primary: Tower, secondary: Tower, exit: real, rslPrimary: real, rslSecondary: real)
      requires connectedTo == Some(primary.towerType) && primary.towerType != secondary.towerType
      requires primary.channelsInUse > 0
      modifies this`pos, this`connectedTo, this`wantsToCall, this`timeRemaining, primary, secondary
      ensures var a := ConnectedSteps(Params(), old(State()), old(primary.State()), old(secondary.State()),
                                      exit, rslPrimary, rslSecondary);
        State() == a.user && primary.State() == a.primary && secondary.State() == a.secondary
    {
      var done := UpdateCalltime();
      if done {
        var released := primary.Disconnect(true);
        assert released.Pass?;
        Disconnect();
        return;
      }
      if Near(1.0, pos, exit) {
        primary.HandoverAttempt();
        var released := primary.HandOver(pos);
        assert released.Pass?;
        Disconnect();
        return;
      }
      if rslPrimary < rslThreshold {
        var released := primary.Drop();
        assert released.Pass?;
        Drop();
        return;
      }
      if rslSecondary > rslPrimary {
        primary.HandoverAttempt();
        var admitted := secondary.Connect(rslSecondary, rslThreshold, true);
        if admitted.Pass? {
          connectedTo := Some(secondary.towerType);
          var released := primary.HandOver(pos);
          assert released.Pass?;
        } else {
          primary.HandoverFailure(pos);
        }
      }
    }

    /** `on_timestep(geometry, base_station, small_cell)`. */
    method OnTimestep(g: Geometry, base: Tower, small: Tower, d: Draws) returns (r: Outcome<Raised>)
      requires base != small && base.towerType == BaseStation && small.towerType == SmallCell
      requires Holds(State(), base.State(), small.State())
      modifies this, base, small
      ensures var t := Tick(g, Params(), old(State()), old(base.State()), old(small.State()), d);
        State() == t.user && base.State() == t.base && small.State() == t.small && r == t.outcome
    {
      if connectedTo == None {
        r := IdleStep(g, base, small, d);
        return;
      }
      r := UpdatePos(g);
      if r.Fail? {
        return;
      }
      var exit := if direction == 1 then base.pos else small.pos;
      if connectedTo == Some(BaseStation) {
        Steps(base, small, exit, d.rslPrimary, d.rslSecondary);
      } else {
        assert connectedTo.value == SmallCell;
        Steps(small, base, exit, d.rslPrimary, d.rslSecondary);
      }
    }
  }

  /** `init_users(n, user_cfg)`: `n` idle, unplaced users with ids 0 to n-1. */
  method InitUsers(n: int, opts: UserOptions) returns (users: seq<User>)
    ensures |users| == if n < 0 then 0 else n
    ensures forall i :: 0 <= i < |users| ==> fresh(users[i]) && users[i].id == i
    ensures forall i :: 0 <= i < |users| ==> users[i].State() == UserState(Unplaced, 0, None, false, 0)
    ensures forall i :: 0 <= i < |users| ==> users[i].Params() == UserParams(
      opts.height, opts.rslThreshold, opts.avgCallDuration * 60, opts.mallSpeed, opts.parkingSpeed, opts.roadSpeed)
    ensures forall i, j :: 0 <= i < j < |users| ==> users[i] != users[j]
  {
    users := [];
    var id := 0;
    while id < n
      invariant 0 <= id && (n < 0 ==> id == 0) && (0 <= n ==> id <= n)
      invariant |users| == id
      invariant forall i :: 0 <= i < |users| ==> fresh(users[i]) && users[i].id == i
      invariant forall i :: 0 <= i < |users| ==> users[i].State() == UserState(Unplaced, 0, None, false, 0)
      invariant forall i :: 0 <= i < |users| ==> users[i].Params() == UserParams(
        opts.height, opts.rslThreshold, opts.avgCallDuration * 60, opts.mallSpeed, opts.parkingSpeed, opts.roadSpeed)
      invariant forall i, j :: 0 <= i < j < |users| ==> users[i] != users[j]
    {
      var u := new User(id, opts, Unplaced);
      users := users + [u];
      id := id + 1;
    }
  }
}
