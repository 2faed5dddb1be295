/** The admission controller of one tower: a capacity-bounded channel
    counter plus the statistics counters that every admission, release and
    handover moves. The pure functions say what each operation does to a
    `TowerState`; the `Tower` class performs the same updates in place and is
    proved against them. */
module Towers {
  import opened Prelude

  datatype TowerType = BaseStation | SmallCell

  /** Why an admission was refused. */
  datatype ConnectionError = LowSignal | NoFreeChannels

  /** Everything about a tower that the simulation reads or writes. */
  datatype TowerState = TowerState(
    kind: TowerType,
    pos: real,
    channels: nat,
    channelsInUse: nat,
    connectionsAttempts: nat,
    connsEstablished: nat,
    successfulConns: nat,
    userHungUp: nat,
    dropped: nat,
    blockedNoSig: nat,
    blockedNoChan: nat,
    failedToConnect: nat,
    savedBySecondary: nat,
    handoverAttempt: nat,
    handoverSuccess: nat,
    handoverFailure: nat,
    handoverSuccessLocations: seq<real>,
    handoverFailureLocations: seq<real>)
  {
    /** Channel occupancy never exceeds the capacity. */
    predicate Valid() {
      channelsInUse <= channels
    }
  }

  /** A tower with every counter at zero and no recorded locations. */
  function Initial(kind: TowerType, pos: real, channels: nat): TowerState {
    TowerState(kind, pos, channels, 0, 0, 0, 0, 0, 0, 0, 0, 0, 0, 0, 0, 0, [], [])
  }

  /** The tower after `connect` and what `connect` reported. */
  datatype Admission = Admission(state: TowerState, outcome: Outcome<ConnectionError>)

  /** `connect(user, rsl, primary)`: the signal check, then the capacity
      check; a primary attempt is counted up front, a secondary one only
      when it succeeds. */
  function Admit(s: TowerState, rsl: real, threshold: real, primary: bool): (a: Admission)
    // the signal check comes first: a weak signal is LowSignal whatever the occupancy
    ensures rsl < threshold ==> a.outcome == Fail(LowSignal)
    ensures rsl >= threshold && s.channelsInUse >= s.channels ==> a.outcome == Fail(NoFreeChannels)
    ensures a.outcome == Pass <==> rsl >= threshold && s.channelsInUse < s.channels
    // a refused primary attempt moves the attempt counter and exactly one block counter
    ensures a.outcome.Fail? && primary ==>
      a.state == s.(connectionsAttempts := s.connectionsAttempts + 1,
                    blockedNoSig := s.blockedNoSig + (if a.outcome.error == LowSignal then 1 else 0),
                    blockedNoChan := s.blockedNoChan + (if a.outcome.error == NoFreeChannels then 1 else 0))
    // a refused secondary attempt leaves no trace
    ensures a.outcome.Fail? && !primary ==> a.state == s
    // a success counts one attempt whichever flag was passed, and takes one channel
    ensures a.outcome.Pass? ==>
      a.state == s.(channelsInUse := s.channelsInUse + 1,
                    connectionsAttempts := s.connectionsAttempts + 1,
                    connsEstablished := s.connsEstablished + 1)
    ensures s.Valid() ==> a.state.Valid()
  {
    var counted := if primary then s.(connectionsAttempts := s.connectionsAttempts + 1) else s;
    if rsl < threshold then
      Admission(if primary then counted.(blockedNoSig := counted.blockedNoSig + 1) else counted,
                Fail(LowSignal))
    else if counted.channelsInUse >= counted.channels then
      Admission(if primary then counted.(blockedNoChan := counted.blockedNoChan + 1) else counted,
                Fail(NoFreeChannels))
    else
      var attempted := if primary then counted else counted.(connectionsAttempts := counted.connectionsAttempts + 1);
      var added := Occupied(attempted);
      Admission(added.(connsEstablished := added.connsEstablished + 1), Pass)
  }

  /** `_add`: one more channel in use (capacity is the caller's check). */
  function Occupied(s: TowerState): TowerState {
    s.(channelsInUse := s.channelsInUse + 1)
  }

  /** `_remove` when it does not raise: one channel fewer. */
  function Released(s: TowerState): TowerState
    requires s.channelsInUse > 0
  {
    s.(channelsInUse := s.channelsInUse - 1)
  }

  /** `disconnect(user, call_done)` when the release succeeds. */
  function Disconnected(s: TowerState, callDone: bool): TowerState
    requires s.channelsInUse > 0
  {
    var r := Released(s);
    r.(successfulConns := r.successfulConns + 1,
       userHungUp := if callDone then r.userHungUp + 1 else r.userHungUp)
  }

  /** `drop(user)` when the release succeeds. */
  function Dropped(s: TowerState): TowerState
    requires s.channelsInUse > 0
  {
    var r := Released(s);
    r.(dropped := r.dropped + 1)
  }

  /** `hand_over(user)` when the release succeeds: records the user's position. */
  function HandedOver(s: TowerState, userPos: real): TowerState
    requires s.channelsInUse > 0
  {
    var r := Released(s);
    r.(handoverSuccess := r.handoverSuccess + 1,
       handoverSuccessLocations := r.handoverSuccessLocations + [userPos])
  }

  /** `handover_failure(user)`: records the position, channels untouched. */
  function HandoverFailed(s: TowerState, userPos: real): TowerState {
    s.(handoverFailure := s.handoverFailure + 1,
       handoverFailureLocations := s.handoverFailureLocations + [userPos])
  }

  function HandoverAttempted(s: TowerState): TowerState {
    s.(handoverAttempt := s.handoverAttempt + 1)
  }

  function Saved(s: TowerState): TowerState {
    s.(savedBySecondary := s.savedBySecondary + 1)
  }

  function NotConnected(s: TowerState): TowerState {
    s.(failedToConnect := s.failedToConnect + 1)
  }

  /** Every operation that frees a channel frees exactly one, and none of
      the operations that do not free one changes the occupancy. */
  lemma ReleasesFreeOneChannel(s: TowerState, callDone: bool, userPos: real)
    requires s.channelsInUse > 0
    ensures Disconnected(s, callDone).channelsInUse == s.channelsInUse - 1
    ensures Dropped(s).channelsInUse == s.channelsInUse - 1
    ensures HandedOver(s, userPos).channelsInUse == s.channelsInUse - 1
    ensures HandoverFailed(s, userPos).channelsInUse == s.channelsInUse
    ensures HandoverAttempted(s).channelsInUse == s.channelsInUse
    ensures Saved(s).channelsInUse == s.channelsInUse
    ensures NotConnected(s).channelsInUse == s.channelsInUse
    ensures Disconnected(s, callDone).userHungUp == s.userHungUp + (if callDone then 1 else 0)
  {
  }

  class Tower {
    const height: real
    const eirp: real
    const channels: nat
    const freq: real
    const pos: real
    const towerType: TowerType

    var channelsInUse: nat
    var connectionsAttempts: nat
    var connsEstablished: nat
    var successfulConns: nat
    var userHungUp: nat
    var dropped: nat
    var blockedNoSig: nat
    var blockedNoChan: nat
    var failedToConnect: nat
    var savedBySecondary: nat
    var handoverAttempt: nat
    var handoverSuccess: nat
    var handoverFailure: nat
    var handoverSuccessLocations: seq<real>
    var handoverFailureLocations: seq<real>

    /** The abstract value of this tower. */
    function State(): TowerState
      reads this
    {
      TowerState(towerType, pos, channels, channelsInUse, connectionsAttempts, connsEstablished,
                 successfulConns, userHungUp, dropped, blockedNoSig, blockedNoChan, failedToConnect,
                 savedBySecondary, handoverAttempt, handoverSuccess, handoverFailure,
                 handoverSuccessLocations, handoverFailureLocations)
    }

    /** A tower built from its options: every counter starts at zero. */
    constructor (height: real, eirp: real, channels: nat, freq: real, pos: real, towerType: TowerType)
      ensures this.height == height && this.eirp == eirp && this.freq == freq
      ensures State() == Initial(towerType, pos, channels)
    {
      this.height, this.eirp, this.channels, this.freq := height, eirp, channels, freq;
      this.pos, this.towerType := pos, towerType;
      channelsInUse, connectionsAttempts, connsEstablished := 0, 0, 0;
      successfulConns, userHungUp, dropped := 0, 0, 0;
      blockedNoSig, blockedNoChan, failedToConnect, savedBySecondary := 0, 0, 0, 0;
      handoverAttempt, handoverSuccess, handoverFailure := 0, 0, 0;
      handoverSuccessLocations, handoverFailureLocations := [], [];
    }

    /** A tower built without options: a 30-channel small cell at the origin. */
    constructor Default()
      ensures height == 10.0 && eirp == 30.0 && freq == 1000.0
      ensures State() == Initial(SmallCell, 0.0, 30)
    {
      height, eirp, channels, freq := 10.0, 30.0, 30, 1000.0;
      pos, towerType := 0.0, SmallCell;
      channelsInUse, connectionsAttempts, connsEstablished := 0, 0, 0;
      successfulConns, userHungUp, dropped := 0, 0, 0;
      blockedNoSig, blockedNoChan, failedToConnect, savedBySecondary := 0, 0, 0, 0;
      handoverAttempt, handoverSuccess, handoverFailure := 0, 0, 0;
      handoverSuccessLocations, handoverFailureLocations := [], [];
    }

    method ResetCounters()
      modifies this
      ensures State() == Initial(towerType, pos, channels)
    {
      ResetChannelCounters();
      ResetHandoverCounters();
    }

    method ResetChannelCounters()
      modifies this`channelsInUse, this`connectionsAttempts, this`connsEstablished, this`successfulConns,
        this`userHungUp, this`dropped, this`blockedNoSig, this`blockedNoChan
      ensures channelsInUse == 0 && connectionsAttempts == 0 && connsEstablished == 0 && successfulConns == 0
      ensures userHungUp == 0 && dropped == 0 && blockedNoSig == 0 && blockedNoChan == 0
    {
      channelsInUse, connectionsAttempts, connsEstablished, successfulConns := 0, 0, 0, 0;
      userHungUp, dropped, blockedNoSig, blockedNoChan := 0, 0, 0, 0;
    }

    method ResetHandoverCounters()
      modifies this`failedToConnect, this`savedBySecondary, this`handoverAttempt, this`handoverSuccess,
        this`handoverFailure, this`handoverSuccessLocations, this`handoverFailureLocations
      ensures failedToConnect == 0 && savedBySecondary == 0 && handoverAttempt == 0 && handoverSuccess == 0
      ensures handoverFailure == 0 && handoverSuccessLocations == [] && handoverFailureLocations == []
    {
      failedToConnect, savedBySecondary, handoverAttempt, handoverSuccess := 0, 0, 0, 0;
      handoverFailure, handoverSuccessLocations, handoverFailureLocations := 0, [], [];
    }

    /** Admit a user whose signal from this tower is `rsl`; `threshold` is
        the user's RSL threshold. */
    method Connect(rsl: real, threshold: real, primary: bool) returns (r: Outcome<ConnectionError>)
      modifies this
      ensures State() == Admit(old(State()), rsl, threshold, primary).state
      ensures r == Admit(old(State()), rsl, threshold, primary).outcome
    {
      if primary {
        connectionsAttempts := connectionsAttempts + 1;
      }
      if rsl < threshold {
        if primary {
          blockedNoSig := blockedNoSig + 1;
        }
        return Fail(LowSignal);
      }
      if channelsInUse >= channels {
        if primary {
          blockedNoChan := blockedNoChan + 1;
        }
        return Fail(NoFreeChannels);
      }
      if !primary {
        connectionsAttempts := connectionsAttempts + 1;
      }
      Add();
      connsEstablished := connsEstablished + 1;
      r := Pass;
    }

    method Add()
      modifies this
      ensures State() == Occupied(old(State()))
    {
      channelsInUse := channelsInUse + 1;
    }

    /** Free one channel; refuses (the source raises ValueError) when none is in use. */
    method Remove() returns (r: Outcome<Raised>)
      modifies this
      ensures r.Pass? <==> old(channelsInUse) > 0
      ensures r.Pass? ==> State() == Released(old(State()))
      ensures r.Fail? ==> r.error == ValueError && State() == old(State())
    {
      if channelsInUse <= 0 {
        return Fail(ValueError);
      }
      channelsInUse := channelsInUse - 1;
      r := Pass;
    }

    method Disconnect(callDone: bool) returns (r: Outcome<Raised>)
      modifies this
      ensures r.Pass? <==> old(channelsInUse) > 0
      ensures r.Pass? ==> State() == Disconnected(old(State()), callDone)
      ensures r.Fail? ==> r.error == ValueError && State() == old(State())
    {
      r := Remove();
      if r.Fail? {
        return;
      }
      successfulConns := successfulConns + 1;
      if callDone {
        userHungUp := userHungUp + 1;
      }
    }

    /** A call lost because the user's signal fell below the threshold. */
    method Drop() returns (r: Outcome<Raised>)
      modifies this
      ensures r.Pass? <==> old(channelsInUse) > 0
      ensures r.Pass? ==> State() == Dropped(old(State()))
      ensures r.Fail? ==> r.error == ValueError && State() == old(State())
    {
      r := Remove();
      if r.Fail? {
        return;
      }
      dropped := dropped + 1;
    }

    method FailedToConnect()
      modifies this
      ensures State() == NotConnected(old(State()))
    {
      failedToConnect := failedToConnect + 1;
    }

    method HandOver(userPos: real) returns (r: Outcome<Raised>)
      modifies this
      ensures r.Pass? <==> old(channelsInUse) > 0
      ensures r.Pass? ==> State() == HandedOver(old(State()), userPos)
      ensures r.Fail? ==> r.error == ValueError && State() == old(State())
    {
      r := Remove();
      if r.Fail? {
        return;
      }
      handoverSuccess := handoverSuccess + 1;
      handoverSuccessLocations := handoverSuccessLocations + [userPos];
    }

    method HandoverFailure(userPos: real)
      modifies this
      ensures State() == HandoverFailed(old(State()), userPos)
    {
      handoverFailure := handoverFailure + 1;
      handoverFailureLocations := handoverFailureLocations + [userPos];
    }

    method HandoverAttempt()
      modifies this
      ensures State() == HandoverAttempted(old(State()))
    {
      handoverAttempt := handoverAttempt + 1;
    }

    method SavedBySecondary()
      modifies this
      ensures State() == Saved(old(State()))
    {
      savedBySecondary := savedBySecondary + 1;
    }

    /** The recorded handover positions, successes first. */
    method DumpHandoffData() returns (successes: seq<real>, failures: seq<real>)
      ensures successes == State().handoverSuccessLocations
      ensures failures == State().handoverFailureLocations
    {
      successes, failures := handoverSuccessLocations, handoverFailureLocations;
    }
  }
}
