/** Configuration records and the fields they derive from the configuration
    file: coincident geometry boundaries, the number of one-second ticks, the
    third spawn probability, and the distance validator of the command line.
    Reading the JSON file is not modelled; every constructor takes the values
    it would have read. */
module Cfg {
  import opened Prelude
  import opened Towers

  /** Distances from the small cell at the origin, in metres, and the wall
      penetration loss of the mall wall, in dB. */
  datatype Geometry = Geometry(
    mallStart: real,
    mallEnd: real,
    hallStart: real,
    hallEnd: real,
    parkingStart: real,
    parkingEnd: real,
    roadStart: real,
    roadEnd: real,
    wallLoss: real)

  /** `Geometry(config)`: six of the nine fields are copies of the four
      configured distances. */
  function MakeGeometry(parkingStart: real, mallEntryStart: real, parkingEnd: real,
                        baseStation: real, wallPenetration: real): (g: Geometry)
    ensures g.mallStart == 0.0
    ensures g.mallEnd == g.parkingStart == parkingStart
    ensures g.hallEnd == g.mallEnd
    ensures g.hallStart == mallEntryStart
    ensures g.roadStart == g.parkingEnd == parkingEnd
    ensures g.roadEnd == baseStation
    ensures g.wallLoss == wallPenetration
  {
    Geometry(0.0, parkingStart, mallEntryStart, parkingStart, parkingStart, parkingEnd,
             parkingEnd, baseStation, wallPenetration)
  }

  /** Options of one simulation run. Besides the duration (and with it the
      number of ticks), only the seed is changed after construction, by the
      driver code that is not part of this model. */
  class SimOptions {
    const numUsers: int
    const callRate: real
    const avgCallDuration: real
    const seed: int
    const timestep: int
    const probSpawnMall: real
    const probSpawnParking: real
    const probSpawnRoad: real
    const shadowMean: real
    const shadowSigma: real
    const shadowSegmentLength: int
    var duration: int
    var iterations: int

    /** One tick is one second, so a run has 3600 ticks per simulated hour. */
    predicate Valid()
      reads this
    {
      iterations == 3600 * duration
    }

    constructor (numUsers: int, callRate: real, avgCallDuration: real, seed: int, timestep: int,
                 duration: int, probSpawnMall: real, probSpawnParking: real,
                 shadowMean: real, shadowSigma: real, shadowSegmentLength: int)
      ensures Valid() && this.duration == duration
      ensures this.probSpawnMall == probSpawnMall && this.probSpawnParking == probSpawnParking
      ensures this.probSpawnMall + this.probSpawnParking + this.probSpawnRoad == 1.0
      ensures this.numUsers == numUsers && this.callRate == callRate && this.seed == seed
      ensures this.avgCallDuration == avgCallDuration && this.timestep == timestep
      ensures this.shadowMean == shadowMean && this.shadowSigma == shadowSigma
      ensures this.shadowSegmentLength == shadowSegmentLength
    {
      this.numUsers, this.callRate, this.avgCallDuration, this.seed := numUsers, callRate, avgCallDuration, seed;
      this.timestep, this.duration := timestep, duration;
      iterations := 3600 * duration;
      this.probSpawnMall, this.probSpawnParking := probSpawnMall, probSpawnParking;
      probSpawnRoad := 1.0 - probSpawnMall - probSpawnParking;
      this.shadowMean, this.shadowSigma, this.shadowSegmentLength := shadowMean, shadowSigma, shadowSegmentLength;
    }

    /** `set_duration`: re-establishes the tick count for the new duration. */
    method SetDuration(d: int)
      modifies this
      ensures Valid() && duration == d
    {
      iterations := d * 3600;
      duration := d;
    }
  }

  /** Per-user options; the parking-lot speed is the walking speed of the mall. */
  datatype UserOptions = UserOptions(
    mallSpeed: real,
    parkingSpeed: real,
    roadSpeed: real,
    rslThreshold: real,
    height: real,
    avgCallDuration: int)

  function MakeUserOptions(mallSpeed: real, roadSpeed: real, rslThreshold: real,
                           height: real, avgCallDuration: int): (o: UserOptions)
    ensures o.parkingSpeed == o.mallSpeed == mallSpeed
    ensures o.roadSpeed == roadSpeed && o.rslThreshold == rslThreshold
    ensures o.height == height && o.avgCallDuration == avgCallDuration
  {
    UserOptions(mallSpeed, mallSpeed, roadSpeed, rslThreshold, height, avgCallDuration)
  }

  /** Options of one tower. */
  datatype TowerOptions = TowerOptions(
    pos: real,
    height: real,
    eirp: real,
    channels: nat,
    freq: real,
    twrType: TowerType)

  /** `TowerOptions(config, twr_type)`: the small cell stands at the origin,
      the base station at the configured base-station distance; the other
      values come from the tower's own section of the configuration. */
  function MakeTowerOptions(twrType: TowerType, baseStation: real, height: real, eirp: real,
                            channels: nat, freq: real): (o: TowerOptions)
    ensures twrType == SmallCell ==> o.pos == 0.0
    ensures twrType == BaseStation ==> o.pos == baseStation
    ensures o.twrType == twrType && o.channels == channels
    ensures o.height == height && o.eirp == eirp && o.freq == freq
  {
    TowerOptions(if twrType == BaseStation then baseStation else 0.0, height, eirp, channels, freq, twrType)
  }

  /** `valid_distance`: an int that is a multiple of 100 and not strictly
      between 0 and 3000. Negative multiples of 100 pass. */
  function ValidDistance(dist: PyArg): (r: bool)
    ensures r <==> dist.IntArg? && (exists m: int :: dist.value == 100 * m && (m <= 0 || 30 <= m))
  {
    if !dist.IntArg? then false
    else if 0 < dist.value < 3000 then false
    else if dist.value % 100 != 0 then false
    else
      assert dist.value == 100 * (dist.value / 100);
      true
  }

  /** The validator accepts the origin and distances below it, which its
      own description rules out as negative. */
  lemma ValidDistanceAcceptsNonPositive(m: int)
    requires m <= 0
    ensures ValidDistance(IntArg(100 * m))
  {
  }
}
