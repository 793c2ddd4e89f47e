/** The parts of the rFactor 2 shared-memory records that the player
    synchronisation reads. The producer's binary layout is abstracted to the
    fields used: the version stamp that brackets every write, and per vehicle
    slot the producer-assigned `mID` and (in scoring) the `mIsPlayer` flag.
    Field names are those of the shared-memory format. */
module Rf2Data {

  /** Number of vehicle slots in both the scoring and the telemetry region. */
  const MaxMappedVehicles: nat := 128

  /** One slot of the scoring region. `mIsPlayer` is kept as a plain integer:
      the producer's byte may hold values other than 0 and 1. */
  datatype VehicleScoring = VehicleScoring(mID: int, mIsPlayer: int)

  /** One slot of the telemetry region; its payload is abstracted away. */
  datatype VehicleTelemetry = VehicleTelemetry(mID: int)

  /** A copy of one region: the version stamp pair and the vehicle slots. */
  datatype Snapshot<V> = Snapshot(mVersionUpdateBegin: int, mVersionUpdateEnd: int, mVehicles: seq<V>)

  type Scoring = Snapshot<VehicleScoring>

  type Telemetry = Snapshot<VehicleTelemetry>

  /** The extended region, reduced to one field that the synchronisation
      only copies. */
  datatype Extended = Extended(mVersion: string)

  /** The force-feedback region: a single value, only copied. */
  datatype ForceFeedback = ForceFeedback(mForceValue: real)

  /** The contents of the four regions as copied at one moment. */
  datatype Frames = Frames(tele: Telemetry, scor: Scoring, ext: Extended, ffb: ForceFeedback)

  /** Both vehicle arrays have the fixed size of the format. */
  predicate WellFormed(f: Frames)
  {
    |f.tele.mVehicles| == MaxMappedVehicles && |f.scor.mVehicles| == MaxMappedVehicles
  }
}
