/** The dashboard's static configuration, held as one immutable value. */
module SensorConfig {

  /** The raw range of the scored channel that is mapped onto [0, 1]. */
  datatype ScoreRange = ScoreRange(min: real, max: real)

  datatype Config = Config(
    collectionName: string,      // the store collection that is subscribed to
    scoreChannel: string,        // the document field that is scored
    scoreRange: ScoreRange,      // normalisation range of that field
    intraPacketIntervalMs: nat,  // time between two samples of one document
    packetsFetch: nat,           // how many documents one batch holds at most
    maxPoints: nat)              // how many points the series keeps

  /** The values the dashboard is built with. */
  const Default: Config :=
    Config("SensorData", "IR", ScoreRange(2600.0, 3200.0), 200, 8, 600)
}
