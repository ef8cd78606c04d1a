/** Shared value types: an optional value and the station record of the
    radio directory. */
module Types {

  /** A value that may be absent (`null` in the application). */
  datatype Option<+T> = None | Some(value: T)

  /** A station as the directory returns it. Missing text fields are the
      empty string; only `stationUuid`, `url` and `urlResolved` influence
      playback. The JSON names are `stationuuid`, `url_resolved` and
      `countrycode`. */
  datatype Station = Station(
    stationUuid: string,
    name: string,
    url: string,
    urlResolved: string,
    homepage: string,
    favicon: string,
    tags: string,
    country: string,
    countryCode: string,
    state: string,
    language: string,
    votes: int,
    codec: string,
    bitrate: int)
}
