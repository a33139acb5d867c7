/** The values that flow between the ingestors and the graph service:
    loaded JSON records, the errors the Python code raises, and the
    `RawEpisode` values handed to the bulk call. */
module Records {

  /** One JSON object from a loaded file, field name to the text of its value. */
  type Record = map<string, string>

  datatype Option<+T> = None | Some(value: T)

  /** The exceptions the modelled code raises. */
  datatype Error =
    | MissingKey(key: string)              // KeyError from `record[key]`
    | UnknownAssetType(assetType: string)  // ValueError from DataFactory.create
    | BulkRejected(chunk: nat)             // exception from add_episode_bulk on that chunk

  datatype Result<+T> = Success(value: T) | Failure(error: Error)

  /** graphiti's EpisodeType; every ingestor uses `json`. */
  datatype EpisodeType = Message | Json | Text

  /** What `json.dumps` serialises: one record or a list of records.
      The serialised text itself is left uninterpreted. */
  datatype Content = Dumped(record: Record) | DumpedList(records: seq<Record>)

  /** A reference time: the ISO 8601 text handed to `datetime.fromisoformat`,
      or a reading of the wall clock (`datetime.now(timezone.utc)`). */
  datatype Time = Iso(text: string) | Now

  /** graphiti's RawEpisode; `groupId` is None where the ingestor passes none. */
  datatype Episode = Episode(
    name: string,
    content: Content,
    sourceDescription: string,
    source: EpisodeType,
    referenceTime: Time,
    groupId: Option<string>)

  /** Every record carries `key`, so `record[key]` does not raise. */
  predicate AllHave(rs: seq<Record>, key: string)
  {
    forall r | r in rs :: key in r
  }
}
