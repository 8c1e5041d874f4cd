/** Value types shared by the connection bar and the aggregation tab:
    the three-valued load status, JSON values, and the records that the two
    components keep in their state. */
module Types {

  datatype Option<+T> = None | Some(value: T)

  /** VALUE_STATES: the load status of a view or of the connection. */
  datatype ValueState = Unloaded | Loading | Loaded

  /** A JSON value, as produced by parsing a stage body or returned as a document.
      Numbers are kept as integers (floating point is not modelled). */
  datatype Json =
    | JNull
    | JBool(b: bool)
    | JNumber(n: int)
    | JString(s: string)
    | JArray(elements: seq<Json>)
    | JObject(members: seq<(string, Json)>)

  /** One pipeline stage as the user edits it (AggregationStageInput). */
  datatype StageInput = StageInput(collapsed: bool, stageOperation: string, stageBody: string)

  /** The result panel of one stage (AggregationStageOutput). `status` is the
      key that the connection bar's collection select adds to every entry;
      `None` stands for an entry that does not carry the key yet. */
  datatype StageOutput = StageOutput(loading: bool, documents: seq<Json>, status: Option<ValueState>)

  /** One collection of a database, as listed by the connect call. */
  datatype CollectionSpecification = CollectionSpecification(name: string)

  /** What the catalog holds for one database: its collections. */
  datatype DatabaseSpecification = DatabaseSpecification(collections: seq<CollectionSpecification>)

  function Min(a: int, b: int): int
  {
    if a <= b then a else b
  }
}
