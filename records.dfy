// The records the store hands to the models (the dataclasses of app/db/dao.py).
// Every stored record has an id, so the optional ids of the dataclasses are ints here.
module Records {
  import opened Common

  datatype Mission = Mission(id: int, name: string, date: string, desc: string)

  datatype IndicatorCategory = IndicatorCategory(id: int, name: string, desc: string)

  /** `Indicator`: `distribution_type` defaults to "normal", `weight` to 1.0. */
  datatype Indicator = Indicator(
    id: int,
    categoryId: Option<int>,
    name: string,
    unit: string,
    valueType: string,
    mappingJson: string,
    distributionType: string,
    distParams: JsonText,
    weight: real)

  /** A stored value is text; `Numeric` is text that `float()` accepts. */
  datatype ValueText = Numeric(x: real) | NonNumeric(text: string)

  datatype IndicatorValue = IndicatorValue(
    id: int,
    missionId: int,
    indicatorId: int,
    value: ValueText,
    source: string,
    timestamp: string)

  /** `RiskEvent`: likelihood and severity default to 3. */
  datatype RiskEvent = RiskEvent(
    id: int,
    missionId: int,
    name: string,
    hazardType: string,
    desc: string,
    likelihood: int,
    severity: int)

  /** `FMEAItem`: S, O and D default to 5. */
  datatype FmeaItem = FmeaItem(
    id: int,
    missionId: int,
    system: string,
    failureMode: string,
    effect: string,
    cause: string,
    control: string,
    s: int,
    o: int,
    d: int)

  /** `FusionRule`: `input_indicator_ids` and `weights_json` are JSON arrays as text. */
  datatype FusionRule = FusionRule(
    id: int,
    name: string,
    missionId: int,
    inputIndicatorIds: JsonText,
    fusionMethod: string,
    weightSource: string,
    weights: JsonText,
    outputIndicatorName: string,
    outputUnit: string,
    desc: string)

  /** `RiskDataset`: a stored snapshot of the risk data set, as JSON text. */
  datatype RiskDataset = RiskDataset(
    id: int,
    missionId: int,
    createdAt: string,
    dataset: JsonText,
    note: string)

  /** A JSON text column: empty, text that `json.loads` rejects, or the value it parses to. */
  datatype JsonText = EmptyText | UnparsableText | ParsedText(value: Json)

  /** `FTANode`: `node_type` defaults to "BASIC", `gate_type` to "". */
  datatype FtaNode = FtaNode(
    id: int,
    missionId: int,
    name: string,
    nodeType: string,
    gateType: string,
    probability: Option<real>,
    severity: Option<int>,
    desc: string)

  datatype FtaEdge = FtaEdge(parentId: int, childId: int)

  /** The records of `rs` that belong to a mission, in id order (`get_by_mission`). */
  function EventsOf(rs: seq<RiskEvent>, missionId: int): seq<RiskEvent>
  {
    Filter(rs, (e: RiskEvent) => e.missionId == missionId)
  }
}
