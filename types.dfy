/** The records exchanged with the Segment Config API (types.go), the
    endpoint names (const.go) and the errors the provider passes around. */
module SegmentTypes {

  newtype byte = x: int | 0 <= x < 256
  /** A response body as received from the transport. */
  type Bytes = seq<byte>

  datatype Option<T> = None | Some(value: T)

  /** A Go (value, error) pair where the value matters only without error. */
  datatype Result<T> = Ok(value: T) | Err(error: Error)

  /** The step of a resource operation that failed, as named in its message. */
  datatype Operation =
    | CreatingPlan | ReadingPlan | UpdatingPlan | DeletingPlan | InvalidPlan
    | CreatingDestination | ReadingDestination | UpdatingDestination | DeletingDestination
    | InvalidDestination

  datatype Error =
      /** Anything doRequest reports: network, HTTP status, timeouts. */
    | TransportError(detail: string)
      /** A JSON decoder rejected its input. */
    | DecodeError(detail: string)
      /** A JSON encoder rejected its input. */
    | EncodeError(detail: string)
      /** errors.Wrap(cause, message). */
    | Wrapped(message: string, cause: Error)
      /** fmt.Errorf("ERROR <operation>!! <subjects quoted>; err: %v", cause). */
    | OperationFailed(op: Operation, subjects: seq<string>, cause: Error)
      /** The destination import key has no "/". */
    | InvalidImportFormat(key: string)

  /** A dynamically typed JSON value (Go's interface{} after decoding). */
  datatype JsonValue =
    | JNull
    | JBool(b: bool)
    | JString(s: string)
    | JNumber(literal: string)
    | JArray(items: seq<JsonValue>)
    | JObject(fields: map<string, JsonValue>)

  /** Rule: a JSON-schema node; properties nest rules to any depth. */
  datatype Rule = Rule(
    description: string,
    enum: seq<JsonValue>,
    labels: map<string, JsonValue>,
    pattern: JsonValue,
    properties: map<string, Rule>,
    required: seq<string>,
    ruleType: JsonValue,
    schema: string)

  /** Event: the rules of one tracked event; events keep their list order. */
  datatype Event = Event(name: string, version: int, description: string, rules: Rule)

  datatype Rules = Rules(
    global: Rule,
    events: seq<Event>,
    identify: Rule,
    group: Rule,
    identifyTraits: seq<JsonValue>,
    groupTraits: seq<JsonValue>)

  const ZeroRule := Rule("", [], map[], JNull, map[], [], JNull, "")
  /** The value of segment.Rules{} before anything is decoded into it. */
  const ZeroRules := Rules(ZeroRule, [], ZeroRule, ZeroRule, [], [])

  /** name is the service's full hierarchical name,
      "workspaces/{ws}/tracking-plans/{id}". */
  datatype TrackingPlan = TrackingPlan(name: string, displayName: string, rules: Rules)

  datatype TrackingPlans = TrackingPlans(trackingPlans: seq<TrackingPlan>)

  datatype DestinationConfig = DestinationConfig(
    name: string,
    displayName: string,
    value: JsonValue,
    configType: string)

  datatype Destination = Destination(
    name: string,
    parent: string,
    displayName: string,
    enabled: bool,
    connectionMode: string,
    configs: seq<DestinationConfig>)

  datatype UpdateMask = UpdateMask(paths: seq<string>)

  datatype SourceConnection = SourceConnection(sourceName: string, trackingPlanId: string)

  datatype SourceConnections = SourceConnections(connections: seq<SourceConnection>)

  const WorkspacesEndpoint := "workspaces"
  const SourceEndpoint := "sources"
  const DestinationEndpoint := "destinations"
  const TrackingPlanEndpoint := "tracking-plans"
  const TrackingPlanSourceConnectionEndpoint := "source-connections"
}
