/** The tracking-plan calls of the Segment Config API client
    (vendor/.../segment/tracking_plans.go): each builds a request path from
    the workspace and the plan, hands the request to doRequest, and decodes
    the reply. doRequest itself is HTTP transport and is modelled as a fake
    that replays a script of replies and records every request it is given. */
module TrackingPlansApi {
  import opened SegmentTypes
  import opened Strings

  datatype HttpMethod = Get | Post | Put | Delete

  /** The request bodies (trackingPlanCreateRequest, trackingPlanUpdateRequest,
      trackingPlanSourceConnection), or nil. */
  datatype Body =
    | NoBody
    | PlanCreate(trackingPlan: TrackingPlan)
    | PlanUpdate(trackingPlan: TrackingPlan, updateMask: UpdateMask)
    | ConnectionCreate(connection: SourceConnection)

  datatype Request = Request(verb: HttpMethod, path: string, body: Body)

  /** What doRequest returns: an error, or the response bytes. */
  datatype Response = Failure(err: Error) | Success(data: Bytes)

  /** json.Unmarshal into each response type; the JSON library is not part
      of this model, so the decoders are supplied with the client. */
  datatype WireCodec = WireCodec(
    plans: Bytes -> Result<TrackingPlans>,
    plan: Bytes -> Result<TrackingPlan>,
    connection: Bytes -> Result<SourceConnection>,
    connections: Bytes -> Result<SourceConnections>)

  const PlansDecodeFailure := "failed to unmarshal tracking plans response"
  const PlanDecodeFailure := "failed to unmarshal tracking plan response"
  const CreatedPlanDecodeFailure := "failed to unmarshall tracking plan response"
  const ConnectionDecodeFailure := "failed to unmarshal tracking plan source connection response"

  /** A transport whose script has run out fails like an unreachable server. */
  const NoReply := Failure(TransportError("no reply"))

  function Next(replies: seq<Response>): Response
  {
    if replies == [] then NoReply else replies[0]
  }

  function Rest(replies: seq<Response>): seq<Response>
  {
    if replies == [] then [] else replies[1..]
  }

  /** What a decoding call returns for a reply: the transport error as it is,
      or the decoded value, or the decoder's error wrapped with message. */
  function Receive<T>(resp: Response, decode: Bytes -> Result<T>, message: string): Result<T>
  {
    match resp
    case Failure(e) => Err(e)
    case Success(data) =>
      match decode(data)
      case Ok(v) => Ok(v)
      case Err(e) => Err(Wrapped(message, e))
  }

  /** What a call that ignores the response body returns for a reply. */
  function ErrorOf(resp: Response): Option<Error>
  {
    match resp
    case Failure(e) => Some(e)
    case Success(_) => None
  }

  /** Segments of a request path, joined by "/" as the format strings do. */
  function Path(segments: seq<string>): string
  {
    Join(segments, '/')
  }

  function ListPlansRequest(ws: string): Request
  {
    Request(Get, Path([WorkspacesEndpoint, ws, TrackingPlanEndpoint]), NoBody)
  }

  function GetPlanRequest(ws: string, planName: string): Request
  {
    Request(Get, Path([WorkspacesEndpoint, ws, TrackingPlanEndpoint, planName]), NoBody)
  }

  function CreatePlanRequest(ws: string, displayName: string, rules: Rules): Request
  {
    Request(Post, Path([WorkspacesEndpoint, ws, TrackingPlanEndpoint, ""]),
            PlanCreate(TrackingPlan("", displayName, rules)))
  }

  function UpdatePlanRequest(ws: string, planName: string, paths: seq<string>, updated: TrackingPlan): Request
  {
    Request(Put, Path([WorkspacesEndpoint, ws, TrackingPlanEndpoint, planName, ""]),
            PlanUpdate(updated, UpdateMask(paths)))
  }

  function CreateConnectionRequest(ws: string, planName: string, srcName: string): Request
  {
    Request(Post,
            Path([WorkspacesEndpoint, ws, TrackingPlanEndpoint, planName, TrackingPlanSourceConnectionEndpoint, ""]),
            ConnectionCreate(SourceConnection(srcName, "")))
  }

  function ListConnectionsRequest(ws: string, planName: string): Request
  {
    Request(Get,
            Path([WorkspacesEndpoint, ws, TrackingPlanEndpoint, planName, TrackingPlanSourceConnectionEndpoint, ""]),
            NoBody)
  }

  function DeletePlanRequest(ws: string, planName: string): Request
  {
    Request(Delete, Path([WorkspacesEndpoint, ws, TrackingPlanEndpoint, planName, ""]), NoBody)
  }

  function DeleteConnectionRequest(ws: string, planName: string, srcName: string): Request
  {
    Request(Delete,
            Path([WorkspacesEndpoint, ws, TrackingPlanEndpoint, planName, TrackingPlanSourceConnectionEndpoint, srcName, ""]),
            NoBody)
  }

  /** Taking a path apart at "/" gives back the segments it was built from,
      when no segment holds a "/". */
  lemma PathSegments(segments: seq<string>)
    requires |segments| >= 1
    requires forall i :: 0 <= i < |segments| ==> '/' !in segments[i]
    ensures Split(Path(segments), '/') == segments
  {
    SplitJoin(segments, '/');
  }

  /** List asks with GET for workspaces/{ws}/tracking-plans, without a
      trailing slash and without a body. */
  lemma ListPlansRequestShape(ws: string)
    requires '/' !in ws
    ensures ListPlansRequest(ws).verb == Get && ListPlansRequest(ws).body == NoBody
    ensures Split(ListPlansRequest(ws).path, '/') == [WorkspacesEndpoint, ws, TrackingPlanEndpoint]
  {
    PathSegments([WorkspacesEndpoint, ws, TrackingPlanEndpoint]);
  }

  /** Get asks with GET for workspaces/{ws}/tracking-plans/{plan}, without a
      trailing slash and without a body. */
  lemma GetPlanRequestShape(ws: string, planName: string)
    requires '/' !in ws && '/' !in planName
    ensures GetPlanRequest(ws, planName).verb == Get && GetPlanRequest(ws, planName).body == NoBody
    ensures Split(GetPlanRequest(ws, planName).path, '/')
         == [WorkspacesEndpoint, ws, TrackingPlanEndpoint, planName]
  {
    PathSegments([WorkspacesEndpoint, ws, TrackingPlanEndpoint, planName]);
  }

  /** Create POSTs to the list path with a trailing slash; its body carries
      the display name and the rules and leaves the plan's name empty. */
  lemma CreatePlanRequestShape(ws: string, displayName: string, rules: Rules)
    ensures var req := CreatePlanRequest(ws, displayName, rules);
      && req.verb == Post
      && req.path == ListPlansRequest(ws).path + "/"
      && req.body == PlanCreate(TrackingPlan("", displayName, rules))
  {
    JoinLast([WorkspacesEndpoint, ws, TrackingPlanEndpoint, ""], '/');
    assert [WorkspacesEndpoint, ws, TrackingPlanEndpoint, ""][..3]
        == [WorkspacesEndpoint, ws, TrackingPlanEndpoint];
  }

  /** Update PUTs to the plan's path with a trailing slash, and passes the
      mask paths through unchanged and in order. */
  lemma UpdatePlanRequestShape(ws: string, planName: string, paths: seq<string>, updated: TrackingPlan)
    ensures var req := UpdatePlanRequest(ws, planName, paths, updated);
      && req.verb == Put
      && req.path == GetPlanRequest(ws, planName).path + "/"
      && req.body.PlanUpdate? && req.body.trackingPlan == updated
      && req.body.updateMask.paths == paths
  {
    JoinLast([WorkspacesEndpoint, ws, TrackingPlanEndpoint, planName, ""], '/');
    assert [WorkspacesEndpoint, ws, TrackingPlanEndpoint, planName, ""][..4]
        == [WorkspacesEndpoint, ws, TrackingPlanEndpoint, planName];
  }

  /** Delete sends DELETE to the plan's path with a trailing slash. */
  lemma DeletePlanRequestShape(ws: string, planName: string)
    ensures var req := DeletePlanRequest(ws, planName);
      req.verb == Delete && req.body == NoBody && req.path == GetPlanRequest(ws, planName).path + "/"
  {
    JoinLast([WorkspacesEndpoint, ws, TrackingPlanEndpoint, planName, ""], '/');
    assert [WorkspacesEndpoint, ws, TrackingPlanEndpoint, planName, ""][..4]
        == [WorkspacesEndpoint, ws, TrackingPlanEndpoint, planName];
  }

  /** The source-connection calls address
      workspaces/{ws}/tracking-plans/{plan}/source-connections/ (create with
      POST, list with GET) and .../source-connections/{src}/ (DELETE). */
  lemma ConnectionRequestShapes(ws: string, planName: string, srcName: string)
    requires '/' !in ws && '/' !in planName && '/' !in srcName
    ensures var c := CreateConnectionRequest(ws, planName, srcName);
      && c.verb == Post && c.body == ConnectionCreate(SourceConnection(srcName, ""))
      && Split(c.path, '/')
         == [WorkspacesEndpoint, ws, TrackingPlanEndpoint, planName, TrackingPlanSourceConnectionEndpoint, ""]
    ensures var l := ListConnectionsRequest(ws, planName);
      l.verb == Get && l.body == NoBody && l.path == CreateConnectionRequest(ws, planName, srcName).path
    ensures var d := DeleteConnectionRequest(ws, planName, srcName);
      && d.verb == Delete && d.body == NoBody
      && Split(d.path, '/')
         == [WorkspacesEndpoint, ws, TrackingPlanEndpoint, planName, TrackingPlanSourceConnectionEndpoint, srcName, ""]
  {
    PathSegments([WorkspacesEndpoint, ws, TrackingPlanEndpoint, planName, TrackingPlanSourceConnectionEndpoint, ""]);
    PathSegments([WorkspacesEndpoint, ws, TrackingPlanEndpoint, planName, TrackingPlanSourceConnectionEndpoint, srcName, ""]);
  }

  /** A transport error is returned as it is, whatever the decoder would have
      done; only a decoder's error is wrapped. */
  lemma OnlyDecodeFailuresAreWrapped<T>(resp: Response, decode: Bytes -> Result<T>, other: Bytes -> Result<T>, message: string)
    ensures resp.Failure? ==> Receive(resp, decode, message) == Err(resp.err) == Receive(resp, other, message)
    ensures resp.Success? && decode(resp.data).Err? ==>
              Receive(resp, decode, message) == Err(Wrapped(message, decode(resp.data).error))
    ensures resp.Success? && decode(resp.data).Ok? ==> Receive(resp, decode, message) == decode(resp.data)
  {
  }

  /** The API client: the workspace it works in, the decoders for its
      replies, and the transport (the replies still to come, the requests
      sent so far). */
  class Client {
    const workspace: string
    const wire: WireCodec
    var pending: seq<Response>
    var sent: seq<Request>

    constructor (workspace: string, wire: WireCodec, replies: seq<Response>)
      ensures this.workspace == workspace && this.wire == wire
      ensures pending == replies && sent == []
    {
      this.workspace := workspace;
      this.wire := wire;
      pending := replies;
      sent := [];
    }

    /** doRequest: sends req and returns the transport's next reply. */
    method DoRequest(req: Request) returns (resp: Response)
      modifies this
      ensures sent == old(sent) + [req]
      ensures resp == Next(old(pending)) && pending == Rest(old(pending))
    {
      sent := sent + [req];
      if pending == [] {
        resp := NoReply;
      } else {
        resp := pending[0];
        pending := pending[1..];
      }
    }

    method ListTrackingPlans() returns (r: Result<TrackingPlans>)
      modifies this
      ensures sent == old(sent) + [ListPlansRequest(workspace)] && pending == Rest(old(pending))
      ensures r == Receive(Next(old(pending)), wire.plans, PlansDecodeFailure)
    {
      var resp := DoRequest(ListPlansRequest(workspace));
      if resp.Failure? {
        return Err(resp.err);
      }
      var decoded := wire.plans(resp.data);
      if decoded.Err? {
        return Err(Wrapped(PlansDecodeFailure, decoded.error));
      }
      return Ok(decoded.value);
    }

    method GetTrackingPlan(planName: string) returns (r: Result<TrackingPlan>)
      modifies this
      ensures sent == old(sent) + [GetPlanRequest(workspace, planName)] && pending == Rest(old(pending))
      ensures r == Receive(Next(old(pending)), wire.plan, PlanDecodeFailure)
    {
      var resp := DoRequest(GetPlanRequest(workspace, planName));
      if resp.Failure? {
        return Err(resp.err);
      }
      var decoded := wire.plan(resp.data);
      if decoded.Err? {
        return Err(Wrapped(PlanDecodeFailure, decoded.error));
      }
      return Ok(decoded.value);
    }

    method CreateTrackingPlan(displayName: string, rules: Rules) returns (r: Result<TrackingPlan>)
      modifies this
      ensures sent == old(sent) + [CreatePlanRequest(workspace, displayName, rules)]
      ensures pending == Rest(old(pending))
      ensures r == Receive(Next(old(pending)), wire.plan, CreatedPlanDecodeFailure)
    {
      var resp := DoRequest(CreatePlanRequest(workspace, displayName, rules));
      if resp.Failure? {
        return Err(resp.err);
      }
      var decoded := wire.plan(resp.data);
      if decoded.Err? {
        return Err(Wrapped(CreatedPlanDecodeFailure, decoded.error));
      }
      return Ok(decoded.value);
    }

    method UpdateTrackingPlan(planName: string, paths: seq<string>, updatedPlan: TrackingPlan)
      returns (r: Result<TrackingPlan>)
      modifies this
      ensures sent == old(sent) + [UpdatePlanRequest(workspace, planName, paths, updatedPlan)]
      ensures pending == Rest(old(pending))
      ensures r == Receive(Next(old(pending)), wire.plan, PlanDecodeFailure)
    {
      var resp := DoRequest(UpdatePlanRequest(workspace, planName, paths, updatedPlan));
      if resp.Failure? {
        return Err(resp.err);
      }
      var decoded := wire.plan(resp.data);
      if decoded.Err? {
        return Err(Wrapped(PlanDecodeFailure, decoded.error));
      }
      return Ok(decoded.value);
    }

    method CreateTrackingPlanSourceConnection(planName: string, srcName: string)
      returns (r: Result<SourceConnection>)
      modifies this
      ensures sent == old(sent) + [CreateConnectionRequest(workspace, planName, srcName)]
      ensures pending == Rest(old(pending))
      ensures r == Receive(Next(old(pending)), wire.connection, ConnectionDecodeFailure)
    {
      var resp := DoRequest(CreateConnectionRequest(workspace, planName, srcName));
      if resp.Failure? {
        return Err(resp.err);
      }
      var decoded := wire.connection(resp.data);
      if decoded.Err? {
        return Err(Wrapped(ConnectionDecodeFailure, decoded.error));
      }
      return Ok(decoded.value);
    }

    method ListTrackingPlanSourceConnections(planName: string) returns (r: Result<SourceConnections>)
      modifies this
      ensures sent == old(sent) + [ListConnectionsRequest(workspace, planName)]
      ensures pending == Rest(old(pending))
      ensures r == Receive(Next(old(pending)), wire.connections, PlanDecodeFailure)
    {
      var resp := DoRequest(ListConnectionsRequest(workspace, planName));
      if resp.Failure? {
        return Err(resp.err);
      }
      var decoded := wire.connections(resp.data);
      if decoded.Err? {
        return Err(Wrapped(PlanDecodeFailure, decoded.error));
      }
      return Ok(decoded.value);
    }

    method DeleteTrackingPlan(planName: string) returns (err: Option<Error>)
      modifies this
      ensures sent == old(sent) + [DeletePlanRequest(workspace, planName)]
      ensures pending == Rest(old(pending))
      ensures err == ErrorOf(Next(old(pending)))
    {
      var resp := DoRequest(DeletePlanRequest(workspace, planName));
      if resp.Failure? {
        return Some(resp.err);
      }
      return None;
    }

    method DeleteTrackingPlanSourceConnection(planName: string, srcName: string) returns (err: Option<Error>)
      modifies this
      ensures sent == old(sent) + [DeleteConnectionRequest(workspace, planName, srcName)]
      ensures pending == Rest(old(pending))
      ensures err == ErrorOf(Next(old(pending)))
    {
      var resp := DoRequest(DeleteConnectionRequest(workspace, planName, srcName));
      if resp.Failure? {
        return Some(resp.err);
      }
      return None;
    }
  }
}
