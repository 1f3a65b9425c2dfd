/** The Terraform resource for a Segment destination
    (segment/resource_segment_destination.go): the configs attribute is a
    set of local entries converted to and from the service's
    DestinationConfig records; an import key "<source>/<destination>" is
    split at its first "/"; Create, Read, Update, Delete and Import drive a
    destination client and fill the record. */
module DestinationResource {
  import opened SegmentTypes
  import opened Strings

  // ---------------------------------------------------------------------
  // The configs attribute and its conversion to and from the wire

  /** One member of the configs set: the keys id, name, value and type. */
  datatype LocalConfig = LocalConfig(id: string, name: string, value: string, configType: string)

  /** The entry extractConfigs builds from one set member. */
  function ToWire(c: LocalConfig): DestinationConfig
  {
    DestinationConfig(c.id, c.name, JString(c.value), c.configType)
  }

  /** fmt.Sprintf("%v", v) of a decoded JSON value. Strings print as
      themselves, booleans as true/false, null as <nil>; numbers, arrays and
      objects print as the given formatter says. */
  function ToText(v: JsonValue, format: JsonValue -> string): string
  {
    match v
    case JString(s) => s
    case JBool(b) => if b then "true" else "false"
    case JNull => "<nil>"
    case _ => format(v)
  }

  /** The set member Import builds from one fetched config. */
  function ToLocal(w: DestinationConfig, format: JsonValue -> string): LocalConfig
  {
    LocalConfig(w.name, w.displayName, ToText(w.value, format), w.configType)
  }

  /** A local entry survives the trip to the wire and back unchanged. */
  lemma LocalWireLocal(c: LocalConfig, format: JsonValue -> string)
    ensures ToLocal(ToWire(c), format) == c
  {
  }

  /** A wire entry survives the trip to a local entry and back exactly when
      its value is a string: any other value comes back as its text. */
  lemma WireLocalWire(w: DestinationConfig, format: JsonValue -> string)
    ensures ToWire(ToLocal(w, format)) == w <==> w.value.JString?
  {
  }

  /** What extractConfigs returns: nothing for a nil set, otherwise one
      entry per member, in the set's order, with nothing dropped or merged. */
  function Extracted(s: Option<seq<LocalConfig>>): (configs: seq<DestinationConfig>)
    ensures s.None? ==> configs == []
    ensures s.Some? ==> |configs| == |s.value|
    ensures s.Some? ==> forall i :: 0 <= i < |configs| ==>
      configs[i].name == s.value[i].id && configs[i].displayName == s.value[i].name
      && configs[i].value == JString(s.value[i].value) && configs[i].configType == s.value[i].configType
  {
    match s
    case None => []
    case Some(members) => seq(|members|, i requires 0 <= i < |members| => ToWire(members[i]))
  }

  /** extractConfigs: the loop appending one wire entry per set member. */
  method ExtractConfigs(s: Option<seq<LocalConfig>>) returns (configs: seq<DestinationConfig>)
    ensures configs == Extracted(s)
  {
    configs := [];
    if s.Some? {
      var members := s.value;
      for i := 0 to |members|
        invariant |configs| == i
        invariant forall j :: 0 <= j < i ==> configs[j] == ToWire(members[j])
      {
        var config := members[i];
        var c := DestinationConfig(config.id, config.name, JString(config.value), config.configType);
        configs := configs + [c];
      }
    }
  }

  /** The members Import builds, before they go into a set: one per fetched
      config, in order. */
  function LocalConfigs(wire: seq<DestinationConfig>, format: JsonValue -> string): (y: seq<LocalConfig>)
    ensures |y| == |wire|
    ensures forall i :: 0 <= i < |y| ==>
      y[i].id == wire[i].name && y[i].name == wire[i].displayName
      && y[i].value == ToText(wire[i].value, format) && y[i].configType == wire[i].configType
  {
    seq(|wire|, i requires 0 <= i < |wire| => ToLocal(wire[i], format))
  }

  /** The import loop filling the array y, one slot per fetched config. */
  method ImportedConfigs(wire: seq<DestinationConfig>, format: JsonValue -> string) returns (y: seq<LocalConfig>)
    ensures y == LocalConfigs(wire, format)
  {
    var a := new LocalConfig[|wire|];
    for i := 0 to |wire|
      invariant forall j :: 0 <= j < i ==> a[j] == ToLocal(wire[j], format)
    {
      var v := wire[i];
      a[i] := LocalConfig(v.name, v.displayName, ToText(v.value, format), v.configType);
    }
    y := a[..];
  }

  /** The configs extracted from a set and imported back are the set's own
      members: extractConfigs and the import loop are inverse. */
  lemma ExtractedThenImported(members: seq<LocalConfig>, format: JsonValue -> string)
    ensures LocalConfigs(Extracted(Some(members)), format) == members
  {
    var back := LocalConfigs(Extracted(Some(members)), format);
    forall i | 0 <= i < |members|
      ensures back[i] == members[i]
    {
      LocalWireLocal(members[i], format);
    }
  }

  /** Fetched configs whose values are all strings, once imported and
      extracted again, are the fetched configs. */
  lemma ImportedThenExtracted(wire: seq<DestinationConfig>, format: JsonValue -> string)
    requires forall i :: 0 <= i < |wire| ==> wire[i].value.JString?
    ensures Extracted(Some(LocalConfigs(wire, format))) == wire
  {
    var back := Extracted(Some(LocalConfigs(wire, format)));
    forall i | 0 <= i < |wire|
      ensures back[i] == wire[i]
    {
      WireLocalWire(wire[i], format);
    }
  }

  // ---------------------------------------------------------------------
  // The configs set: identity is the id alone

  predicate UniqueIds(s: seq<LocalConfig>)
  {
    forall i, j :: 0 <= i < j < |s| ==> s[i].id != s[j].id
  }

  function Ids(s: seq<LocalConfig>): set<string>
  {
    set c | c in s :: c.id
  }

  /** The ids of a sequence with one more member. */
  lemma IdsAppend(s: seq<LocalConfig>, c: LocalConfig)
    ensures Ids(s + [c]) == Ids(s) + {c.id}
  {
    assert c in s + [c];
    forall x | x in Ids(s)
      ensures x in Ids(s + [c])
    {
      var d :| d in s && d.id == x;
      assert d in s + [c];
    }
  }

  /** schema.NewSet with a hash of the id: members are added in order and a
      member whose id is already present is not added again. The result has
      one member per id of the input, and only members of the input. */
  function SetById(y: seq<LocalConfig>): (s: seq<LocalConfig>)
    ensures UniqueIds(s)
    ensures forall c :: c in s ==> c in y
    ensures Ids(s) == Ids(y)
  {
    if y == [] then []
    else
      var front := y[..|y| - 1];
      var c := Last(y);
      var kept := SetById(front);
      assert y == front + [c];
      IdsAppend(front, c);
      if c.id in Ids(kept) then kept
      else
        IdsAppend(kept, c);
        assert forall i :: 0 <= i < |kept| ==> kept[i] in kept;
        kept + [c]
  }

  /** The member kept for an id is the first one with that id. */
  lemma {:induction false} SetByIdKeepsFirst(y: seq<LocalConfig>, i: nat)
    requires i < |y|
    requires forall j :: 0 <= j < i ==> y[j].id != y[i].id
    ensures y[i] in SetById(y)
  {
    var front := y[..|y| - 1];
    var c := Last(y);
    var kept := SetById(front);
    if i < |y| - 1 {
      SetByIdKeepsFirst(front, i);
    } else {
      forall d | d in kept
        ensures d.id != c.id
      {
        var k :| 0 <= k < |front| && front[k] == d;
      }
    }
  }

  /** Adding one member at the end: it is kept exactly when its id is new. */
  lemma SetByIdSnoc(front: seq<LocalConfig>, c: LocalConfig)
    ensures SetById(front + [c])
         == if c.id in Ids(SetById(front)) then SetById(front) else SetById(front) + [c]
  {
    var y := front + [c];
    assert y[..|y| - 1] == front;
  }

  /** In members with distinct ids, the last id appears nowhere before. */
  lemma LastIdIsNew(y: seq<LocalConfig>)
    requires UniqueIds(y) && y != []
    ensures Last(y).id !in Ids(y[..|y| - 1])
  {
    var front := y[..|y| - 1];
    forall d | d in front
      ensures d.id != Last(y).id
    {
      var k :| 0 <= k < |front| && front[k] == d;
      assert y[k] == d;
    }
  }

  /** Members that already have distinct ids form the set unchanged. */
  lemma {:induction false} SetByIdOfUniqueIds(y: seq<LocalConfig>)
    requires UniqueIds(y)
    ensures SetById(y) == y
  {
    if y != [] {
      var front, c := y[..|y| - 1], Last(y);
      assert y == front + [c];
      assert UniqueIds(front);
      SetByIdOfUniqueIds(front);
      LastIdIsNew(y);
      SetByIdSnoc(front, c);
    }
  }

  /** Making a set twice is the same as making it once. */
  lemma SetByIdIsIdempotent(y: seq<LocalConfig>)
    ensures SetById(SetById(y)) == SetById(y)
  {
    SetByIdOfUniqueIds(SetById(y));
  }

  // ---------------------------------------------------------------------
  // The import key

  datatype ImportKey = ImportKey(source: string, destination: string)

  /** strings.SplitN(id, "/", 2) and the length check: a key without "/" is
      rejected, otherwise the source is the text before the first "/" and
      the destination is the rest, which may hold more "/". */
  function SplitImportKey(key: string): (r: Result<ImportKey>)
    ensures r.Err? <==> '/' !in key
    ensures r.Err? ==> r.error == InvalidImportFormat(key)
    ensures r.Ok? ==> '/' !in r.value.source && r.value.source + "/" + r.value.destination == key
  {
    var s := SplitN2(key, '/');
    if |s| != 2 then Err(InvalidImportFormat(key))
    else Ok(ImportKey(s[0], s[1]))
  }

  /** A "/"-free prefix of a key that the key continues with "/" is no
      shorter than any other "/"-free prefix. */
  lemma FreePrefixIsLonger(key: string, a: string, b: string)
    requires '/' !in a && |a| <= |key| && key[..|a|] == a
    requires |b| < |key| && key[|b|] == '/'
    ensures |a| <= |b|
  {
    forall q | 0 <= q < |a|
      ensures key[q] != '/'
    {
      assert key[q] == a[q];
    }
  }

  /** Splitting the key written from a source without "/" and any
      destination gives back that source and destination. */
  lemma SplitImportKeyOfJoined(source: string, destination: string)
    requires '/' !in source
    ensures SplitImportKey(source + "/" + destination) == Ok(ImportKey(source, destination))
  {
    var key := source + "/" + destination;
    var r := SplitImportKey(key);
    assert key[|source|] == '/';
    assert r.Ok?;
    var p := r.value.source;
    assert key[..|p|] == p && key[|p|] == '/' by {
      assert key == p + "/" + r.value.destination;
    }
    assert key[..|source|] == source;
    FreePrefixIsLonger(key, source, p);
    FreePrefixIsLonger(key, p, source);
    assert p == source;
    assert key[|source| + 1..] == destination;
    assert r.value.destination == key[|p| + 1..] by {
      assert key == p + "/" + r.value.destination;
    }
  }

  lemma SplitImportKeyExamples()
    ensures SplitImportKey("src/dest") == Ok(ImportKey("src", "dest"))
    ensures SplitImportKey("a/b/c") == Ok(ImportKey("a", "b/c"))
    ensures SplitImportKey("dest") == Err(InvalidImportFormat("dest"))
  {
    SplitImportKeyOfJoined("src", "dest");
    assert "src" + "/" + "dest" == "src/dest";
    SplitImportKeyOfJoined("a", "b/c");
    assert "a" + "/" + "b/c" == "a/b/c";
  }

  // ---------------------------------------------------------------------
  // The destination client

  /** A request to the Config API's destination endpoints, with the
      arguments the resource passes. */
  datatype DestinationCall =
    | CreateCall(source: string, destination: string, connectionMode: string, enabled: bool,
                 configs: seq<DestinationConfig>)
    | GetCall(source: string, destination: string)
    | UpdateCall(source: string, destination: string, enabled: bool, configs: seq<DestinationConfig>)
    | DeleteCall(source: string, destination: string)

  /** The service's answers, in the order they come; when there are none
      left the transport fails. */
  function NextReply(replies: seq<Result<Destination>>): Result<Destination>
  {
    if replies == [] then Err(TransportError("no reply")) else replies[0]
  }

  function RestReplies(replies: seq<Result<Destination>>): seq<Result<Destination>>
  {
    if replies == [] then [] else replies[1..]
  }

  /** The client as the resource sees it: every call is logged and takes
      the next answer. */
  class DestinationClient {
    var replies: seq<Result<Destination>>
    var calls: seq<DestinationCall>

    constructor (replies: seq<Result<Destination>>)
      ensures this.replies == replies && calls == []
    {
      this.replies := replies;
      calls := [];
    }

    method Call(c: DestinationCall) returns (r: Result<Destination>)
      modifies this
      ensures calls == old(calls) + [c]
      ensures replies == RestReplies(old(replies))
      ensures r == NextReply(old(replies))
    {
      calls := calls + [c];
      r := NextReply(replies);
      replies := RestReplies(replies);
    }

    method CreateDestination(source: string, destination: string, connectionMode: string, enabled: bool,
                             configs: seq<DestinationConfig>) returns (r: Result<Destination>)
      modifies this
      ensures calls == old(calls) + [CreateCall(source, destination, connectionMode, enabled, configs)]
      ensures replies == RestReplies(old(replies))
      ensures r == NextReply(old(replies))
    {
      r := Call(CreateCall(source, destination, connectionMode, enabled, configs));
    }

    method GetDestination(source: string, destination: string) returns (r: Result<Destination>)
      modifies this
      ensures calls == old(calls) + [GetCall(source, destination)]
      ensures replies == RestReplies(old(replies))
      ensures r == NextReply(old(replies))
    {
      r := Call(GetCall(source, destination));
    }

    method UpdateDestination(source: string, destination: string, enabled: bool,
                             configs: seq<DestinationConfig>) returns (r: Result<Destination>)
      modifies this
      ensures calls == old(calls) + [UpdateCall(source, destination, enabled, configs)]
      ensures replies == RestReplies(old(replies))
      ensures r == NextReply(old(replies))
    {
      r := Call(UpdateCall(source, destination, enabled, configs));
    }

    method DeleteDestination(source: string, destination: string) returns (err: Option<Error>)
      modifies this
      ensures calls == old(calls) + [DeleteCall(source, destination)]
      ensures replies == RestReplies(old(replies))
      ensures err == if NextReply(old(replies)).Err? then Some(NextReply(old(replies)).error) else None
    {
      var r := Call(DeleteCall(source, destination));
      if r.Err? {
        return Some(r.error);
      }
      return None;
    }
  }

  // ---------------------------------------------------------------------
  // The record

  datatype DestState = DestState(
    id: string, sourceName: string, destinationName: string,
    connectionMode: string, enabled: bool, configs: seq<LocalConfig>)

  /** The Terraform record (schema.ResourceData) of one destination. */
  class DestinationRecord {
    var id: string
    var sourceName: string
    var destinationName: string
    var connectionMode: string
    var enabled: bool
    var configs: seq<LocalConfig>

    constructor (st: DestState)
      ensures State() == st
    {
      id := st.id;
      sourceName := st.sourceName;
      destinationName := st.destinationName;
      connectionMode := st.connectionMode;
      enabled := st.enabled;
      configs := st.configs;
    }

    function State(): DestState
      reads this
    {
      DestState(id, sourceName, destinationName, connectionMode, enabled, configs)
    }
  }

  /** What the resource uses but does not define: idToName, the formatting
      of config values, and the framework's conversion of the fetched
      configs when Read stores them (Err when the framework refuses them,
      in which case the attribute keeps its value and the error is dropped). */
  datatype Environment = Environment(
    idToName: string -> string,
    format: JsonValue -> string,
    storeConfigs: seq<DestinationConfig> -> Result<seq<LocalConfig>>)

  /** What one resource operation does: the record afterwards, the error it
      returns, the calls it makes in order, and the answers left over. */
  datatype DestOutcome = DestOutcome(
    state: DestState, err: Option<Error>, calls: seq<DestinationCall>, rest: seq<Result<Destination>>)

  function CalledFirst(c: DestinationCall, o: DestOutcome): DestOutcome
  {
    o.(calls := [c] + o.calls)
  }

  // ---------------------------------------------------------------------
  // Read

  /** The configs attribute after Read stores the fetched configs. */
  function StoredConfigs(env: Environment, oldConfigs: seq<LocalConfig>, fetched: seq<DestinationConfig>): seq<LocalConfig>
  {
    match env.storeConfigs(fetched)
    case Ok(local) => local
    case Err(_) => oldConfigs
  }

  function ReadSpec(env: Environment, st: DestState, replies: seq<Result<Destination>>): DestOutcome
  {
    var destName := env.idToName(st.id);
    var call := GetCall(st.sourceName, destName);
    match NextReply(replies)
    case Err(e) =>
      DestOutcome(st, Some(OperationFailed(ReadingDestination, [st.sourceName, destName], e)), [call], RestReplies(replies))
    case Ok(d) =>
      var next := st.(enabled := d.enabled, configs := StoredConfigs(env, st.configs, d.configs),
                      connectionMode := d.connectionMode);
      DestOutcome(next, None, [call], RestReplies(replies))
  }

  method Read(r: DestinationRecord, client: DestinationClient, env: Environment) returns (err: Option<Error>)
    modifies r, client
    ensures var o := ReadSpec(env, old(r.State()), old(client.replies));
      && r.State() == o.state && err == o.err
      && client.calls == old(client.calls) + o.calls && client.replies == o.rest
  {
    var srcName := r.sourceName;
    var id := r.id;
    var destName := env.idToName(id);
    var d := client.GetDestination(srcName, destName);
    if d.Err? {
      return Some(OperationFailed(ReadingDestination, [srcName, destName], d.error));
    }
    r.enabled := d.value.enabled;
    var stored := env.storeConfigs(d.value.configs);
    if stored.Ok? {
      r.configs := stored.value;
    }
    r.connectionMode := d.value.connectionMode;
    return None;
  }

  /** Read asks for the destination named by the id, never clears or
      changes the id, and changes at most enabled, configs and
      connection_mode; a failed fetch changes nothing and is an error. */
  lemma ReadKeepsIdentity(env: Environment, st: DestState, replies: seq<Result<Destination>>)
    ensures var o := ReadSpec(env, st, replies);
      && o.calls == [GetCall(st.sourceName, env.idToName(st.id))]
      && o.state.id == st.id
      && o.state.(enabled := st.enabled, configs := st.configs, connectionMode := st.connectionMode) == st
      && (o.err.Some? <==> NextReply(replies).Err?)
      && (o.err.Some? ==> o.state == st)
  {
  }

  /** On a successful fetch, enabled and connection_mode are the fetched
      ones. */
  lemma ReadCopiesFetched(env: Environment, st: DestState, replies: seq<Result<Destination>>, d: Destination)
    requires NextReply(replies) == Ok(d)
    ensures var o := ReadSpec(env, st, replies);
      && o.err == None
      && o.state.enabled == d.enabled && o.state.connectionMode == d.connectionMode
      && o.state.configs == StoredConfigs(env, st.configs, d.configs)
  {
  }

  // ---------------------------------------------------------------------
  // Create

  function CreateSpec(env: Environment, st: DestState, replies: seq<Result<Destination>>): DestOutcome
  {
    var call := CreateCall(st.sourceName, st.destinationName, st.connectionMode, st.enabled,
                           Extracted(Some(st.configs)));
    match NextReply(replies)
    case Err(e) =>
      DestOutcome(st, Some(OperationFailed(CreatingDestination, [st.sourceName, st.destinationName], e)),
                  [call], RestReplies(replies))
    case Ok(d) => CalledFirst(call, ReadSpec(env, st.(id := d.name), RestReplies(replies)))
  }

  method Create(r: DestinationRecord, client: DestinationClient, env: Environment) returns (err: Option<Error>)
    modifies r, client
    ensures var o := CreateSpec(env, old(r.State()), old(client.replies));
      && r.State() == o.state && err == o.err
      && client.calls == old(client.calls) + o.calls && client.replies == o.rest
  {
    var srcName := r.sourceName;
    var destName := r.destinationName;
    var connMode := r.connectionMode;
    var enabled := r.enabled;
    var configs := ExtractConfigs(Some(r.configs));
    var dest := client.CreateDestination(srcName, destName, connMode, enabled, configs);
    if dest.Err? {
      return Some(OperationFailed(CreatingDestination, [srcName, destName], dest.error));
    }
    r.id := dest.value.name;
    err := Read(r, client, env);
  }

  /** Create sends every attribute of the record, then, if the service
      accepted it, takes the full returned name as the id and reads the
      destination by it; a refused create leaves the record as it was. */
  lemma CreateSetsFullNameThenReads(env: Environment, st: DestState, replies: seq<Result<Destination>>)
    ensures var o := CreateSpec(env, st, replies);
      && |o.calls| >= 1
      && o.calls[0] == CreateCall(st.sourceName, st.destinationName, st.connectionMode, st.enabled,
                                  Extracted(Some(st.configs)))
      && (NextReply(replies).Err? ==> o.state == st && o.err.Some? && |o.calls| == 1)
      && (NextReply(replies).Ok? ==>
            && o.state.id == NextReply(replies).value.name
            && o.calls == [o.calls[0], GetCall(st.sourceName, env.idToName(NextReply(replies).value.name))])
  {
    if NextReply(replies).Ok? {
      ReadKeepsIdentity(env, st.(id := NextReply(replies).value.name), RestReplies(replies));
    }
  }

  // ---------------------------------------------------------------------
  // Update

  function UpdateSpec(env: Environment, st: DestState, replies: seq<Result<Destination>>): DestOutcome
  {
    var destName := env.idToName(st.id);
    var call := UpdateCall(st.sourceName, destName, st.enabled, Extracted(Some(st.configs)));
    match NextReply(replies)
    case Err(e) =>
      DestOutcome(st, Some(OperationFailed(UpdatingDestination, [st.sourceName, destName], e)),
                  [call], RestReplies(replies))
    case Ok(_) => CalledFirst(call, ReadSpec(env, st, RestReplies(replies)))
  }

  method Update(r: DestinationRecord, client: DestinationClient, env: Environment) returns (err: Option<Error>)
    modifies r, client
    ensures var o := UpdateSpec(env, old(r.State()), old(client.replies));
      && r.State() == o.state && err == o.err
      && client.calls == old(client.calls) + o.calls && client.replies == o.rest
  {
    var srcName := r.sourceName;
    var configs := ExtractConfigs(Some(r.configs));
    var enabled := r.enabled;
    var id := r.id;
    var destName := env.idToName(id);
    var updated := client.UpdateDestination(srcName, destName, enabled, configs);
    if updated.Err? {
      return Some(OperationFailed(UpdatingDestination, [srcName, destName], updated.error));
    }
    err := Read(r, client, env);
  }

  /** The update request carries enabled and every config of the record
      and never the connection mode: two records that differ only in
      connection_mode send the same request. */
  lemma UpdateIgnoresConnectionMode(env: Environment, st: DestState, mode: string,
                                    replies: seq<Result<Destination>>)
    ensures var o, o' := UpdateSpec(env, st, replies), UpdateSpec(env, st.(connectionMode := mode), replies);
      && |o.calls| >= 1 && |o'.calls| >= 1
      && o.calls[0] == o'.calls[0]
      && o.calls[0] == UpdateCall(st.sourceName, env.idToName(st.id), st.enabled, Extracted(Some(st.configs)))
      && |o.calls[0].configs| == |st.configs|
  {
  }

  /** A successful update is followed by a Read; a failed one changes
      nothing and returns its error. */
  lemma UpdateThenReads(env: Environment, st: DestState, replies: seq<Result<Destination>>)
    ensures var o := UpdateSpec(env, st, replies);
      && (NextReply(replies).Err? ==> o.state == st && o.err.Some? && |o.calls| == 1)
      && (NextReply(replies).Ok? ==> o == CalledFirst(o.calls[0], ReadSpec(env, st, RestReplies(replies))))
  {
  }

  // ---------------------------------------------------------------------
  // Delete

  /** Delete makes exactly one call, for the destination named by the id,
      changes nothing in the record and wraps the call's error. */
  method Delete(r: DestinationRecord, client: DestinationClient, env: Environment) returns (err: Option<Error>)
    modifies client
    ensures client.calls == old(client.calls) + [DeleteCall(r.sourceName, env.idToName(r.id))]
    ensures client.replies == RestReplies(old(client.replies))
    ensures err == match NextReply(old(client.replies))
                   case Ok(_) => None
                   case Err(e) => Some(OperationFailed(DeletingDestination, [r.sourceName, env.idToName(r.id)], e))
  {
    var srcName := r.sourceName;
    var id := r.id;
    var destName := env.idToName(id);
    var e := client.DeleteDestination(srcName, destName);
    if e.Some? {
      return Some(OperationFailed(DeletingDestination, [srcName, destName], e.value));
    }
    return None;
  }

  // ---------------------------------------------------------------------
  // Import

  function ImportSpec(env: Environment, st: DestState, replies: seq<Result<Destination>>): DestOutcome
  {
    match SplitImportKey(st.id)
    case Err(e) => DestOutcome(st, Some(e), [], replies)
    case Ok(key) =>
      var call := GetCall(key.source, key.destination);
      match NextReply(replies)
      case Err(e) =>
        DestOutcome(st, Some(OperationFailed(InvalidDestination, [st.id], e)), [call], RestReplies(replies))
      case Ok(d) =>
        var next := DestState(d.name, key.source, key.destination, d.connectionMode, d.enabled,
                              SetById(LocalConfigs(d.configs, env.format)));
        DestOutcome(next, None, [call], RestReplies(replies))
  }

  method Import(r: DestinationRecord, client: DestinationClient, env: Environment)
    returns (results: seq<DestinationRecord>, err: Option<Error>)
    modifies r, client
    ensures var o := ImportSpec(env, old(r.State()), old(client.replies));
      && r.State() == o.state && err == o.err
      && client.calls == old(client.calls) + o.calls && client.replies == o.rest
      && results == (if err.None? then [r] else [])
  {
    var key := SplitImportKey(r.id);
    if key.Err? {
      return [], Some(key.error);
    }
    var srcName := key.value.source;
    var destName := key.value.destination;
    var d := client.GetDestination(srcName, destName);
    if d.Err? {
      return [], Some(OperationFailed(InvalidDestination, [r.id], d.error));
    }
    r.id := d.value.name;
    r.sourceName := srcName;
    r.destinationName := destName;
    r.enabled := d.value.enabled;
    r.connectionMode := d.value.connectionMode;
    var y := ImportedConfigs(d.value.configs, env.format);
    r.configs := SetById(y);
    return [r], None;
  }

  /** A key without "/" is rejected before any call, and the record is
      left as it was; a key with one is never rejected for its form. */
  lemma ImportRejectsKeyWithoutSlash(env: Environment, st: DestState, replies: seq<Result<Destination>>)
    ensures var o := ImportSpec(env, st, replies);
      && (o.calls == [] <==> '/' !in st.id)
      && ('/' !in st.id ==> o.err == Some(InvalidImportFormat(st.id)) && o.state == st && o.rest == replies)
  {
  }

  /** A well-formed key leads to one fetch of "<source>/<destination>" as
      split at the first "/"; on success the record takes the fetched full
      name as its id, the two halves of the key, the fetched enabled and
      connection mode, and one config per fetched config id. */
  lemma ImportFillsRecord(env: Environment, source: string, destination: string, st: DestState,
                          replies: seq<Result<Destination>>, d: Destination)
    requires '/' !in source && st.id == source + "/" + destination
    requires NextReply(replies) == Ok(d)
    ensures var o := ImportSpec(env, st, replies);
      && o.calls == [GetCall(source, destination)]
      && o.err == None
      && o.state.id == d.name
      && o.state.sourceName == source && o.state.destinationName == destination
      && o.state.enabled == d.enabled && o.state.connectionMode == d.connectionMode
      && UniqueIds(o.state.configs)
      && Ids(o.state.configs) == set c | c in d.configs :: c.name
  {
    SplitImportKeyOfJoined(source, destination);
    var y := LocalConfigs(d.configs, env.format);
    forall x | x in set c | c in d.configs :: c.name
      ensures x in Ids(y)
    {
      var c :| c in d.configs && c.name == x;
      var i :| 0 <= i < |d.configs| && d.configs[i] == c;
      assert y[i] in y;
    }
    forall x | x in Ids(y)
      ensures x in set c | c in d.configs :: c.name
    {
      var c :| c in y && c.id == x;
      var i :| 0 <= i < |y| && y[i] == c;
      assert d.configs[i] in d.configs;
    }
  }

  /** A failed fetch during import changes nothing and is an error. */
  lemma ImportFetchFailureChangesNothing(env: Environment, st: DestState, replies: seq<Result<Destination>>)
    requires '/' in st.id
    requires NextReply(replies).Err?
    ensures var o := ImportSpec(env, st, replies);
      && o.state == st && o.err.Some? && |o.calls| == 1
  {
  }
}
