/** The Terraform resource for a Segment tracking plan
    (segment/resource_segment_tracking_plan.go): the short id of a plan is
    the last segment of its full name; Read checks that the plan is still
    listed before fetching it; Create, Update and Import fill the record. */
module TrackingPlanResource {
  import opened SegmentTypes
  import opened Strings
  import opened TrackingPlansApi

  // ---------------------------------------------------------------------
  // Identity: full names "workspaces/{ws}/tracking-plans/{id}" and short ids

  /** `id` is the final "/"-segment of `name`: a suffix without "/" that is
      the whole name or follows a "/". */
  predicate IsFinalSegment(name: string, id: string)
  {
    && '/' !in id
    && |id| <= |name| && name[|name| - |id|..] == id
    && (|id| == |name| || name[|name| - |id| - 1] == '/')
  }

  /** parseNameID: the text after the last "/" of a full name. */
  function ParseNameID(name: string): (id: string)
    ensures '/' !in id
  {
    var parts := Split(name, '/');
    LastPieceIsFinalSegment(name, '/');
    Last(parts)
  }

  /** The short id is the final segment of the name. */
  lemma ParseNameIDIsFinalSegment(name: string)
    ensures IsFinalSegment(name, ParseNameID(name))
  {
    LastPieceIsFinalSegment(name, '/');
  }

  /** A "/"-free suffix of a name is no longer than any suffix that is the
      whole name or follows a "/". */
  lemma FreeSuffixIsShorter(name: string, a: string, b: string)
    requires '/' !in a && |a| <= |name| && name[|name| - |a|..] == a
    requires |b| <= |name| && (|b| == |name| || name[|name| - |b| - 1] == '/')
    ensures |a| <= |b|
  {
    forall q | |name| - |a| <= q < |name|
      ensures name[q] != '/'
    {
      assert name[q] == a[q - (|name| - |a|)];
    }
  }

  /** Being the final segment determines the short id. */
  lemma ParseNameIDIsUnique(name: string, id: string)
    requires IsFinalSegment(name, id)
    ensures ParseNameID(name) == id
  {
    var r := ParseNameID(name);
    ParseNameIDIsFinalSegment(name);
    FreeSuffixIsShorter(name, r, id);
    FreeSuffixIsShorter(name, id, r);
  }

  /** A name without "/" is its own short id. */
  lemma ParseNameIDOfShortName(name: string)
    requires '/' !in name
    ensures ParseNameID(name) == name
  {
    ParseNameIDIsUnique(name, name);
  }

  /** Taking the short id twice is the same as taking it once. */
  lemma ParseNameIDIsIdempotent(name: string)
    ensures ParseNameID(ParseNameID(name)) == ParseNameID(name)
  {
    ParseNameIDOfShortName(ParseNameID(name));
  }

  /** A name that ends with "/" has the empty short id. */
  lemma ParseNameIDOfTrailingSlash(name: string)
    requires |name| > 0 && name[|name| - 1] == '/'
    ensures ParseNameID(name) == ""
  {
    ParseNameIDIsUnique(name, "");
  }

  lemma ParseNameIDExamples()
    ensures ParseNameID("workspaces/w/tracking-plans/tp_123") == "tp_123"
    ensures ParseNameID("tp_123") == "tp_123"
  {
    ParseNameIDIsUnique("workspaces/w/tracking-plans/tp_123", "tp_123");
    ParseNameIDOfShortName("tp_123");
  }

  /** The short id of the path a plan is fetched from is the plan id that
      went into it: the two forms of identity convert into each other. */
  lemma ShortIdOfPlanPath(ws: string, planName: string)
    requires '/' !in planName
    ensures ParseNameID(GetPlanRequest(ws, planName).path) == planName
  {
    var segments := [WorkspacesEndpoint, ws, TrackingPlanEndpoint, planName];
    JoinLast(segments, '/');
    assert segments[..3] == [WorkspacesEndpoint, ws, TrackingPlanEndpoint];
    var front := Join(segments[..3], '/') + ['/'];
    assert Path(segments) == front + planName;
    ParseNameIDIsUnique(Path(segments), planName);
  }

  /** The map getNameIDs builds from a listing: the short id of each listed
      plan to its full name, a later plan overwriting an earlier one that has
      the same short id. */
  function NameIDs(plans: seq<TrackingPlan>): map<string, string>
  {
    if plans == [] then map[]
    else
      var last := Last(plans);
      NameIDs(plans[..|plans| - 1])[ParseNameID(last.name) := last.name]
  }

  /** The keys of the map are exactly the short ids of the listed plans. */
  lemma {:induction false} NameIDsKeys(plans: seq<TrackingPlan>)
    ensures NameIDs(plans).Keys == set p | p in plans :: ParseNameID(p.name)
  {
    if plans != [] {
      var front := plans[..|plans| - 1];
      NameIDsKeys(front);
      assert plans == front + [Last(plans)];
    }
  }

  /** Every entry maps a short id to a listed full name that has that id. */
  lemma {:induction false} NameIDsEntries(plans: seq<TrackingPlan>)
    ensures forall k :: k in NameIDs(plans) ==>
      ParseNameID(NameIDs(plans)[k]) == k && exists p :: p in plans && p.name == NameIDs(plans)[k]
  {
    if plans != [] {
      var front := plans[..|plans| - 1];
      NameIDsEntries(front);
      assert plans == front + [Last(plans)];
    }
  }

  /** Every listed plan's short id is a key of the map. */
  lemma ListedIdIsKey(plans: seq<TrackingPlan>, i: nat)
    requires i < |plans|
    ensures ParseNameID(plans[i].name) in NameIDs(plans)
  {
    NameIDsKeys(plans);
    assert plans[i] in plans;
  }

  /** A listed plan is found under its short id when no later plan in the
      listing has the same short id (the last one listed wins). */
  lemma {:induction false} NameIDsLastListedWins(plans: seq<TrackingPlan>, i: nat)
    requires i < |plans|
    requires forall j :: i < j < |plans| ==> ParseNameID(plans[j].name) != ParseNameID(plans[i].name)
    ensures ParseNameID(plans[i].name) in NameIDs(plans)
    ensures NameIDs(plans)[ParseNameID(plans[i].name)] == plans[i].name
  {
    if i < |plans| - 1 {
      var front := plans[..|plans| - 1];
      NameIDsLastListedWins(front, i);
    }
  }

  /** The loop of getNameIDs over the listed plans. */
  method BuildNameIDs(plans: seq<TrackingPlan>) returns (names: map<string, string>)
    ensures names == NameIDs(plans)
  {
    names := map[];
    for i := 0 to |plans|
      invariant names == NameIDs(plans[..i])
    {
      assert plans[..i + 1][..i] == plans[..i];
      var element := plans[i];
      var id := ParseNameID(element.name);
      names := names[id := element.name];
    }
    assert plans[..|plans|] == plans;
  }

  /** What getNameIDs returns for the transport's next reply. */
  function NameIDsOutcome(wire: WireCodec, replies: seq<Response>): Result<map<string, string>>
  {
    match Receive(Next(replies), wire.plans, PlansDecodeFailure)
    case Err(e) => Err(e)
    case Ok(listing) => Ok(NameIDs(listing.trackingPlans))
  }

  /** getNameIDs: lists the plans and maps their short ids to full names. */
  method GetNameIDs(client: Client) returns (r: Result<map<string, string>>)
    modifies client
    ensures client.sent == old(client.sent) + [ListPlansRequest(client.workspace)]
    ensures client.pending == Rest(old(client.pending))
    ensures r == NameIDsOutcome(client.wire, old(client.pending))
  {
    var plans := client.ListTrackingPlans();
    if plans.Err? {
      return Err(plans.error);
    }
    var names := BuildNameIDs(plans.value.trackingPlans);
    return Ok(names);
  }

  // ---------------------------------------------------------------------
  // The record and the JSON codec of the rules attribute

  /** json.Unmarshal into segment.Rules{}: the value left in the target and
      the error, which the resource drops. */
  datatype Unmarshalled = Unmarshalled(into: Rules, err: Option<Error>)

  /** The JSON library as the resource uses it for the rules attribute. */
  datatype RulesCodec = RulesCodec(
    unmarshal: string -> Unmarshalled,
    marshalIndent: Rules -> Result<string>,
    marshal: Rules -> Result<string>)

  /** The fields Update names in its mask, whatever has changed. */
  const UpdatePaths: seq<string> := ["tracking_plan.display_name", "tracking_plan.rules"]

  datatype PlanState = PlanState(id: string, displayName: string, rules: string, name: string)

  /** The Terraform record (schema.ResourceData) of one tracking plan: its
      id and the attributes display_name, rules and name. */
  class PlanRecord {
    var id: string
    var displayName: string
    var rules: string
    var name: string

    constructor (id: string, displayName: string, rules: string)
      ensures State() == PlanState(id, displayName, rules, "")
    {
      this.id := id;
      this.displayName := displayName;
      this.rules := rules;
      name := "";
    }

    function State(): PlanState
      reads this
    {
      PlanState(id, displayName, rules, name)
    }
  }

  /** What one resource operation does: the record afterwards, the error it
      returns, the requests it sends in order, and the replies left over. */
  datatype PlanOutcome = PlanOutcome(state: PlanState, err: Option<Error>, sent: seq<Request>, rest: seq<Response>)

  function SentFirst(req: Request, o: PlanOutcome): PlanOutcome
  {
    o.(sent := [req] + o.sent)
  }

  // ---------------------------------------------------------------------
  // Read

  function ReadSpec(ws: string, wire: WireCodec, codec: RulesCodec, st: PlanState, replies: seq<Response>): PlanOutcome
  {
    AfterListing(ws, wire, codec, st, NameIDsOutcome(wire, replies), Rest(replies))
  }

  /** Read once the listing has been answered: `names` is the listing's outcome
      and `rest` the replies still to come. */
  function AfterListing(ws: string, wire: WireCodec, codec: RulesCodec, st: PlanState,
                        names: Result<map<string, string>>, rest: seq<Response>): PlanOutcome
  {
    var list := ListPlansRequest(ws);
    match names
    case Err(e) => PlanOutcome(st, Some(e), [list], rest)
    case Ok(ids) =>
      if st.id !in ids then PlanOutcome(st.(id := ""), None, [list], rest)
      else SentFirst(list, FetchSpec(ws, wire, codec, st, rest))
  }

  /** The part of Read after the plan was found in the listing. */
  function FetchSpec(ws: string, wire: WireCodec, codec: RulesCodec, st: PlanState, replies: seq<Response>): PlanOutcome
  {
    var sent := [GetPlanRequest(ws, st.id)];
    match Receive(Next(replies), wire.plan, PlanDecodeFailure)
    case Err(e) => PlanOutcome(st, Some(OperationFailed(ReadingPlan, [st.id], e)), sent, Rest(replies))
    case Ok(plan) =>
      match codec.marshalIndent(plan.rules)
      case Err(e) => PlanOutcome(st, Some(e), sent, Rest(replies))
      case Ok(text) =>
        PlanOutcome(st.(displayName := plan.displayName, rules := text, name := st.id), None, sent, Rest(replies))
  }

  /** The three ways Read can go, after the listing. */
  lemma ReadSpecCases(ws: string, wire: WireCodec, codec: RulesCodec, st: PlanState, replies: seq<Response>)
    ensures var names, list := NameIDsOutcome(wire, replies), ListPlansRequest(ws);
      && (names.Err? ==> ReadSpec(ws, wire, codec, st, replies) == PlanOutcome(st, Some(names.error), [list], Rest(replies)))
      && (names.Ok? && st.id !in names.value ==>
            ReadSpec(ws, wire, codec, st, replies) == PlanOutcome(st.(id := ""), None, [list], Rest(replies)))
      && (names.Ok? && st.id in names.value ==>
            ReadSpec(ws, wire, codec, st, replies) == SentFirst(list, FetchSpec(ws, wire, codec, st, Rest(replies))))
  {
  }

  method Read(r: PlanRecord, client: Client, codec: RulesCodec) returns (err: Option<Error>)
    modifies r, client
    ensures var o := ReadSpec(client.workspace, client.wire, codec, old(r.State()), old(client.pending));
      && r.State() == o.state && err == o.err
      && client.sent == old(client.sent) + o.sent && client.pending == o.rest
  {
    ghost var st, replies, sent := r.State(), client.pending, client.sent;
    var names := GetNameIDs(client);
    if names.Err? {
      return Some(names.error);
    }
    if r.id !in names.value {
      r.id := "";
      return None;
    }
    err := Fetch(r, client, codec);
    assert client.sent == sent + [ListPlansRequest(client.workspace)]
                             + FetchSpec(client.workspace, client.wire, codec, st, Rest(replies)).sent;
  }

  /** Read once the plan is known to be listed: fetch it by its short id and
      copy display_name, rules and name into the record. */
  method Fetch(r: PlanRecord, client: Client, codec: RulesCodec) returns (err: Option<Error>)
    modifies r, client
    ensures var o := FetchSpec(client.workspace, client.wire, codec, old(r.State()), old(client.pending));
      && r.State() == o.state && err == o.err
      && client.sent == old(client.sent) + o.sent && client.pending == o.rest
  {
    var planName := r.id;
    var plan := client.GetTrackingPlan(planName);
    if plan.Err? {
      return Some(OperationFailed(ReadingPlan, [planName], plan.error));
    }
    var text := codec.marshalIndent(plan.value.rules);
    if text.Err? {
      return Some(text.error);
    }
    r.displayName := plan.value.displayName;
    r.rules := text.value;
    r.name := planName;
    return None;
  }

  /** A failed listing is returned as it is; nothing else is asked and the
      record is left alone. */
  lemma ReadPassesListingErrorOn(ws: string, wire: WireCodec, codec: RulesCodec, st: PlanState,
                                 replies: seq<Response>, e: Error)
    requires Receive(Next(replies), wire.plans, PlansDecodeFailure) == Err(e)
    ensures ReadSpec(ws, wire, codec, st, replies) == PlanOutcome(st, Some(e), [ListPlansRequest(ws)], Rest(replies))
  {
  }

  /** A plan missing from the listing is forgotten: its id becomes "", no
      error is returned, and it is not fetched. */
  lemma ReadOfUnlistedPlanClearsId(ws: string, wire: WireCodec, codec: RulesCodec, st: PlanState,
                                   replies: seq<Response>, listing: TrackingPlans)
    requires Receive(Next(replies), wire.plans, PlansDecodeFailure) == Ok(listing)
    requires forall p :: p in listing.trackingPlans ==> ParseNameID(p.name) != st.id
    ensures ReadSpec(ws, wire, codec, st, replies)
         == PlanOutcome(st.(id := ""), None, [ListPlansRequest(ws)], Rest(replies))
  {
    NameIDsKeys(listing.trackingPlans);
  }

  /** A listed plan is fetched by its short id; display_name, rules and name
      (the id) are set, and the id is kept. */
  lemma ReadOfListedPlan(ws: string, wire: WireCodec, codec: RulesCodec, st: PlanState,
                         replies: seq<Response>, listing: TrackingPlans, i: nat,
                         fetched: TrackingPlan, text: string)
    requires Receive(Next(replies), wire.plans, PlansDecodeFailure) == Ok(listing)
    requires i < |listing.trackingPlans| && ParseNameID(listing.trackingPlans[i].name) == st.id
    requires Receive(Next(Rest(replies)), wire.plan, PlanDecodeFailure) == Ok(fetched)
    requires codec.marshalIndent(fetched.rules) == Ok(text)
    ensures ReadSpec(ws, wire, codec, st, replies)
         == PlanOutcome(PlanState(st.id, fetched.displayName, text, st.id), None,
                        [ListPlansRequest(ws), GetPlanRequest(ws, st.id)], Rest(Rest(replies)))
  {
    ListedIdIsKey(listing.trackingPlans, i);
    assert NameIDsOutcome(wire, replies) == Ok(NameIDs(listing.trackingPlans));
    ReadSpecCases(ws, wire, codec, st, replies);
    FetchOfFetchedPlan(ws, wire, codec, st, Rest(replies), fetched, text);
    assert ReadSpec(ws, wire, codec, st, replies)
        == SentFirst(ListPlansRequest(ws), FetchSpec(ws, wire, codec, st, Rest(replies)));
  }

  /** The fetch half of Read, when the plan and its rules come back. */
  lemma FetchOfFetchedPlan(ws: string, wire: WireCodec, codec: RulesCodec, st: PlanState,
                           replies: seq<Response>, fetched: TrackingPlan, text: string)
    requires Receive(Next(replies), wire.plan, PlanDecodeFailure) == Ok(fetched)
    requires codec.marshalIndent(fetched.rules) == Ok(text)
    ensures FetchSpec(ws, wire, codec, st, replies)
         == PlanOutcome(PlanState(st.id, fetched.displayName, text, st.id), None,
                        [GetPlanRequest(ws, st.id)], Rest(replies))
  {
  }

  /** Whatever the replies, Read either keeps the record's id, or clears it
      without error after the listing alone; a failing Read changes nothing. */
  lemma ReadKeepsIdUnlessUnlisted(ws: string, wire: WireCodec, codec: RulesCodec, st: PlanState,
                                  replies: seq<Response>)
    ensures var o := ReadSpec(ws, wire, codec, st, replies);
      && (o.state.id == st.id || (o.state == st.(id := "") && o.err == None && o.sent == [ListPlansRequest(ws)]))
      && (o.err.Some? ==> o.state == st)
      && (o.err.None? && o.state.id != "" ==> o.state.id == st.id && o.state.name == st.id)
  {
  }

  // ---------------------------------------------------------------------
  // Create

  function CreateSpec(ws: string, wire: WireCodec, codec: RulesCodec, st: PlanState, replies: seq<Response>): PlanOutcome
  {
    var rules := codec.unmarshal(st.rules).into;
    var req := CreatePlanRequest(ws, st.displayName, rules);
    match Receive(Next(replies), wire.plan, CreatedPlanDecodeFailure)
    case Err(e) => PlanOutcome(st, Some(OperationFailed(CreatingPlan, [st.displayName], e)), [req], Rest(replies))
    case Ok(plan) => SentFirst(req, ReadSpec(ws, wire, codec, st.(id := ParseNameID(plan.name)), Rest(replies)))
  }

  method Create(r: PlanRecord, client: Client, codec: RulesCodec) returns (err: Option<Error>)
    modifies r, client
    ensures var o := CreateSpec(client.workspace, client.wire, codec, old(r.State()), old(client.pending));
      && r.State() == o.state && err == o.err
      && client.sent == old(client.sent) + o.sent && client.pending == o.rest
  {
    ghost var st, replies, sent := r.State(), client.pending, client.sent;
    var displayName := r.displayName;
    var rules := r.rules;
    var s := codec.unmarshal(rules).into;
    var plan := client.CreateTrackingPlan(displayName, s);
    if plan.Err? {
      return Some(OperationFailed(CreatingPlan, [displayName], plan.error));
    }
    var planName := ParseNameID(plan.value.name);
    r.id := planName;
    CreateSpecOfCreated(client.workspace, client.wire, codec, st, replies, plan.value);
    ghost var req := CreatePlanRequest(client.workspace, displayName, s);
    assert r.State() == st.(id := planName) && client.pending == Rest(replies) && client.sent == sent + [req];
    err := Read(r, client, codec);
    ghost var read := ReadSpec(client.workspace, client.wire, codec, st.(id := planName), Rest(replies));
    assert client.sent == sent + [req] + read.sent == sent + ([req] + read.sent);
  }

  /** Create sends whatever the decoder left in the rules, whether or not it
      reported an error, so a rules text that fails to decode before anything
      is filled in is sent as the zero Rules. */
  lemma CreateIgnoresRuleDecodeErrors(ws: string, wire: WireCodec, codec: RulesCodec, st: PlanState,
                                      replies: seq<Response>)
    ensures var o := CreateSpec(ws, wire, codec, st, replies);
      && |o.sent| >= 1
      && o.sent[0] == CreatePlanRequest(ws, st.displayName, codec.unmarshal(st.rules).into)
  {
  }

  /** The decoder's error has no effect on anything Create does. */
  lemma CreateOutcomeIgnoresDecodeError(ws: string, wire: WireCodec, codec: RulesCodec, codec': RulesCodec,
                                        st: PlanState, replies: seq<Response>)
    requires codec'.unmarshal(st.rules).into == codec.unmarshal(st.rules).into
    requires codec'.marshalIndent == codec.marshalIndent
    ensures CreateSpec(ws, wire, codec', st, replies) == CreateSpec(ws, wire, codec, st, replies)
  {
  }

  /** A refused create returns an error after one request and leaves the
      record as it was. */
  lemma CreateRefusedChangesNothing(ws: string, wire: WireCodec, codec: RulesCodec, st: PlanState,
                                    replies: seq<Response>)
    requires Receive(Next(replies), wire.plan, CreatedPlanDecodeFailure).Err?
    ensures var o := CreateSpec(ws, wire, codec, st, replies);
      && o.state == st && o.err.Some?
      && o.sent == [CreatePlanRequest(ws, st.displayName, codec.unmarshal(st.rules).into)]
  {
  }

  /** A created plan that the listing then shows is read back: the id is
      the short id of the returned name, display_name and rules are those
      fetched, name is the id, and the requests are create, list, get. */
  lemma CreateSetsShortIdThenReads(ws: string, wire: WireCodec, codec: RulesCodec, st: PlanState,
                                   replies: seq<Response>, created: TrackingPlan, listing: TrackingPlans,
                                   i: nat, fetched: TrackingPlan, text: string)
    requires Receive(Next(replies), wire.plan, CreatedPlanDecodeFailure) == Ok(created)
    requires Receive(Next(Rest(replies)), wire.plans, PlansDecodeFailure) == Ok(listing)
    requires i < |listing.trackingPlans|
    requires ParseNameID(listing.trackingPlans[i].name) == ParseNameID(created.name)
    requires Receive(Next(Rest(Rest(replies))), wire.plan, PlanDecodeFailure) == Ok(fetched)
    requires codec.marshalIndent(fetched.rules) == Ok(text)
    ensures var o, id := CreateSpec(ws, wire, codec, st, replies), ParseNameID(created.name);
      && '/' !in id
      && o.state == PlanState(id, fetched.displayName, text, id)
      && o.err == None
      && o.sent == [CreatePlanRequest(ws, st.displayName, codec.unmarshal(st.rules).into),
                    ListPlansRequest(ws), GetPlanRequest(ws, id)]
  {
    var id, req := ParseNameID(created.name), CreatePlanRequest(ws, st.displayName, codec.unmarshal(st.rules).into);
    var read := PlanOutcome(PlanState(id, fetched.displayName, text, id), None,
                            [ListPlansRequest(ws), GetPlanRequest(ws, id)], Rest(Rest(Rest(replies))));
    CreateSpecOfCreated(ws, wire, codec, st, replies, created);
    ReadOfListedPlan(ws, wire, codec, st.(id := id), Rest(replies), listing, i, fetched, text);
    assert CreateSpec(ws, wire, codec, st, replies) == SentFirst(req, read);
    assert SentFirst(req, read).sent == [req, ListPlansRequest(ws), GetPlanRequest(ws, id)];
  }

  /** Once the plan is created, Create is the create request followed by Read
      under the created plan's short id. */
  lemma CreateSpecOfCreated(ws: string, wire: WireCodec, codec: RulesCodec, st: PlanState,
                            replies: seq<Response>, created: TrackingPlan)
    requires Receive(Next(replies), wire.plan, CreatedPlanDecodeFailure) == Ok(created)
    ensures CreateSpec(ws, wire, codec, st, replies)
         == SentFirst(CreatePlanRequest(ws, st.displayName, codec.unmarshal(st.rules).into),
                      ReadSpec(ws, wire, codec, st.(id := ParseNameID(created.name)), Rest(replies)))
  {
  }

  /** A created plan that the listing does not show ends with the id ""
      and no error, after exactly the create and the listing requests. */
  lemma CreateOfUnlistedPlanClearsId(ws: string, wire: WireCodec, codec: RulesCodec, st: PlanState,
                                     replies: seq<Response>, created: TrackingPlan, listing: TrackingPlans)
    requires Receive(Next(replies), wire.plan, CreatedPlanDecodeFailure) == Ok(created)
    requires Receive(Next(Rest(replies)), wire.plans, PlansDecodeFailure) == Ok(listing)
    requires forall p :: p in listing.trackingPlans ==> ParseNameID(p.name) != ParseNameID(created.name)
    ensures var o := CreateSpec(ws, wire, codec, st, replies);
      && o.state.id == "" && o.err == None
      && o.sent == [CreatePlanRequest(ws, st.displayName, codec.unmarshal(st.rules).into), ListPlansRequest(ws)]
  {
    var st' := st.(id := ParseNameID(created.name));
    CreateSpecOfCreated(ws, wire, codec, st, replies, created);
    ReadOfUnlistedPlanClearsId(ws, wire, codec, st', Rest(replies), listing);
  }

  // ---------------------------------------------------------------------
  // Update

  function UpdateSpec(ws: string, wire: WireCodec, codec: RulesCodec, st: PlanState, replies: seq<Response>): PlanOutcome
  {
    var updated := TrackingPlan("", st.displayName, codec.unmarshal(st.rules).into);
    var req := UpdatePlanRequest(ws, st.id, UpdatePaths, updated);
    match Receive(Next(replies), wire.plan, PlanDecodeFailure)
    case Err(e) => PlanOutcome(st, Some(OperationFailed(UpdatingPlan, [st.id], e)), [req], Rest(replies))
    case Ok(_) => SentFirst(req, ReadSpec(ws, wire, codec, st, Rest(replies)))
  }

  method Update(r: PlanRecord, client: Client, codec: RulesCodec) returns (err: Option<Error>)
    modifies r, client
    ensures var o := UpdateSpec(client.workspace, client.wire, codec, old(r.State()), old(client.pending));
      && r.State() == o.state && err == o.err
      && client.sent == old(client.sent) + o.sent && client.pending == o.rest
  {
    var planName := r.id;
    var rules := r.rules;
    var displayName := r.displayName;
    var paths := ["tracking_plan.display_name", "tracking_plan.rules"];
    var s := codec.unmarshal(rules).into;
    var updatedPlan := TrackingPlan("", displayName, s);
    var updated := client.UpdateTrackingPlan(planName, paths, updatedPlan);
    if updated.Err? {
      return Some(OperationFailed(UpdatingPlan, [planName], updated.error));
    }
    err := Read(r, client, codec);
  }

  /** Update sends one PUT naming exactly display_name and rules, in that
      order, for every record; on error the record is left alone, otherwise
      the plan is read again. */
  lemma UpdateSendsFixedMask(ws: string, wire: WireCodec, codec: RulesCodec, st: PlanState,
                             replies: seq<Response>)
    ensures var o := UpdateSpec(ws, wire, codec, st, replies);
      && |o.sent| >= 1
      && o.sent[0].verb == Put
      && o.sent[0].body.PlanUpdate?
      && o.sent[0].body.updateMask.paths == ["tracking_plan.display_name", "tracking_plan.rules"]
      && o.sent[0].body.trackingPlan == TrackingPlan("", st.displayName, codec.unmarshal(st.rules).into)
      && (Receive(Next(replies), wire.plan, PlanDecodeFailure).Err? ==>
            o.err.Some? && o.state == st && |o.sent| == 1)
      && (o.err.Some? ==> o.state == st)
      && (Receive(Next(replies), wire.plan, PlanDecodeFailure).Ok? ==>
            o == SentFirst(o.sent[0], ReadSpec(ws, wire, codec, st, Rest(replies))))
  {
  }

  // ---------------------------------------------------------------------
  // Delete and Import

  /** Delete sends one request and calls nothing after it, so its contract
      states its effect directly rather than through a specification function. */
  method Delete(r: PlanRecord, client: Client) returns (err: Option<Error>)
    modifies client
    ensures client.sent == old(client.sent) + [DeletePlanRequest(client.workspace, r.id)]
    ensures client.pending == Rest(old(client.pending))
    ensures err == match ErrorOf(Next(old(client.pending)))
                   case None => None
                   case Some(e) => Some(OperationFailed(DeletingPlan, [r.id], e))
  {
    var planName := r.id;
    var deleted := client.DeleteTrackingPlan(planName);
    if deleted.Some? {
      return Some(OperationFailed(DeletingPlan, [planName], deleted.value));
    }
    return None;
  }

  /** Import fetches the plan under the record's id and fills the record. The
      marshalled rules go to the framework through `setRules`, which returns the
      value it stores, or None when it refuses the value; a refusal is not
      reported and leaves the rules attribute as it was. */
  method Import(r: PlanRecord, client: Client, codec: RulesCodec, setRules: string -> Option<string>)
    returns (results: seq<PlanRecord>, err: Option<Error>)
    modifies r, client
    ensures client.sent == old(client.sent) + [GetPlanRequest(client.workspace, old(r.id))]
    ensures client.pending == Rest(old(client.pending))
    ensures var fetched := Receive(Next(old(client.pending)), client.wire.plan, PlanDecodeFailure);
      match fetched
      case Err(e) =>
        err == Some(OperationFailed(InvalidPlan, [old(r.id)], e)) && results == [] && r.State() == old(r.State())
      case Ok(plan) =>
        match codec.marshal(plan.rules)
        case Err(e) => err == Some(e) && results == [] && r.State() == old(r.State())
        case Ok(text) =>
          && err == None && results == [r]
          && r.State() == PlanState(ParseNameID(plan.name), plan.displayName,
                                    if setRules(text).Some? then setRules(text).value else old(r.rules),
                                    ParseNameID(plan.name))
          && '/' !in r.id
  {
    var s := client.GetTrackingPlan(r.id);
    if s.Err? {
      return [], Some(OperationFailed(InvalidPlan, [r.id], s.error));
    }
    var stringRules := codec.marshal(s.value.rules);
    if stringRules.Err? {
      return [], Some(stringRules.error);
    }
    var planName := ParseNameID(s.value.name);
    r.id := planName;
    r.name := planName;
    r.displayName := s.value.displayName;
    var stored := setRules(stringRules.value);
    if stored.Some? {
      r.rules := stored.value;
    }
    return [r], None;
  }
}
