# Segment Terraform provider: tracking plans and destinations

This project models two resources of the Terraform provider for Segment's
Config API. Each model is proved against its specification.

- **The tracking-plan resource.** The model covers:
  - how a plan's short id is taken from its full name
    `workspaces/{ws}/tracking-plans/{id}` (`parseNameID`);
  - how a listing becomes a map from short id to full name (`getNameIDs`);
  - the Create, Read, Update, Delete and Import transitions of the
    Terraform record.
- **The destination resource.** The model covers:
  - the conversion between the `configs` set and the service's
    `DestinationConfig` records (`extractConfigs` and the import loop);
  - the split of an import key `<source>/<destination>`;
  - the Create, Read, Update, Delete and Import transitions.
- **The tracking-plan part of the Go API client.** The model covers the
  request paths, methods and bodies of the List, Get, Create, Update and
  Delete calls and of the source-connection calls, and how each call treats
  a transport error and a decode error.

Layout:

- `strings.dfy` (module `Strings`): Go's `strings.Split`,
  `strings.SplitN(s, sep, 2)` and `"%s/%s/…"` formatting (`Join`), for a
  one-character separator, with their round trips.
- `types.dfy` (module `SegmentTypes`): the records of `types.go`, the
  endpoint names of `const.go`, and the errors the provider passes around.
- `tracking_plans.dfy` (module `TrackingPlansApi`): the API client.
  - `Client` holds the workspace and the JSON decoders of the replies.
  - Its transport is the list of replies still to come (`pending`) and the
    log of requests sent so far (`sent`).
  - `DoRequest` logs one request and takes the next reply. With no reply
    left it fails like a transport error.
- `tracking_plan_resource.dfy` (module `TrackingPlanResource`): the
  tracking-plan resource.
  - `PlanRecord` is the Terraform record, with fields for the id,
    `display_name`, `rules` and `name`.
  - Create, Read and Update are methods, each proved equal to a function
    (`CreateSpec`, `ReadSpec`, `UpdateSpec`) of the record's state and the
    replies. The lemmas state the resource's promises about those functions.
  - Delete and Import make one call and do not chain into another
    transition. Their postconditions state the requests, the error and the
    new record directly.
- `destination_resource.dfy` (module `DestinationResource`): the destination
  resource, with `DestinationRecord` and a `DestinationClient` that logs
  calls and takes scripted answers.
  - Create, Read, Update and Import are each proved equal to a function
    (`CreateSpec`, `ReadSpec`, `UpdateSpec`, `ImportSpec`), with lemmas
    about those functions.
  - Delete states its effect directly in its postcondition.

Some of the Go code calls things that are not in these files. Those calls
become parameters:

- `json.Unmarshal`, `json.Marshal` and `json.MarshalIndent` are the
  function fields of `WireCodec` and `RulesCodec`.
- `idToName` is `Environment.idToName`.
- `fmt.Sprintf("%v", …)` of numbers, arrays and objects is
  `Environment.format`.
- Storing the fetched configs through the Terraform framework in
  destination Read is `Environment.storeConfigs`.
- Storing the marshalled rules (a byte slice) through the Terraform
  framework in tracking-plan Import is the `setRules` parameter of
  `TrackingPlanResource.Import`.

## Where the code departs from what a caller would expect

- When `Unmarshal` fails to decode the tracking-plan rules in Create and
  Update, the code drops that error and sends whatever the decoder left in
  the `Rules` value, which is the zero `Rules` when decoding fails before
  filling anything (`CreateIgnoresRuleDecodeErrors`).
- Destination Read does not clear the id when the destination cannot be
  fetched. It returns an error instead (`DestinationResource.ReadKeepsIdentity`).
  Tracking-plan Read, by contrast, clears the id of an unlisted plan
  without error.
- The destination import key is split with `SplitN(…, 2)`. A key such as
  `a/b/c` is accepted, giving source `a` and destination `b/c`. Only a key
  without any `/` is rejected.
- `extractConfigs` does not check the set's members. Every member gives one
  entry, with nothing dropped or merged.

## Model

| member | source | states |
|---|---|---|
| Strings.SplitN2 | segment/resource_segment_destination.go:136 | `SplitN(s, "/", 2)` gives two pieces exactly when `s` contains the separator, and one piece (`s` itself) otherwise. The first piece holds no separator, and piece, separator and rest spell `s` again. |
| Strings.LastPieceIsFinalSegment | segment/resource_segment_tracking_plan.go:144-145 | The last piece of `strings.Split` holds no separator. It is a suffix of the input, and it is either the whole input or preceded by the separator. |
| Strings.JoinSplit | segment/resource_segment_tracking_plan.go:144 | Joining the pieces of a split gives back the input. |
| Strings.SplitJoin | vendor/github.com/fenderdigital/segment-apis-go/segment/tracking_plans.go:14 | Pieces without the separator, once joined into a path, split back into the same pieces. |
| Strings.SplitN2AgreesWithSplit | segment/resource_segment_destination.go:136 | The first piece of `SplitN(…, 2)` is the first piece of `Split`. The second piece is the rest of `Split` joined again. |
| TrackingPlansApi.PathSegments | vendor/github.com/fenderdigital/segment-apis-go/segment/tracking_plans.go:14 | A path formatted from `/`-free segments splits back into exactly those segments. |
| TrackingPlansApi.ListPlansRequestShape | vendor/github.com/fenderdigital/segment-apis-go/segment/tracking_plans.go:14 | List is a GET without a body on `workspaces/{ws}/tracking-plans`, with no trailing slash. |
| TrackingPlansApi.GetPlanRequestShape | vendor/github.com/fenderdigital/segment-apis-go/segment/tracking_plans.go:30-31 | Get is a GET without a body on `workspaces/{ws}/tracking-plans/{plan}`, with no trailing slash. |
| TrackingPlansApi.CreatePlanRequestShape | vendor/github.com/fenderdigital/segment-apis-go/segment/tracking_plans.go:46-54 | Create is a POST to the list path plus `/`. Its body has the display name and rules, and an empty name. |
| TrackingPlansApi.UpdatePlanRequestShape | vendor/github.com/fenderdigital/segment-apis-go/segment/tracking_plans.go:70-71 | Update is a PUT to the plan path plus `/`. The given plan and mask paths are passed through unchanged and in order. |
| TrackingPlansApi.DeletePlanRequestShape | vendor/github.com/fenderdigital/segment-apis-go/segment/tracking_plans.go:117 | Delete is a DELETE without a body on the plan path plus `/`. |
| TrackingPlansApi.ConnectionRequestShapes | vendor/github.com/fenderdigital/segment-apis-go/segment/tracking_plans.go:86-88 | Create-connection POSTs to `…/{plan}/source-connections/` with the source name. List GETs the same path, and delete addresses `…/source-connections/{src}/`. The citations cover lines 86-88, 104 and 127-128. |
| TrackingPlansApi.OnlyDecodeFailuresAreWrapped | vendor/github.com/fenderdigital/segment-apis-go/segment/tracking_plans.go:16-22 | A transport error is returned unchanged and no decoder is consulted. Only a decoder's error is wrapped with the call's message, and a decoded value is returned as decoded. |
| TrackingPlansApi.Client.DoRequest | vendor/github.com/fenderdigital/segment-apis-go/segment/tracking_plans.go:14-15 | Sends one request (appended to the log) and takes the next scripted reply. |
| TrackingPlansApi.Client.ListTrackingPlans | vendor/github.com/fenderdigital/segment-apis-go/segment/tracking_plans.go:12-25 | Sends exactly the List request. Returns the transport error unchanged or the decoded listing, and a decode error wrapped. |
| TrackingPlansApi.Client.GetTrackingPlan | vendor/github.com/fenderdigital/segment-apis-go/segment/tracking_plans.go:28-41 | Sends exactly the Get request for the plan, with the same error treatment. |
| TrackingPlansApi.Client.CreateTrackingPlan | vendor/github.com/fenderdigital/segment-apis-go/segment/tracking_plans.go:44-65 | Sends exactly the Create request, with this call's own decode message. |
| TrackingPlansApi.Client.UpdateTrackingPlan | vendor/github.com/fenderdigital/segment-apis-go/segment/tracking_plans.go:68-81 | Sends exactly the Update request with the given mask. |
| TrackingPlansApi.Client.CreateTrackingPlanSourceConnection | vendor/github.com/fenderdigital/segment-apis-go/segment/tracking_plans.go:84-99 | Sends exactly the create-connection request. |
| TrackingPlansApi.Client.ListTrackingPlanSourceConnections | vendor/github.com/fenderdigital/segment-apis-go/segment/tracking_plans.go:102-113 | Sends exactly the list-connections request. A decode error is wrapped with the plan message the code uses. |
| TrackingPlansApi.Client.DeleteTrackingPlan | vendor/github.com/fenderdigital/segment-apis-go/segment/tracking_plans.go:116-123 | Sends exactly the Delete request. Returns the transport error unchanged, or none. |
| TrackingPlansApi.Client.DeleteTrackingPlanSourceConnection | vendor/github.com/fenderdigital/segment-apis-go/segment/tracking_plans.go:126-134 | Sends exactly the delete-connection request. Returns the transport error unchanged, or none. |
| TrackingPlanResource.ParseNameID | segment/resource_segment_tracking_plan.go:143-146 | The short id holds no `/`. |
| TrackingPlanResource.ParseNameIDIsFinalSegment | segment/resource_segment_tracking_plan.go:143-146 | The short id is the final `/`-segment of the name: a `/`-free suffix that is either the whole name or follows a `/`. |
| TrackingPlanResource.FreeSuffixIsShorter | segment/resource_segment_tracking_plan.go:143-146 | A `/`-free suffix is never longer than a suffix that follows a `/`. This makes the final segment well defined. |
| TrackingPlanResource.ParseNameIDIsUnique | segment/resource_segment_tracking_plan.go:143-146 | Any final `/`-segment of the name, as defined above, is the short id: being the final segment determines it. |
| TrackingPlanResource.ParseNameIDOfShortName | segment/resource_segment_tracking_plan.go:143-146 | A name without `/` is returned unchanged. |
| TrackingPlanResource.ParseNameIDIsIdempotent | segment/resource_segment_tracking_plan.go:143-146 | Taking the short id twice equals taking it once. |
| TrackingPlanResource.ParseNameIDOfTrailingSlash | segment/resource_segment_tracking_plan.go:143-146 | A name ending in `/` has the empty short id. |
| TrackingPlanResource.ParseNameIDExamples | segment/resource_segment_tracking_plan.go:143-146 | `workspaces/w/tracking-plans/tp_123` gives `tp_123`, and so does `tp_123`. |
| TrackingPlanResource.ShortIdOfPlanPath | segment/resource_segment_tracking_plan.go:143-146 | The short id of the path a plan is fetched from is the plan id put into it. |
| TrackingPlanResource.NameIDsKeys | segment/resource_segment_tracking_plan.go:153-157 | The map's keys are exactly the short ids of the listed names. |
| TrackingPlanResource.NameIDsEntries | segment/resource_segment_tracking_plan.go:153-157 | Every entry maps a short id to a listed full name whose short id it is. |
| TrackingPlanResource.NameIDsLastListedWins | segment/resource_segment_tracking_plan.go:154-157 | A listed plan is found under its short id unless a later plan has the same short id: the later one wins. |
| TrackingPlanResource.BuildNameIDs | segment/resource_segment_tracking_plan.go:153-158 | The loop builds exactly the map `NameIDs` describes. |
| TrackingPlanResource.GetNameIDs | segment/resource_segment_tracking_plan.go:148-159 | Sends only the listing request. On error it returns that error and no map; otherwise it returns the short-id map of the listing. |
| TrackingPlanResource.PlanRecord.constructor | segment/resource_segment_tracking_plan.go:47-50 | A record with the given id, display name and rules, and no name yet. |
| TrackingPlanResource.Read | segment/resource_segment_tracking_plan.go:64-87 | The record afterwards, the error, the requests sent and the replies consumed are those of `ReadSpec`. Read lists first and returns a listing error unwrapped. An unlisted id is cleared without error. A listed plan is fetched, and its display name, rules text and name are stored. |
| TrackingPlanResource.Fetch | segment/resource_segment_tracking_plan.go:75-86 | The part of Read after the listing, as `FetchSpec`. A fetch error is wrapped with the plan id. An encode error is returned as it is. Either error leaves the record unchanged. |
| TrackingPlanResource.ReadPassesListingErrorOn | segment/resource_segment_tracking_plan.go:67-70 | A failed listing is returned unwrapped. The record is untouched and nothing else is sent. |
| TrackingPlanResource.ReadOfUnlistedPlanClearsId | segment/resource_segment_tracking_plan.go:71-74 | An id missing from the listing becomes `""` with no error, and no Get request is sent. |
| TrackingPlanResource.ReadOfListedPlan | segment/resource_segment_tracking_plan.go:75-86 | A listed plan is fetched by its id. The id stays, display name and rules are the fetched ones, and `name` is the id. |
| TrackingPlanResource.ReadKeepsIdUnlessUnlisted | segment/resource_segment_tracking_plan.go:64-87 | Read either keeps the id, or clears it without error after the listing alone. A failing Read leaves the record unchanged. A successful Read that leaves a non-empty id has kept it and set `name` to it. |
| TrackingPlanResource.Create | segment/resource_segment_tracking_plan.go:47-62 | As `CreateSpec`. It sends the display name and the decoded rules, with the decoder's error ignored. A refused create is a wrapped error; otherwise the id becomes the short id of the returned name and Read follows. |
| TrackingPlanResource.CreateIgnoresRuleDecodeErrors | segment/resource_segment_tracking_plan.go:51-54 | The create request carries whatever the decoder left in the rules, whether or not decoding reported an error. |
| TrackingPlanResource.CreateOutcomeIgnoresDecodeError | segment/resource_segment_tracking_plan.go:52 | Two decoders that leave the same rules give the same Create outcome, whatever errors they report. |
| TrackingPlanResource.CreateSetsShortIdThenReads | segment/resource_segment_tracking_plan.go:54-61 | When the create succeeds and the listing then shows the plan, the record's id is the `/`-free short id of the returned name. Display name and rules are the fetched ones, `name` is the id, there is no error, and the requests are exactly create, list and get. |
| TrackingPlanResource.CreateOfUnlistedPlanClearsId | segment/resource_segment_tracking_plan.go:59-61 | When the created plan is missing from the listing that follows, the id ends as `""` with no error, after exactly the create and list requests. |
| TrackingPlanResource.CreateRefusedChangesNothing | segment/resource_segment_tracking_plan.go:54-57 | A refused create is an error after the one create request, and the record is left as it was. |
| TrackingPlanResource.Update | segment/resource_segment_tracking_plan.go:100-119 | As `UpdateSpec`. It sends one PUT of the plan with the fixed two-path mask. A refused update is a wrapped error that leaves the record unchanged; otherwise Read follows. |
| TrackingPlanResource.UpdateSendsFixedMask | segment/resource_segment_tracking_plan.go:106-118 | One PUT whose mask is exactly `tracking_plan.display_name`, `tracking_plan.rules`, in that order, carrying the display name and decoded rules. A refused PUT is an error after one request with the record untouched, and every error leaves the record untouched. Otherwise Read follows. |
| TrackingPlanResource.Delete | segment/resource_segment_tracking_plan.go:89-98 | One Delete request for the id. Its error is wrapped, or there is none. |
| TrackingPlanResource.Import | segment/resource_segment_tracking_plan.go:121-141 | Fetches the plan by the record's id. On a fetch or encode error it changes nothing. Otherwise the id and `name` both become the fetched name's short id and the display name is copied. The marshalled rules are handed to `setRules`: the rules become what it stores, or stay as they were when it refuses them, and no error is reported either way. The record is returned. |
| DestinationResource.LocalWireLocal | segment/resource_segment_destination.go:158-166 | A local config sent to the wire and imported back is unchanged. |
| DestinationResource.WireLocalWire | segment/resource_segment_destination.go:164 | A wire config survives import and extraction exactly when its value is a string. |
| DestinationResource.Extracted | segment/resource_segment_destination.go:182-198 | A nil set gives no entries. Otherwise there is one entry per member, in order, with `Name`=id, `DisplayName`=name, `Value`=value and `Type`=type. |
| DestinationResource.ExtractConfigs | segment/resource_segment_destination.go:182-198 | The loop appends exactly the entries `Extracted` describes. |
| DestinationResource.LocalConfigs | segment/resource_segment_destination.go:158-166 | One local config per fetched config, in order, with id=`Name`, name=`DisplayName`, type=`Type` and value=the value's text. |
| DestinationResource.ImportedConfigs | segment/resource_segment_destination.go:158-166 | The array loop fills exactly the members `LocalConfigs` describes. |
| DestinationResource.ExtractedThenImported | segment/resource_segment_destination.go:158-198 | Extracting a set and importing the result gives the set's members back. |
| DestinationResource.ImportedThenExtracted | segment/resource_segment_destination.go:158-198 | Fetched configs with string values, imported and extracted, are the fetched configs. |
| DestinationResource.SetById | segment/resource_segment_destination.go:168-172 | The set built with the id hash has at most one member per id. It has the same ids as its input and only members of the input. |
| DestinationResource.SetByIdKeepsFirst | segment/resource_segment_destination.go:168-172 | The member kept for an id is the first one listed with it. |
| DestinationResource.SetByIdSnoc | segment/resource_segment_destination.go:168-172 | A member added at the end is kept exactly when its id is not yet in the set. |
| DestinationResource.SetByIdOfUniqueIds | segment/resource_segment_destination.go:168-172 | Members with distinct ids form the set unchanged. |
| DestinationResource.SetByIdIsIdempotent | segment/resource_segment_destination.go:168-172 | Building the set twice equals building it once. |
| DestinationResource.SplitImportKey | segment/resource_segment_destination.go:136-145 | The key is rejected exactly when it has no `/`, with an invalid-format error. Otherwise the source holds no `/` and source, `/` and destination spell the key. |
| DestinationResource.FreePrefixIsLonger | segment/resource_segment_destination.go:136 | A `/`-free prefix is never longer than a prefix followed by `/`. |
| DestinationResource.SplitImportKeyOfJoined | segment/resource_segment_destination.go:136-145 | A key written as `source/destination`, with a `/`-free source, splits back into that source and destination. |
| DestinationResource.SplitImportKeyExamples | segment/resource_segment_destination.go:136-145 | `src/dest` gives (`src`, `dest`) and `a/b/c` gives (`a`, `b/c`); `dest` is rejected. |
| DestinationResource.DestinationClient.CreateDestination | segment/resource_segment_destination.go:76 | Logs one create call with the given arguments and takes the next answer. |
| DestinationResource.DestinationClient.GetDestination | segment/resource_segment_destination.go:92 | Logs one get call and takes the next answer. |
| DestinationResource.DestinationClient.UpdateDestination | segment/resource_segment_destination.go:112 | Logs one update call and takes the next answer. |
| DestinationResource.DestinationClient.DeleteDestination | segment/resource_segment_destination.go:126 | Logs one delete call. Returns the answer's error, or none. |
| DestinationResource.Read | segment/resource_segment_destination.go:86-102 | As `ReadSpec`. It makes one Get for `idToName(id)` under the source name. A failure is a wrapped error that changes nothing and keeps the id. On success it stores enabled, the configs and the connection mode. |
| DestinationResource.ReadKeepsIdentity | segment/resource_segment_destination.go:86-102 | Asks for `idToName(id)` under the source name and never changes the id. It changes at most enabled, configs and connection_mode. A failed fetch is an error and changes nothing. |
| DestinationResource.ReadCopiesFetched | segment/resource_segment_destination.go:97-101 | On success, enabled and connection_mode are the fetched values and the configs are stored. |
| DestinationResource.Create | segment/resource_segment_destination.go:68-84 | As `CreateSpec`. It creates the destination from the record's attributes and extracted configs. A refused create is a wrapped error; otherwise the id becomes the full returned name and Read follows. |
| DestinationResource.CreateSetsFullNameThenReads | segment/resource_segment_destination.go:76-83 | Sends every attribute with the extracted configs. A refused create changes nothing and is an error. Otherwise the id is the full returned name, and the only other call is Read's Get. |
| DestinationResource.Update | segment/resource_segment_destination.go:104-118 | As `UpdateSpec`. It sends enabled and the extracted configs for `idToName(id)`. A refused update is a wrapped error; otherwise Read follows. |
| DestinationResource.UpdateIgnoresConnectionMode | segment/resource_segment_destination.go:112 | The update call carries the source, `idToName(id)`, enabled and every extracted config, and never the connection mode. |
| DestinationResource.UpdateThenReads | segment/resource_segment_destination.go:112-117 | A failed update changes nothing and is an error. A successful one is followed by Read. |
| DestinationResource.Delete | segment/resource_segment_destination.go:120-132 | One delete call for the destination named by the id, with no retry. Its error is wrapped, or there is none. |
| DestinationResource.Import | segment/resource_segment_destination.go:134-180 | As `ImportSpec`. The key is split first. A fetch failure is an error that changes nothing. On success the record takes the fetched name and the key's halves, and the configs are built one per id. The record is returned exactly when there is no error. |
| DestinationResource.ImportRejectsKeyWithoutSlash | segment/resource_segment_destination.go:136-142 | A call is made exactly when the key has a `/`. A key without one is rejected before any call and the record is left as it was. |
| DestinationResource.ImportFillsRecord | segment/resource_segment_destination.go:147-174 | One Get for the two halves of the key. On success the id is the fetched full name, source and destination are the halves, and enabled and connection mode are fetched. The configs have one member per fetched config id. |
| DestinationResource.ImportFetchFailureChangesNothing | segment/resource_segment_destination.go:147-150 | A failed fetch is an error and changes nothing. |

## Left out

- JSON decoding and encoding (`json.Unmarshal`, `json.Marshal`,
  `json.MarshalIndent`) are parameters. No property of the real codec is
  assumed.
- The `rules` attribute's `StateFunc` (segment/resource_segment_tracking_plan.go:24-29)
  is not modelled. It is part of the framework's schema and is a JSON
  round trip.
- `idToName` is not defined in the modelled files. It is a parameter.
- The destination client methods and `doRequest` are transport. They are
  modelled as scripted answers that are logged. HTTP status handling,
  retries and the wire format are not modelled.
- The Terraform framework is not modelled. This covers the `schema.Resource`
  declarations, `Required`/`ForceNew` (which the framework enforces, not
  this code), the `meta` type assertion and the errors `r.Set` reports
  (the code drops them).
- `schema.Set` is a sequence of members. Its hash-based listing order is
  not modelled, and neither are `HashString` collisions between different
  ids.
- DestinationResource.Read: the conversion of the fetched
  `[]DestinationConfig` into the `configs` attribute is done by the
  framework. It is the parameter `Environment.storeConfigs`; when that
  conversion is refused the attribute keeps its old value.
- TrackingPlanResource.Import: `r.Set("rules", …)` is given a byte slice.
  The marshalled text stands for those bytes. What the framework stores
  for them, or whether it refuses them, is the parameter `setRules`.
- `fmt.Sprintf("%v", …)` of JSON numbers, arrays and objects is the
  parameter `format`. Strings, booleans and null are modelled.
- Exact error-message texts are not modelled. The model keeps which
  operation failed, its subjects and the cause. The `log.Printf` and
  `fmt.Printf` debug output is left out.
- The `time.Time` fields of the records are left out.
- Go's `nil` and empty slices are not told apart, except for the nil
  `*schema.Set` that `extractConfigs` handles (`None`).
- Go `int` width (the `Version` of an event) is unbounded here. No
  arithmetic is done on it.
