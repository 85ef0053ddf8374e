# Foursquare venue-enrichment bot, modelled in Dafny

This project models the decision layer of `rho_foursquare_bot`. The bot links
nodes of an RDF knowledge store to Foursquare venues and fills in their
details. The model has eight modules, one per file:

- `wrappers.dfy` (`Wrappers`): `Option`, `Result`, and the Python exceptions the
  core raises (`IndexError`, `KeyError`, `ValueError`, and a plain `Exception`
  with a message).
- `storage.dfy` (`Storage`): the storage payload the bot exchanges with the
  store. `Record` is its value: `about`, a type list, a multi-valued
  property bag, and flags. `StoragePayload` is the mutable object with
  `add_type`, `add_property` and `add_flag`. RDF terms are written as compact
  URIs: `geo:` is the W3C WGS84 namespace, `rdfs:` is RDF Schema, and `schema:` is
  schema.org.
- `utilities.dfy` (`Utilities`): the venue-reference parser. It follows Python 2's
  `urlparse` for the components the code reads. The module also holds the
  first-match scan over `seeAlso` values and the translator from a venue
  record into a payload.
- `lookup.dfy` (`Lookup`): the lookup component. It holds a replaceable client
  handle, rebuilt from configuration events. Its lookup procedure resolves a
  venue id, fetches the venue, and sends at most one storage update.
- `maintainer.dfy` (`Maintainer`): the two-speed polling loop. It starts on the
  first configuration event. Each cycle opens a fresh session, finds a work
  node and schedules its lookup. It then reschedules itself after 1 s on
  success and after 600 s on any failure.
- `provider.dfy` (`Provider`): the bot's request dispatcher. It applies a superset
  capability test, then a find-or-create query, and schedules a lookup for
  every created node.
- `legacy_provider.dfy` (`LegacyProvider`): the older dispatcher. Its capability
  test is a subset test.
- `search_venues.dfy` (`SearchVenues`): the three-step venue search command
  `command_start → perform_search → select_item`.

External services are parameters of the operations that use them:

- the Foursquare venue endpoint is a function from client and id to the
  response's optional `venue`;
- the venue search is a function from `(near, query)` to results;
- `find_nodes` is a function from the query payload to the result nodes;
- `execute_cypher` is a `Result` over the stored nodes;
- the `schedule_lookup` promise is its settled outcome.

Calls the source makes for their effect are recorded in logs on the objects
that make them:

- `update_node` payloads;
- ids sent to the venue endpoint;
- `schedule_lookup` calls;
- scheduled delays;
- queries sent to `find_nodes`.

The lookup's two early `return`s with an error log are modelled as the named
outcomes `NoVenue` and `NoClient`. A venue response without a `venue` member
makes the procedure end silently, with no log and no update; that is the
outcome `NoVenueInResponse`. Exceptions are modelled as `Result.Err` values
that propagate.

Four behaviours of the code are worth knowing:

- The resolver can raise. `foursquare://venues` with an empty path raises
  `IndexError`, and a netloc with an unbalanced `[` or `]` raises `ValueError`.
  A malformed reference stored before a valid one therefore makes the whole
  resolution raise.
- The lookup does not fail when it finds no venue identifier or no client.
  It logs and returns `None`. It stamps no provenance reference, and it
  publishes nothing itself.
- The older dispatcher compares the intersection with the length of the
  request's type list, not with the size of its own declaration.
- The maintainer's discovery query only asks for a seeAlso value starting
  with `foursquare:`, which is looser than the resolver. A node whose only
  reference is the bare `foursquare:` is discovered. If the lookup that
  `schedule_lookup` runs is `lookup_foursquare_content` on that node, it
  finds no venue and writes no name, so the node stays a candidate. The
  definition of `schedule_lookup` is not part of this model, so this is
  stated only about the modelled lookup.

## Model

| member | source | states |
|---|---|---|
| Storage.DistinctKeys | foursquare_bot/components/utilities.py:53-59 | the seeAlso, name, lat and long property keys the translator writes are pairwise different |
| Storage.SpatialIntersection | foursquare_bot/components/knowledge_provider.py:44 | intersecting `{SpatialThing}` with a type list gives `{SpatialThing}` when the list holds it and `{}` otherwise, so its size is 1 or 0 |
| Storage.WithType | foursquare_bot/components/utilities.py:52 | `add_type` appends the type to the type list and leaves about, properties and flags alone |
| Storage.WithProperty | foursquare_bot/components/utilities.py:53-54 | `add_property` appends the value under its key; every other key keeps its values and about, types and flags are unchanged |
| Storage.WithFlag | foursquare_bot/components/knowledge_provider.py:50 | `add_flag` makes that flag read as the given value; every other flag reads as before |
| Storage.StoragePayload.constructor | foursquare_bot/components/foursquare_lookup.py:82 | `create_payload()` is an empty payload |
| Storage.StoragePayload.FromRecord | foursquare_bot/components/knowledge_provider.py:41 | `StoragePayload(form)` holds exactly what the request carried |
| Storage.StoragePayload.AddType | foursquare_bot/components/utilities.py:52 | the payload afterwards is `WithType` of the payload before |
| Storage.StoragePayload.AddProperty | foursquare_bot/components/utilities.py:53-54 | the payload afterwards is `WithProperty` of the payload before |
| Storage.StoragePayload.AddFlag | foursquare_bot/components/knowledge_provider.py:50 | the payload afterwards is `WithFlag` of the payload before |
| Utilities.Lower | foursquare_bot/components/utilities.py:37 | the lower-cased scheme keeps its length, holds no upper-case letter, keeps every character that is not an upper-case letter, and maps each upper-case letter to its lower-case one |
| Utilities.LowerIdempotent | foursquare_bot/components/utilities.py:37 | lower-casing twice is lower-casing once |
| Utilities.Find | foursquare_bot/components/utilities.py:37-40 | `find` gives the first index of the character, or the length when it is absent |
| Utilities.NetlocEnd | foursquare_bot/components/utilities.py:37 | the netloc ends at the first '/', '?' or '#', or at the end |
| Utilities.GetFoursquareVenueFromUrl | foursquare_bot/components/utilities.py:30-42 | the resolver raises exactly when the URL does not parse (`ValueError`) or is a venue URL whose path has no '/'; any other scheme or host gives None; a venue id never contains '/' |
| Utilities.VenueOfUrl | foursquare_bot/components/utilities.py:36-42 | a URL other than scheme `foursquare` with host `venues` yields None; `IndexError` exactly for the venue URL whose path has no '/'; a venue id never contains '/' |
| Utilities.VenueIsFirstSegment | foursquare_bot/components/utilities.py:39-40 | for the venue scheme and host, the result is the text between the path's first and second '/' (or the path's end) |
| Utilities.SecondSegment | foursquare_bot/components/utilities.py:40 | `path.split('/')[1]` is the text between the first and the second '/' |
| Utilities.OtherUrlsNameNoVenue | foursquare_bot/components/utilities.py:36-42 | a URL that parses to another scheme or host yields None, and a venue is only taken from a `foursquare://venues` URL |
| Utilities.ScanParsed | foursquare_bot/components/utilities.py:17-27 | the scan result, when truthy or an exception, is one of the parsed values |
| Utilities.ScanSeeAlso | foursquare_bot/components/utilities.py:20-25 | a truthy venue comes from some seeAlso value; no values gives None |
| Utilities.GetFoursquareVenue | foursquare_bot/components/utilities.py:11-27 | a payload not typed SpatialThing gives None; a truthy venue implies SpatialThing and a seeAlso value that parses to it |
| Utilities.Translated | foursquare_bot/components/utilities.py:45-61 | type SpatialThing, seeAlso `foursquare://venues/<id>` and the name are appended; lat and long only when the location has both; about and flags are untouched |
| Utilities.TranslatedKeepsOtherProperties | foursquare_bot/components/utilities.py:52-59 | no property other than seeAlso, name, lat and long changes |
| Utilities.FoursquareToStorage | foursquare_bot/components/utilities.py:45-61 | the payload is changed in place to `Translated` of itself; the same object is returned, or `KeyError('location')` after the first three additions |
| Utilities.FirstVenue | foursquare_bot/components/utilities.py:20-27 | the loop with `break` computes the scan `ScanSeeAlso` |
| Utilities.FindAppend | foursquare_bot/components/utilities.py:40 | `find` skips a prefix free of the character |
| Utilities.NetlocEndAppend | foursquare_bot/components/utilities.py:37 | the netloc end skips a prefix free of delimiters |
| Utilities.SchemeSplit | foursquare_bot/components/utilities.py:37 | a scheme word, ':' and a rest that is not a port number split into the lower-cased scheme and the rest |
| Utilities.NetlocSplit | foursquare_bot/components/utilities.py:37 | '//' and a delimiter-free host split into that host and the tail |
| Utilities.SplitAtAbsent | foursquare_bot/components/utilities.py:37 | splitting at an absent character keeps the whole text |
| Utilities.VenueWords | foursquare_bot/components/utilities.py:39 | `foursquare` is a lower-case scheme word and `venues` a plain host |
| Utilities.VenueUriParse | foursquare_bot/components/utilities.py:37-53 | the reference URI of a delimiter-free id parses to scheme `foursquare`, host `venues`, path `/<id>` |
| Utilities.VenueUriRoundTrip | foursquare_bot/components/utilities.py:39-53 | resolving the reference URI of a delimiter-free id gives the id back; for the empty id that is `''` |
| Utilities.VenueOfSegmentPath | foursquare_bot/components/utilities.py:40 | the path `/<id>` yields the id |
| Utilities.VenuesPrefix | foursquare_bot/components/utilities.py:39 | `foursquare://venues` is scheme, ':', '//' and host |
| Utilities.EmptyPathIsIndexError | foursquare_bot/components/utilities.py:40 | `foursquare://venues`, alone or followed by a query or fragment, raises `IndexError` |
| Utilities.SplitScheme | foursquare_bot/components/utilities.py:37 | no scheme leaves the URL whole; a scheme is the lower-cased scheme word before the first ':', and the rest after it is not a port number |
| Utilities.SplitNetloc | foursquare_bot/components/utilities.py:37 | after a leading '//' the netloc is delimiter-free and the tail is empty or starts at a delimiter; without '//' the netloc is empty and the text is kept |
| Utilities.SplitAt | foursquare_bot/components/utilities.py:37 | the head never holds the character; when it occurs the text is head, character and tail, otherwise the tail is empty |
| Utilities.UrlParse | foursquare_bot/components/utilities.py:37 | `ValueError` exactly when the netloc has one of '[' and ']' without the other; otherwise the netloc is delimiter-free, the path holds no '?' or '#', the query no '#' |
| Utilities.ScanParsedFirstErrorWins | foursquare_bot/components/utilities.py:22-25 | when the first value that raises comes after values that are not truthy, its exception is the result |
| Utilities.MalformedReferenceHidesLater | foursquare_bot/components/utilities.py:20-25 | `foursquare://venues` stored before a valid reference makes the scan raise `IndexError` |
| Utilities.ScanParsedFirstWins | foursquare_bot/components/utilities.py:22-25 | when the first truthy parsed value comes after values that are not truthy and did not raise, it is the result |
| Utilities.ScanFirstVenueWins | foursquare_bot/components/utilities.py:20-25 | among seeAlso values in stored order, the first one that gives a venue wins |
| Utilities.ScanParsedIgnoresLater | foursquare_bot/components/utilities.py:24-25 | once the scan has found a venue, values appended later do not change it |
| Utilities.ScanIgnoresLater | foursquare_bot/components/utilities.py:24-25 | seeAlso values after the first venue are ignored |
| Utilities.ParseAllAppend | foursquare_bot/components/utilities.py:22-23 | parsing distributes over concatenation |
| Utilities.TranslateThenResolve | foursquare_bot/components/utilities.py:17-54 | translating a venue with a non-empty delimiter-free id, then resolving the payload, gives that id |
| Utilities.ScanAfterUnnamed | foursquare_bot/components/utilities.py:20-25 | a venue reference after values that name no venue is the one found |
| Utilities.UtilitiesTestCase | tests/test_utilities.py:15-26 | a SpatialThing payload with one reference `foursquare://venues/<id>` resolves to the reference's last segment |
| Lookup.Reconfigured | foursquare_bot/components/foursquare_lookup.py:21-42 | a missing secret or identifier drops the client; identical credentials keep the client; other credentials build a client from exactly those; a client is built exactly when the handle changes to a present one |
| Lookup.UpdateFor | foursquare_bot/components/foursquare_lookup.py:82-84 | the update payload is about the node |
| Lookup.Lookup | foursquare_bot/components/foursquare_lookup.py:44-86 | at most one fetch and one update; an update implies a fetch and success; a fetch happens exactly when resolution gives a truthy id and a client exists, and fetches that id; an exception of the resolution is the result, with nothing fetched or updated; "no venue" exactly when resolution gives nothing truthy; a truthy id without a client is "no client" with nothing fetched |
| Lookup.ResolveVenue | foursquare_bot/components/foursquare_lookup.py:58-66 | an explicit identifier alone decides; otherwise the node's stored seeAlso values are scanned, an absent node gives None, and a truthy id comes from one of the node's seeAlso values |
| Lookup.Fetch | foursquare_bot/components/foursquare_lookup.py:78-86 | exactly one fetch of the id; an update exactly when the response has a `venue` with a `location`; a response without `venue` ends without update; a `venue` without `location` raises `KeyError('location')` |
| Lookup.FoursquareLookup.constructor | foursquare_bot/components/foursquare_lookup.py:17-19 | no client until configuration arrives, nothing fetched or updated |
| Lookup.FoursquareLookup.ConfigurationUpdated | foursquare_bot/components/foursquare_lookup.py:21-42 | the client handle becomes `Reconfigured` of the old one; nothing else changes |
| Lookup.FoursquareLookup.LookupFoursquareContent | foursquare_bot/components/foursquare_lookup.py:44-86 | result, fetch log and update log are those of `Lookup` on the state before; the client and the nodes are untouched |
| Lookup.FoursquareLookup.FetchAndUpdate | foursquare_bot/components/foursquare_lookup.py:78-86 | the fetch and update are those of `Fetch` |
| Lookup.FoursquareLookup.ResolveVenueOf | foursquare_bot/components/foursquare_lookup.py:59-66 | the seeAlso loop or the explicit parse computes `ResolveVenue` |
| Lookup.StorageUpdate | foursquare_bot/components/foursquare_lookup.py:82-84 | a fresh payload translated from the venue and stamped with the node, or `KeyError('location')` |
| Lookup.ReconfigureIdempotent | foursquare_bot/components/foursquare_lookup.py:29-42 | reconfiguring twice with the same event is the same as once |
| Lookup.ExplicitIdentifierIgnoresNode | foursquare_bot/components/foursquare_lookup.py:59-66 | with an explicit identifier the stored nodes do not matter |
| Lookup.EarlyReturns | foursquare_bot/components/foursquare_lookup.py:69-75 | no venue returns before the client check; no client returns before any fetch |
| Lookup.UpdateExactlyOnVenueResponse | foursquare_bot/components/foursquare_lookup.py:78-86 | an update is sent exactly when a venue, a client and a response venue with a location exist, and it is that venue's translation about the node |
| Lookup.UpdateResolvesToFetchedVenue | foursquare_bot/components/foursquare_lookup.py:81-86 | the update names the fetched venue: it is a SpatialThing whose seeAlso resolves back to the id |
| Lookup.EnrichReferencedNode | foursquare_bot/components/foursquare_lookup.py:59-86 | a node referencing `foursquare://venues/<id>`, with a client and a located venue response, is updated once with SpatialThing, the reference, the name and both coordinates, about the node |
| Maintainer.IsCandidate | foursquare_bot/components/maintainer.py:65-67 | a node with a name, or without the SpatialThing label, is never a candidate; a candidate has some seeAlso value |
| Maintainer.DiscoveryQuery | foursquare_bot/components/maintainer.py:65-69 | at most one result; none exactly when no stored node is a candidate; otherwise the first candidate in store order |
| Maintainer.Discover | foursquare_bot/components/maintainer.py:60-84 | a query failure propagates; no results raises "No results to work"; otherwise the session's node is the first result's `about` |
| Maintainer.Work | foursquare_bot/components/maintainer.py:86-98 | no node, or an empty one, raises "No node defined"; otherwise success exactly when the lookup resolves, passing the same session on, and a rejected lookup's reason as the failure |
| Maintainer.Cycle | foursquare_bot/components/maintainer.py:40-98 | a store failure propagates; the chain succeeds exactly when a candidate with a non-empty node exists and its lookup resolves, passing on the session holding that node; a rejected lookup's reason is the outcome |
| Maintainer.CycleLookups | foursquare_bot/components/maintainer.py:75-96 | at most one lookup, exactly when a candidate with a non-empty node exists, and of that node |
| Maintainer.DelayAfter | foursquare_bot/components/maintainer.py:100-106 | the next delay is 1 s exactly on success, otherwise 600 s |
| Maintainer.KnowledgeMaintainer.constructor | foursquare_bot/components/maintainer.py:24-29 | the handler is registered, nothing is scheduled; the timer view is `Initial` |
| Maintainer.KnowledgeMaintainer.OnConfigurationReceived | foursquare_bot/components/maintainer.py:29-38 | the first event schedules a run after 1 s and deregisters; later events schedule nothing; the loop invariant, required on entry, holds again on exit; the timer view takes one `Step` with `Configured` |
| Maintainer.KnowledgeMaintainer.ConfigurationUpdated | foursquare_bot/components/maintainer.py:31-38 | one run is scheduled after 1 s and the handler is removed |
| Maintainer.KnowledgeMaintainer.StartProcess | foursquare_bot/components/maintainer.py:40-51 | a run fires only once the loop is started and its invariant holds; the outcome is `Cycle`; exactly one reschedule, with `DelayAfter` of it; exactly one run stays pending; the lookups are the cycle's; the session is the discovered one, or the fresh empty one when discovery fails; the invariant is kept; the timer view takes one `Step` with `Ran` of the outcome |
| Maintainer.KnowledgeMaintainer.CreateSession | foursquare_bot/components/maintainer.py:53-58 | the session is fresh and empty |
| Maintainer.KnowledgeMaintainer.FindWorkNode | foursquare_bot/components/maintainer.py:60-84 | the session is written exactly as `Discover` says |
| Maintainer.KnowledgeMaintainer.WorkNode | foursquare_bot/components/maintainer.py:86-98 | the outcome is `Work`; a lookup is scheduled exactly for a present, non-empty node |
| Maintainer.KnowledgeMaintainer.ScheduleWorkToDo | foursquare_bot/components/maintainer.py:100-102 | one run is scheduled after 1 s |
| Maintainer.KnowledgeMaintainer.ScheduleNoWorkTask | foursquare_bot/components/maintainer.py:104-106 | one run is scheduled after 600 s |
| Maintainer.SoonExactlyOnSuccess | foursquare_bot/components/maintainer.py:40-51 | the short delay is chosen exactly when the store answers, a candidate exists, its node is non-empty and the lookup resolves |
| Maintainer.NoCandidateWaitsLong | foursquare_bot/components/maintainer.py:77-78 | with no candidate the cycle fails before any lookup and waits 600 s |
| Maintainer.LookupIsFirstCandidate | foursquare_bot/components/maintainer.py:80-96 | the only lookup of a cycle is for the first candidate's node |
| Maintainer.DiscoveryFindsFirst | foursquare_bot/components/maintainer.py:65-69 | `LIMIT 1` returns the first candidate |
| Maintainer.EnrichedNodeIsNoCandidate | foursquare_bot/components/maintainer.py:65-69 | a translated node has a name, so it is never discovered again |
| Maintainer.VenueReferenceIsCandidate | foursquare_bot/components/maintainer.py:65-69 | a SpatialThing node with no name and a one-line venue reference is a candidate |
| Maintainer.Step | foursquare_bot/components/maintainer.py:29-51 | one event only appends at most one delay, never re-registers the handler, never lowers the pending count, and counts a cycle exactly for a run while one is pending |
| Maintainer.Run | foursquare_bot/components/maintainer.py:29-106 | over any events the delays only grow by appending, the handler is never re-registered, and at most one cycle is counted per event |
| Maintainer.BareReferenceStaysCandidate | foursquare_bot/components/maintainer.py:65-69 | a node whose only reference is `foursquare:` is a candidate, yet the modelled `lookup_foursquare_content` on it gives "no venue" and sends no update; whether `schedule_lookup` runs that lookup is not modelled |
| Maintainer.RunAppend | foursquare_bot/components/maintainer.py:25-106 | running two lists of events in turn is running their concatenation |
| Maintainer.NothingBeforeConfiguration | foursquare_bot/components/maintainer.py:29-38 | before the first configuration event nothing is scheduled and no run fires |
| Maintainer.StartedStaysStarted | foursquare_bot/components/maintainer.py:40-106 | a running loop stays running: one run pending, one delay per cycle plus the first, every delay 1 s or 600 s |
| Maintainer.AlwaysOnePending | foursquare_bot/components/maintainer.py:29-106 | after the first configuration event, whatever events follow, exactly one run is pending, the first delay is 1 s and one delay was scheduled per cycle plus the first |
| Provider.Matches | foursquare_bot/components/knowledge_provider.py:44-45 | the newer capability test holds exactly when the requirements are a subset of the request's types |
| Provider.CreatedLookups | foursquare_bot/components/knowledge_provider.py:62-68 | each lookup is a creation lookup; none exactly when no result is flagged created |
| Provider.Handled | foursquare_bot/components/knowledge_provider.py:57-74 | None exactly for no results; otherwise a search response over every result |
| Provider.Dispatch | foursquare_bot/components/knowledge_provider.py:36-74 | a non-matching request is not handled; a find happens exactly for a matching request with a truthy venue, with CREATE_IF_MISSING set first; the reply and lookups come from its results; for a matching request whose venue scan raises, that exception is the reply, with no find and no lookup |
| Provider.KnowledgeProvider.constructor | foursquare_bot/components/knowledge_provider.py:24-25 | nothing queried or scheduled |
| Provider.KnowledgeProvider.RdfRequestMessage | foursquare_bot/components/knowledge_provider.py:36-55 | reply, query log and lookup log are those of `Dispatch` |
| Provider.KnowledgeProvider.HandleResults | foursquare_bot/components/knowledge_provider.py:57-74 | the loop schedules `CreatedLookups` of the results and replies `Handled` |
| Provider.MatchesIffSpatial | foursquare_bot/components/knowledge_provider.py:22-45 | the match holds exactly when SpatialThing is among the types, that is, a superset test |
| Provider.ExtraTypesStillMatch | foursquare_bot/components/knowledge_provider.py:44-45 | extra types never stop a match |
| Provider.CreatedLookupsAppend | foursquare_bot/components/knowledge_provider.py:62-68 | scheduling distributes over concatenated results, so result order is kept |
| Provider.CreatedLookupsExactly | foursquare_bot/components/knowledge_provider.py:66-68 | a creation lookup for a node is scheduled exactly when some result about it is flagged created |
| Provider.CreatedFirstSchedulesFirst | foursquare_bot/components/knowledge_provider.py:62-68 | a created first result is scheduled first |
| Provider.NoVenueNoFind | foursquare_bot/components/knowledge_provider.py:47-55 | no venue, or the empty venue, means not handled, no find and no lookup |
| Provider.ResponseWrapsAllResults | foursquare_bot/components/knowledge_provider.py:58-74 | empty results give None and no lookup; otherwise the response wraps every result |
| Provider.TranslatedRequestIsHandled | foursquare_bot/components/knowledge_provider.py:44-51 | a request shaped like a translated venue is handled with a create-if-missing query |
| LegacyProvider.LegacyMatches | foursquare/components/knowledge_provider.py:33-35 | a request the older test accepts has at most one type, and all its types are required ones |
| LegacyProvider.LegacyRdfRequestMessage | foursquare/components/knowledge_provider.py:26-40 | a query is sent exactly for a matching request; the results are returned exactly when non-empty |
| LegacyProvider.LegacyMatchesIff | foursquare/components/knowledge_provider.py:17-35 | the older test holds exactly for `[]` and `[SpatialThing]` |
| LegacyProvider.LegacyMatchesIsSubset | foursquare/components/knowledge_provider.py:33-35 | without repeated types the test is request ⊆ requirements |
| LegacyProvider.TwoDistinctTypes | foursquare/components/knowledge_provider.py:33-35 | two different types do not both fit inside `{SpatialThing}` |
| LegacyProvider.RepeatedTypeIsRefused | foursquare/components/knowledge_provider.py:33-35 | `[SpatialThing, SpatialThing]` is refused here but handled by the newer test |
| LegacyProvider.OppositeDirections | foursquare/components/knowledge_provider.py:33-35 | SpatialThing plus another type: refused here, matched by the newer test; no types: accepted here, refused by the newer test |
| LegacyProvider.RefusedRequestIsUnanswered | foursquare/components/knowledge_provider.py:35-40 | a refused request gets None and reaches no store |
| SearchVenues.OptionLabel | foursquare_bot/components/commands/search_venues.py:54-61 | the label starts with the name; it is the plain name exactly when there is no location address; otherwise it ends with ` (<address>)` |
| SearchVenues.Options | foursquare_bot/components/commands/search_venues.py:52-63 | one option per result, in order, whose value is the id and whose label is `OptionLabel` |
| SearchVenues.VenueTable | foursquare_bot/components/commands/search_venues.py:51-57 | every result id is a key |
| SearchVenues.VenueTableLastWins | foursquare_bot/components/commands/search_venues.py:57 | a result is stored under its id unless a later result has the same id |
| SearchVenues.VenueTableOnlyResults | foursquare_bot/components/commands/search_venues.py:51-57 | every entry is some result stored under its own id |
| SearchVenues.Selected | foursquare_bot/components/commands/search_venues.py:87-95 | a missing `location` field, a missing table or an unknown id is a `KeyError`; otherwise one item with the id and the stored plain name |
| SearchVenues.CommandSession.constructor | foursquare_bot/components/commands/search_venues.py:19 | an empty session |
| SearchVenues.CommandStart | foursquare_bot/components/commands/search_venues.py:19-35 | the form asks for `near` and `query`; `next` is the search and `has_next` is true |
| SearchVenues.PerformSearchStep | foursquare_bot/components/commands/search_venues.py:37-72 | a missing field is a `KeyError` and leaves the session alone; otherwise the table is `VenueTable`, the form lists `Options`, `next` is the selection and `has_next` is false |
| SearchVenues.SelectItemStep | foursquare_bot/components/commands/search_venues.py:74-101 | the payload is `Selected`, `next` is None and `has_next` is false; an error leaves the session alone |
| SearchVenues.OptionsFollowResults | foursquare_bot/components/commands/search_venues.py:53-63 | option `i` holds result `i`'s id; its label is the plain name exactly when no address is known |
| SearchVenues.OptionsAppend | foursquare_bot/components/commands/search_venues.py:53-63 | options of concatenated results are concatenated options |
| SearchVenues.SelectAfterSearch | foursquare_bot/components/commands/search_venues.py:57-95 | choosing an offered option gives that result's id and plain name, unless a later result has the same id |
| SearchVenues.SelectUnknownIsKeyError | foursquare_bot/components/commands/search_venues.py:95 | choosing before a search, or an id no result had, is a `KeyError` |
| SearchVenues.LaterDuplicateWins | foursquare_bot/components/commands/search_venues.py:57 | a later result with the same id overwrites the earlier one |

## Left out

- The promise and scheduler machinery (`defer`, `then`, `schedule_task`). A cycle is modelled by its settled outcome, and the scheduler by the delays it is given and the runs still pending. There is no real time and no event loop.
- The race between a dispatcher-created node and its discovery by the maintainer is a concurrency concern and is not modelled.
- XMPP plugin plumbing is not modelled: `base_plugin`, `post_init`, dependency sets, adding request handlers, and logging. The one exception is the maintainer's event handler, whose deregistration is modelled.
- External services are abstract parameters: the Foursquare client (`venues`, `search_foursquare`) and the store (`get_node`, `find_nodes`, `update_node`, `execute_cypher`). Their own failures are not modelled, except that `execute_cypher` may fail.
- A `find_nodes` promise that rejects is not modelled.
- `schedule_lookup` is only recorded, because its definition is not part of this model. Its promise's outcome is a parameter of the maintainer's cycle.
- The configuration store is left out. `_configuration_updated` of the lookup takes the two configuration values as optional parameters.
- The Cypher text at `maintainer.py:65-69` is not parsed. The query is modelled as a predicate over stored nodes:
  - the SpatialThing label;
  - a seeAlso value made of `foursquare:` followed by one line;
  - no name property.
- `LIMIT 1` without an `ORDER BY` is modelled as the first match in store order.
- `search_handler.py`, `main.py`, `foursquare_bot_setup.py`, both `__init__.py` files and `setup.py` are not part of this model.
- The URL parser follows Python 2.7's `urlsplit` for scheme, netloc, path, query and fragment. It leaves out two parts that cannot change a `foursquare` result:
  - the `http` fast path;
  - the `;params` split of `urlparse`, which `foursquare` is not subject to.
- The parser also leaves out the NFKC netloc check of later 2.7 releases.
- Latitude and longitude are opaque text; no floating point is involved.
- Forms are plain records: field type, label, description and options. The XEP-0004 encoding is not modelled, nor what the form library does with the `description` and `type` keyword arguments.
- The `select_item` docstring promises storage and a lookup. The body does neither, and the model follows the body.
- The payload access mismatches are abstracted: a payload has a type list and a result list. These are `payload.types` without a call at `knowledge_provider.py:44` and `results.results()` at the older provider's line 37.
- A venue record is assumed to carry `id` and `name`; a missing one would raise `KeyError` in the source.
- Only `location` (the translator) and the form fields (the command) are modelled as `KeyError` paths.
- In the lookup, a node that the store does not hold is taken to have no seeAlso values.
- The store's real flag key strings are not modelled; flags are an enumeration.
- Property keys are the compact URIs of the terms. The model does not check that another key could spell the same IRI.
- A session whose `node` entry holds None is modelled the same as a session without the entry. The only reader, `session.get('node', None)`, cannot tell them apart.
- Lookup.FoursquareLookup.ConfigurationUpdated: the client is identified by its credentials and a build number. The `foursquare.Foursquare` object itself is not modelled.
