/**
 * The bot's knowledge provider: it answers RDF requests for spatial things
 * that reference a Foursquare venue by finding (or creating) the matching
 * nodes in the store, scheduling a lookup for every node the find created,
 * and replying with a search response over all the nodes found.
 *
 * The store's `find_nodes` is a function from the query payload to the
 * nodes it answers with; `schedule_lookup` calls and queries sent are logs.
 */
module Provider {
  import opened Wrappers
  import opened Storage
  import opened Utilities

  /** `type_requirements`. */
  const TypeRequirements: set<string> := {SpatialThing}

  /** A `schedule_lookup(about, create=True)` call. */
  datatype LookupRequest = LookupRequest(about: Option<string>, create: bool)

  /** An RDF message built with `create_rdf`; only search responses are built here. */
  datatype Response = SearchResponse(results: seq<Record>)

  /** What `_rdf_request_message` hands back: None, or the promise of the find's handled results. */
  datatype Reply = NotHandled | Promised(response: Option<Response>)

  /** The capability test: every required type is among the request's types. */
  predicate Matches(types: seq<string>)
    ensures Matches(types) <==> TypeRequirements <= TypeSet(types)
  {
    SpatialIntersection(types);
    |TypeRequirements * TypeSet(types)| == |TypeRequirements|
  }

  /** The lookups `_handle_results` schedules: one per created result, in result order. */
  function CreatedLookups(results: seq<Record>): (r: seq<LookupRequest>)
    ensures |r| <= |results|
    ensures forall k :: 0 <= k < |r| ==> r[k].create
    ensures r == [] <==> forall i :: 0 <= i < |results| ==> !FlagSet(results[i], Created)
  {
    if results == [] then []
    else
      var rest := CreatedLookups(results[1..]);
      assert forall i :: 1 <= i < |results| ==> results[i] == results[1..][i - 1];
      if FlagSet(results[0], Created) then [LookupRequest(results[0].about, true)] + rest else rest
  }

  /** `_handle_results` as a value: the search response, None for no results. */
  function Handled(results: seq<Record>): (r: Option<Response>)
    ensures r.None? <==> results == []
    ensures r.Some? ==> r.value.results == results
  {
    if results == [] then None else Some(SearchResponse(results))
  }

  /** What one request did: the reply, the queries sent to `find_nodes`, the lookups scheduled. */
  datatype Dispatched = Dispatched(reply: Result<Reply, Exception>, queries: seq<Record>, lookups: seq<LookupRequest>)

  /** `_rdf_request_message` on a request, given the store's answers. */
  function Dispatch(request: Record, findNodes: Record -> seq<Record>): (d: Dispatched)
    ensures !Matches(request.types) ==> d == Dispatched(Ok(NotHandled), [], [])
    ensures d.queries != [] <==>
      Matches(request.types) && GetFoursquareVenue(request).Ok? && Truthy(GetFoursquareVenue(request).value)
    ensures d.queries != [] ==>
      d.queries == [WithFlag(request, CreateIfMissing, true)] && FlagSet(d.queries[0], CreateIfMissing)
    ensures d.queries != [] ==>
      d.reply == Ok(Promised(Handled(findNodes(d.queries[0])))) && d.lookups == CreatedLookups(findNodes(d.queries[0]))
    ensures d.queries == [] ==> d.lookups == []
    ensures d.queries == [] && d.reply.Ok? ==> d.reply.value == NotHandled
    ensures d.reply.Err? ==> GetFoursquareVenue(request) == Err(d.reply.error)
    ensures Matches(request.types) && GetFoursquareVenue(request).Err? ==>
      d == Dispatched(Err(GetFoursquareVenue(request).error), [], [])
  {
    if !Matches(request.types) then Dispatched(Ok(NotHandled), [], [])
    else match GetFoursquareVenue(request)
      case Err(e) => Dispatched(Err(e), [], [])
      case Ok(venue) =>
        if !Truthy(venue) then Dispatched(Ok(NotHandled), [], [])
        else
          var query := WithFlag(request, CreateIfMissing, true);
          var results := findNodes(query);
          Dispatched(Ok(Promised(Handled(results))), [query], CreatedLookups(results))
  }

  class KnowledgeProvider {
    /** Every payload sent to `find_nodes`, in order. */
    var queries: seq<Record>
    /** Every `schedule_lookup` call, in order. */
    var lookups: seq<LookupRequest>

    constructor ()
      ensures queries == [] && lookups == []
    {
      queries, lookups := [], [];
    }

    /** `_rdf_request_message(rdf_payload)`, with the request's form as a record. */
    method RdfRequestMessage(request: Record, findNodes: Record -> seq<Record>) returns (reply: Result<Reply, Exception>)
      modifies this
      ensures var d := Dispatch(request, findNodes);
        reply == d.reply && queries == old(queries) + d.queries && lookups == old(lookups) + d.lookups
    {
      var payload := new StoragePayload.FromRecord(request);
      SpatialIntersection(payload.types);
      if |TypeRequirements * TypeSet(payload.types)| == |TypeRequirements| {
        var venue := GetFoursquareVenue(payload.Snapshot());
        if venue.Err? {
          return Err(venue.error);
        }
        if Truthy(venue.value) {
          payload.AddFlag(CreateIfMissing, true);
          var query := payload.Snapshot();
          queries := queries + [query];
          var response := HandleResults(findNodes(query));
          return Ok(Promised(response));
        }
      }
      return Ok(NotHandled);
    }

    /** `_handle_results`: schedule a lookup for each created node, then wrap all results. */
    method HandleResults(results: seq<Record>) returns (response: Option<Response>)
      modifies this
      ensures response == Handled(results)
      ensures lookups == old(lookups) + CreatedLookups(results)
      ensures queries == old(queries)
    {
      if |results| == 0 {
        return None;
      }
      var i := 0;
      while i < |results|
        invariant 0 <= i <= |results|
        invariant lookups == old(lookups) + CreatedLookups(results[..i])
        invariant queries == old(queries)
      {
        var res := results[i];
        CreatedLookupsAppend(results[..i], [res]);
        assert results[..i + 1] == results[..i] + [res];
        if FlagSet(res, Created) {
          lookups := lookups + [LookupRequest(res.about, true)];
        }
        i := i + 1;
      }
      assert results[..i] == results;
      response := Some(SearchResponse(results));
    }
  }

  // ---------------------------------------------------------------------
  // Properties of the dispatcher

  /** The capability test is a superset test: the request must carry SpatialThing, other types are fine. */
  lemma MatchesIffSpatial(types: seq<string>)
    ensures Matches(types) <==> SpatialThing in types
    ensures Matches(types) <==> TypeRequirements <= TypeSet(types)
  {
    SpatialIntersection(types);
  }

  /** Extra types never stop a request from matching. */
  lemma ExtraTypesStillMatch(types: seq<string>, extra: seq<string>)
    requires Matches(types)
    ensures Matches(types + extra) && Matches(extra + types)
  {
    MatchesIffSpatial(types);
    MatchesIffSpatial(types + extra);
    MatchesIffSpatial(extra + types);
  }

  /** Scheduling distributes over concatenated result lists. */
  lemma {:induction false} CreatedLookupsAppend(a: seq<Record>, b: seq<Record>)
    ensures CreatedLookups(a + b) == CreatedLookups(a) + CreatedLookups(b)
  {
    if a == [] {
      assert a + b == b;
    } else {
      assert (a + b)[1..] == a[1..] + b;
      assert (a + b)[0] == a[0];
      CreatedLookupsAppend(a[1..], b);
    }
  }

  /**
   * A lookup is scheduled for a node exactly when some result about that
   * node is flagged created.
   */
  lemma {:induction false} CreatedLookupsExactly(results: seq<Record>, about: Option<string>)
    ensures LookupRequest(about, true) in CreatedLookups(results) <==>
      exists i :: 0 <= i < |results| && FlagSet(results[i], Created) && results[i].about == about
  {
    if results != [] {
      CreatedLookupsExactly(results[1..], about);
      assert forall i :: 1 <= i < |results| ==> results[i] == results[1..][i - 1];
      if exists i :: 1 <= i < |results| && FlagSet(results[i], Created) && results[i].about == about {
        var i :| 1 <= i < |results| && FlagSet(results[i], Created) && results[i].about == about;
        assert FlagSet(results[1..][i - 1], Created) && results[1..][i - 1].about == about;
      }
    }
  }

  /** The lookups follow the order of the created results: a created result first schedules first. */
  lemma CreatedFirstSchedulesFirst(created: Record, rest: seq<Record>)
    requires FlagSet(created, Created)
    ensures CreatedLookups([created] + rest) == [LookupRequest(created.about, true)] + CreatedLookups(rest)
  {
    assert ([created] + rest)[1..] == rest;
  }

  /** A request that does not resolve to a venue is not handled and reaches no store. */
  lemma NoVenueNoFind(request: Record, findNodes: Record -> seq<Record>)
    requires GetFoursquareVenue(request) == Ok(None) || GetFoursquareVenue(request) == Ok(Some(""))
    ensures Dispatch(request, findNodes) == Dispatched(Ok(NotHandled), [], [])
  {
  }

  /**
   * An empty find answers None and schedules nothing; a non-empty one is
   * answered with every result, created or not.
   */
  lemma ResponseWrapsAllResults(request: Record, findNodes: Record -> seq<Record>)
    requires Dispatch(request, findNodes).queries != []
    ensures var d := Dispatch(request, findNodes);
      var results := findNodes(d.queries[0]);
      (results == [] ==> d.reply == Ok(Promised(None)) && d.lookups == [])
      && (results != [] ==> d.reply == Ok(Promised(Some(SearchResponse(results)))))
  {
  }

  /**
   * A request the bot itself would store for a venue (a translated payload
   * with a usable id) is handled, and the query sent asks to create the node.
   */
  lemma TranslatedRequestIsHandled(v: Venue, findNodes: Record -> seq<Record>)
    requires v.id != "" && NoDelims(v.id)
    ensures var d := Dispatch(Translated(v, EmptyRecord), findNodes);
      d.queries == [WithFlag(Translated(v, EmptyRecord), CreateIfMissing, true)]
  {
    TranslateThenResolve(v, EmptyRecord);
    MatchesIffSpatial(Translated(v, EmptyRecord).types);
  }
}
