/**
 * The older knowledge provider: it answers a request with the store's
 * nodes when the request's type list fits inside its requirements, and
 * otherwise not at all.  Its capability test compares the intersection with
 * the size of the request's type list, so it is a subset test, the
 * opposite direction from the newer provider's superset test.
 */
module LegacyProvider {
  import opened Wrappers
  import opened Storage
  import Provider

  /** `type_requirements`. */
  const TypeRequirements: set<string> := {SpatialThing}

  /** The older capability test, compared against the length of the type list. */
  predicate LegacyMatches(types: seq<string>)
    ensures LegacyMatches(types) ==> |types| <= 1 && TypeSet(types) <= TypeRequirements
  {
    SpatialIntersection(types);
    |TypeRequirements * TypeSet(types)| == |types|
  }

  /** What one request did: the reply (None or the results) and the queries sent to `find_nodes`. */
  datatype LegacyOutcome = LegacyOutcome(reply: Option<seq<Record>>, queries: seq<Record>)

  /** `_rdf_request_message` on a request, given the store's answers. */
  function LegacyRdfRequestMessage(request: Record, findNodes: Record -> seq<Record>): (o: LegacyOutcome)
    ensures o.queries == (if LegacyMatches(request.types) then [request] else [])
    ensures o.reply.Some? <==> LegacyMatches(request.types) && findNodes(request) != []
    ensures o.reply.Some? ==> o.reply.value == findNodes(request)
  {
    if LegacyMatches(request.types) then
      var results := findNodes(request);
      LegacyOutcome(if |results| > 0 then Some(results) else None, [request])
    else LegacyOutcome(None, [])
  }

  /** The older test holds exactly for the empty type list and for the list holding SpatialThing once. */
  lemma LegacyMatchesIff(types: seq<string>)
    ensures LegacyMatches(types) <==> types == [] || types == [SpatialThing]
  {
    SpatialIntersection(types);
    if |types| == 1 && SpatialThing in types {
      assert types[0] == SpatialThing;
      assert types == [SpatialThing];
    }
  }

  /** A type list without repetitions matches exactly when it stays inside the requirements. */
  lemma LegacyMatchesIsSubset(types: seq<string>)
    requires forall i, j :: 0 <= i < j < |types| ==> types[i] != types[j]
    ensures LegacyMatches(types) <==> TypeSet(types) <= TypeRequirements
  {
    LegacyMatchesIff(types);
    if TypeSet(types) <= TypeRequirements && types != [] {
      assert types[0] in TypeSet(types);
      assert types[0] == SpatialThing;
      if |types| > 1 {
        TwoDistinctTypes(types);
      }
      assert types == [SpatialThing];
    }
  }

  /** Two different types cannot both lie inside the one-element requirements. */
  lemma TwoDistinctTypes(types: seq<string>)
    requires |types| > 1 && types[0] != types[1]
    ensures !(TypeSet(types) <= TypeRequirements)
  {
    assert types[0] in TypeSet(types) && types[1] in TypeSet(types);
  }

  /** Repeating SpatialThing makes the lengths differ, so the request is refused. */
  lemma RepeatedTypeIsRefused()
    ensures !LegacyMatches([SpatialThing, SpatialThing])
    ensures Provider.Matches([SpatialThing, SpatialThing])
  {
    LegacyMatchesIff([SpatialThing, SpatialThing]);
    Provider.MatchesIffSpatial([SpatialThing, SpatialThing]);
  }

  /**
   * The two providers disagree in both directions: a spatial request with
   * another type is refused here and handled by the newer provider, and a
   * request with no types is accepted here and refused there.
   */
  lemma OppositeDirections(other: string)
    requires other != SpatialThing
    ensures !LegacyMatches([SpatialThing, other]) && Provider.Matches([SpatialThing, other])
    ensures LegacyMatches([]) && !Provider.Matches([])
    ensures !LegacyMatches([other])
  {
    LegacyMatchesIff([SpatialThing, other]);
    LegacyMatchesIff([other]);
    LegacyMatchesIff([]);
    Provider.MatchesIffSpatial([SpatialThing, other]);
    Provider.MatchesIffSpatial([]);
  }

  /** A refused request reaches no store and gets no reply. */
  lemma RefusedRequestIsUnanswered(request: Record, findNodes: Record -> seq<Record>)
    requires request.types != [] && request.types != [SpatialThing]
    ensures LegacyRdfRequestMessage(request, findNodes) == LegacyOutcome(None, [])
  {
    LegacyMatchesIff(request.types);
  }
}
