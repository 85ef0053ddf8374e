/**
 * The lookup component: a replaceable handle on the venue service client,
 * rebuilt from configuration events, and the lookup procedure that resolves
 * a node's venue id, fetches the venue and sends one storage update.
 */
module Lookup {
  import opened Wrappers
  import opened Storage
  import opened Utilities

  /** A venue service client: the OAuth credentials it was built from, and which build it is. */
  datatype Client = Client(clientId: string, clientSecret: string, build: nat)

  /**
   * How a lookup ended: `NoVenue` and `NoClient` are the two early returns
   * with an error log; `NoVenueInResponse` is a response without a `venue`
   * member, after which the procedure ends silently.
   */
  datatype Outcome = NoVenue | NoClient | NoVenueInResponse | Updated

  /** The venue service: the `venue` member of the response for an id, None when the response has none. */
  type VenueApi = (Client, string) -> Option<Venue>

  /** What one lookup did: its outcome, the ids fetched and the updates sent. */
  datatype Effect = Effect(result: Result<Outcome, Exception>, fetched: seq<string>, updated: seq<Record>)

  /**
   * The client handle after a configuration event carrying `secret` and
   * `identifier` (None when the key is absent); `builds` counts the clients
   * built so far.
   */
  function Reconfigured(client: Option<Client>, builds: nat, secret: Option<string>, identifier: Option<string>): (r: (Option<Client>, nat))
    ensures secret.None? || identifier.None? ==> r == (None, builds)
    ensures secret.Some? && identifier.Some? ==>
      r.0.Some? && r.0.value.clientId == identifier.value && r.0.value.clientSecret == secret.value
    ensures secret.Some? && identifier.Some? && client.Some?
      && client.value.clientId == identifier.value && client.value.clientSecret == secret.value
      ==> r == (client, builds)
    ensures r.1 == builds + 1 <==> r.0.Some? && r.0 != client
  {
    if secret.None? || identifier.None? then (None, builds)
    else if client.Some? && client.value.clientId == identifier.value && client.value.clientSecret == secret.value
    then (client, builds)
    else (Some(Client(identifier.value, secret.value, builds)), builds + 1)
  }

  /** The seeAlso values of a stored node; a node the store does not hold has none. */
  function NodeSeeAlso(nodes: map<string, Record>, nodeUri: string): seq<string>
  {
    if nodeUri in nodes then Values(nodes[nodeUri], SeeAlso) else []
  }

  /** The venue id: from the explicit identifier alone, or else from the stored node. */
  function ResolveVenue(nodes: map<string, Record>, nodeUri: string, identifier: Option<string>): (r: Result<Option<string>, Exception>)
    ensures identifier.Some? ==> r == GetFoursquareVenueFromUrl(identifier.value)
    ensures identifier.None? && nodeUri !in nodes ==> r == Ok(None)
    ensures identifier.None? && r.Ok? && Truthy(r.value) ==>
      exists j :: 0 <= j < |NodeSeeAlso(nodes, nodeUri)| && GetFoursquareVenueFromUrl(NodeSeeAlso(nodes, nodeUri)[j]) == r
  {
    if identifier.None? then ScanSeeAlso(NodeSeeAlso(nodes, nodeUri))
    else GetFoursquareVenueFromUrl(identifier.value)
  }

  /** The update sent for a fetched venue: its translation into a fresh payload, about the node. */
  function UpdateFor(details: Venue, nodeUri: string): (u: Record)
    ensures u.about == Some(nodeUri)
  {
    Translated(details, EmptyRecord).(about := Some(nodeUri))
  }

  /** `lookup_foursquare_content` as a function of the state it reads. */
  function Lookup(client: Option<Client>, nodes: map<string, Record>, nodeUri: string,
                  identifier: Option<string>, api: VenueApi): (e: Effect)
    ensures |e.fetched| <= 1 && |e.updated| <= 1
    ensures e.updated != [] ==> e.fetched != [] && e.result == Ok(Updated)
    ensures e.fetched != [] ==> client.Some? && ResolveVenue(nodes, nodeUri, identifier) == Ok(Some(e.fetched[0]))
    ensures e.fetched != [] <==>
      ResolveVenue(nodes, nodeUri, identifier).Ok? && Truthy(ResolveVenue(nodes, nodeUri, identifier).value) && client.Some?
    ensures e.result == Ok(NoVenue) <==>
      ResolveVenue(nodes, nodeUri, identifier).Ok? && !Truthy(ResolveVenue(nodes, nodeUri, identifier).value)
    ensures ResolveVenue(nodes, nodeUri, identifier).Err? ==>
      e == Effect(Err(ResolveVenue(nodes, nodeUri, identifier).error), [], [])
    ensures client.None? && ResolveVenue(nodes, nodeUri, identifier).Ok? ==>
      e == Effect(Ok(if Truthy(ResolveVenue(nodes, nodeUri, identifier).value) then NoClient else NoVenue), [], [])
  {
    var venue := ResolveVenue(nodes, nodeUri, identifier);
    if venue.Err? then Effect(Err(venue.error), [], [])
    else if !Truthy(venue.value) then Effect(Ok(NoVenue), [], [])
    else if client.None? then Effect(Ok(NoClient), [], [])
    else Fetch(client.value, venue.value.value, nodeUri, api)
  }

  /** The fetch stage of a lookup: one venue request for `id`, then at most one update. */
  function Fetch(client: Client, id: string, nodeUri: string, api: VenueApi): (e: Effect)
    ensures e.fetched == [id] && |e.updated| <= 1
    ensures e.updated != [] <==> api(client, id).Some? && api(client, id).value.location.Some?
    ensures e.updated != [] ==> e.result == Ok(Updated)
    ensures e.result.Ok? && e.result.value == Updated ==> e.updated != []
    ensures api(client, id).None? ==> e.result == Ok(NoVenueInResponse)
    ensures api(client, id).Some? && api(client, id).value.location.None? ==> e.result == Err(KeyError("location"))
  {
    match api(client, id)
    case None => Effect(Ok(NoVenueInResponse), [id], [])
    case Some(details) =>
      if details.location.None? then Effect(Err(KeyError("location")), [id], [])
      else Effect(Ok(Updated), [id], [UpdateFor(details, nodeUri)])
  }

  class FoursquareLookup {
    var client: Option<Client>
    var clientBuilds: nat
    /** The stored graph nodes `get_node` reads, by node URI. */
    var nodes: map<string, Record>
    /** Every id fetched from the venue service, in order. */
    var fetched: seq<string>
    /** Every payload sent with `update_node`, in order. */
    var updates: seq<Record>

    /** `plugin_init`: no client until the configuration arrives. */
    constructor (nodes: map<string, Record>)
      ensures client == None && clientBuilds == 0
      ensures this.nodes == nodes && fetched == [] && updates == []
    {
      client, clientBuilds := None, 0;
      this.nodes := nodes;
      fetched, updates := [], [];
    }

    /** `_configuration_updated`: replace, keep or drop the client handle. */
    method ConfigurationUpdated(secret: Option<string>, identifier: Option<string>)
      modifies this
      ensures (client, clientBuilds) == Reconfigured(old(client), old(clientBuilds), secret, identifier)
      ensures nodes == old(nodes) && fetched == old(fetched) && updates == old(updates)
    {
      if secret.None? || identifier.None? {
        client := None;
      } else {
        if client.Some? {
          var oauth := client.value;
          if oauth.clientId == identifier.value && oauth.clientSecret == secret.value {
            return;
          }
        }
        client := Some(Client(identifier.value, secret.value, clientBuilds));
        clientBuilds := clientBuilds + 1;
      }
    }

    /** `lookup_foursquare_content(node_uri, foursquare_identifier)`. */
    method LookupFoursquareContent(nodeUri: string, identifier: Option<string>, api: VenueApi)
      returns (r: Result<Outcome, Exception>)
      modifies this
      ensures var e := Lookup(old(client), old(nodes), nodeUri, identifier, api);
        r == e.result && fetched == old(fetched) + e.fetched && updates == old(updates) + e.updated
      ensures client == old(client) && clientBuilds == old(clientBuilds) && nodes == old(nodes)
    {
      var venue := ResolveVenueOf(nodeUri, identifier);
      if venue.Err? {
        return Err(venue.error);
      }
      if !Truthy(venue.value) {
        return Ok(NoVenue);
      }
      if client.None? {
        return Ok(NoClient);
      }
      r := FetchAndUpdate(venue.value.value, nodeUri, api);
    }

    /** The fetch stage: request the venue, translate it and send the update. */
    method FetchAndUpdate(id: string, nodeUri: string, api: VenueApi) returns (r: Result<Outcome, Exception>)
      requires client.Some?
      modifies this
      ensures var e := Fetch(old(client).value, id, nodeUri, api);
        r == e.result && fetched == old(fetched) + e.fetched && updates == old(updates) + e.updated
      ensures client == old(client) && clientBuilds == old(clientBuilds) && nodes == old(nodes)
    {
      fetched := fetched + [id];
      var details := api(client.value, id);
      if details.None? {
        return Ok(NoVenueInResponse);
      }
      var update := StorageUpdate(details.value, nodeUri);
      if update.Err? {
        return Err(update.error);
      }
      updates := updates + [update.value];
      r := Ok(Updated);
    }

    /** The resolution stage: the explicit identifier, or the node fetched with `get_node`. */
    method ResolveVenueOf(nodeUri: string, identifier: Option<string>) returns (venue: Result<Option<string>, Exception>)
      ensures venue == ResolveVenue(nodes, nodeUri, identifier)
    {
      if identifier.None? {
        var seeAlsos := NodeSeeAlso(nodes, nodeUri);
        venue := FirstVenue(seeAlsos);
      } else {
        venue := GetFoursquareVenueFromUrl(identifier.value);
      }
    }
  }

  /** The translation stage: a fresh payload filled from the venue and stamped with the node URI. */
  method StorageUpdate(details: Venue, nodeUri: string) returns (update: Result<Record, Exception>)
    ensures update == if details.location.Some? then Ok(UpdateFor(details, nodeUri)) else Err(KeyError("location"))
  {
    var payload := new StoragePayload();
    var translated := FoursquareToStorage(details, payload);
    if translated.Err? {
      return Err(translated.error);
    }
    payload.about := Some(nodeUri);
    update := Ok(payload.Snapshot());
  }

  // ---------------------------------------------------------------------
  // Properties of the client handle and of the lookup

  /** Reconfiguring with the same event twice is the same as once. */
  lemma ReconfigureIdempotent(client: Option<Client>, builds: nat, secret: Option<string>, identifier: Option<string>)
    ensures var once := Reconfigured(client, builds, secret, identifier);
      Reconfigured(once.0, once.1, secret, identifier) == once
  {
  }

  /** With an explicit identifier the stored node is never consulted. */
  lemma ExplicitIdentifierIgnoresNode(client: Option<Client>, nodes1: map<string, Record>, nodes2: map<string, Record>,
                                      nodeUri: string, identifier: string, api: VenueApi)
    ensures Lookup(client, nodes1, nodeUri, Some(identifier), api) == Lookup(client, nodes2, nodeUri, Some(identifier), api)
  {
  }

  /**
   * A missing venue stops the lookup before the client is looked at; a
   * missing client stops it before any fetch.
   */
  lemma EarlyReturns(client: Option<Client>, nodes: map<string, Record>, nodeUri: string,
                     identifier: Option<string>, api: VenueApi)
    ensures var venue := ResolveVenue(nodes, nodeUri, identifier);
      venue.Ok? && !Truthy(venue.value) ==> Lookup(client, nodes, nodeUri, identifier, api) == Effect(Ok(NoVenue), [], [])
    ensures var venue := ResolveVenue(nodes, nodeUri, identifier);
      venue.Ok? && Truthy(venue.value) && client.None? ==> Lookup(client, nodes, nodeUri, identifier, api) == Effect(Ok(NoClient), [], [])
  {
  }

  /**
   * An update is sent exactly when a venue was resolved, a client exists and
   * the response carries a venue with a location; the update is that venue's
   * translation about the node.
   */
  lemma UpdateExactlyOnVenueResponse(client: Option<Client>, nodes: map<string, Record>, nodeUri: string,
                                     identifier: Option<string>, api: VenueApi)
    ensures var venue := ResolveVenue(nodes, nodeUri, identifier);
      var e := Lookup(client, nodes, nodeUri, identifier, api);
      e.updated != [] <==>
        venue.Ok? && Truthy(venue.value) && client.Some?
        && api(client.value, venue.value.value).Some? && api(client.value, venue.value.value).value.location.Some?
    ensures var e := Lookup(client, nodes, nodeUri, identifier, api);
      e.updated != [] ==> e.updated == [UpdateFor(api(client.value, e.fetched[0]).value, nodeUri)]
  {
  }

  /**
   * The update sent names the fetched venue: its seeAlso resolves back to
   * the venue record's id, when that id is non-empty and free of '/', '?'
   * and '#'.
   */
  lemma UpdateResolvesToFetchedVenue(details: Venue, nodeUri: string)
    requires details.id != "" && NoDelims(details.id)
    ensures GetFoursquareVenue(UpdateFor(details, nodeUri)) == Ok(Some(details.id))
    ensures SpatialThing in UpdateFor(details, nodeUri).types
  {
    TranslateThenResolve(details, EmptyRecord);
    assert Values(UpdateFor(details, nodeUri), SeeAlso) == Values(Translated(details, EmptyRecord), SeeAlso);
  }

  /**
   * A stored node whose only seeAlso is the venue URI of `id`, with a client
   * configured and a response carrying the venue with both coordinates, is
   * updated once, about the node, with the venue's type, reference, name and
   * coordinates.
   */
  lemma EnrichReferencedNode(nodes: map<string, Record>, nodeUri: string, client: Client, api: VenueApi,
                             id: string, name: string, lat: string, lng: string, address: Option<string>)
    requires nodeUri in nodes && Values(nodes[nodeUri], SeeAlso) == [VenueUri(id)]
    requires id != "" && NoDelims(id)
    requires api(client, id) == Some(Venue(id, name, Some(Location(Some(lat), Some(lng), address))))
    ensures var e := Lookup(Some(client), nodes, nodeUri, None, api);
      e.result == Ok(Updated) && e.fetched == [id] && |e.updated| == 1
      && e.updated[0].about == Some(nodeUri) && e.updated[0].types == [SpatialThing]
      && Values(e.updated[0], SeeAlso) == [VenueUri(id)] && Values(e.updated[0], SchemaName) == [name]
      && Values(e.updated[0], Lat) == [lat] && Values(e.updated[0], Long) == [lng]
  {
    VenueUriRoundTrip(id);
    ScanFirstVenueWins([VenueUri(id)], 0);
    var details := Venue(id, name, Some(Location(Some(lat), Some(lng), address)));
    assert HasCoordinates(details);
    var u := UpdateFor(details, nodeUri);
    assert Values(u, SeeAlso) == Values(Translated(details, EmptyRecord), SeeAlso);
    assert Values(u, SchemaName) == Values(Translated(details, EmptyRecord), SchemaName);
    assert Values(u, Lat) == Values(Translated(details, EmptyRecord), Lat);
    assert Values(u, Long) == Values(Translated(details, EmptyRecord), Long);
  }
}
