/**
 * The knowledge maintainer: a polling loop that, once started by the first
 * configuration event, repeatedly opens a fresh session, discovers one
 * spatial node with a Foursquare reference but no name, schedules a lookup
 * for it, and reschedules itself: soon when the cycle succeeded, much later
 * when any step failed.
 *
 * The promise chain is modelled by its settled outcome (a `Result`), the
 * scheduler by the log of delays it was asked to wait and the number of
 * cycles still pending, the storage query by its answer and the lookup
 * service by how its promise settles.
 */
module Maintainer {
  import opened Wrappers
  import opened Storage
  import opened Utilities
  import Lookup

  /** `work_to_do_delay` and `no_work_delay`, in whole seconds. */
  const WorkToDoDelay: nat := 1
  const NoWorkDelay: nat := 600

  /** The session dictionary of one cycle; only its `node` entry is ever used. */
  datatype Session = Session(node: Option<string>)

  /** How the promise returned by `schedule_lookup` settles. */
  datatype Settled = Resolved | Rejected(reason: Exception)

  // ---------------------------------------------------------------------
  // The discovery query

  /** The line terminators a regular-expression `.` does not match. */
  predicate IsLineTerminator(c: char)
  {
    c == '\n' || c == '\r' || c == '\U{0085}' || c == '\U{2028}' || c == '\U{2029}'
  }

  const FoursquarePrefix := "foursquare:"

  /** `seealso =~ '^foursquare:.*'`: the whole value is the prefix and then one line. */
  predicate IsFoursquareReference(v: string)
  {
    |FoursquarePrefix| <= |v| && v[..|FoursquarePrefix|] == FoursquarePrefix
    && forall i :: |FoursquarePrefix| <= i < |v| ==> !IsLineTerminator(v[i])
  }

  /**
   * A node the query matches: labelled SpatialThing, with some seeAlso value
   * that is a Foursquare reference, and without a name property.
   */
  predicate IsCandidate(n: Record)
    ensures SchemaName in n.properties ==> !IsCandidate(n)
    ensures SpatialThing !in n.types ==> !IsCandidate(n)
    ensures IsCandidate(n) ==> Values(n, SeeAlso) != []
  {
    SpatialThing in n.types
    && (exists v :: v in Values(n, SeeAlso) && IsFoursquareReference(v))
    && SchemaName !in n.properties
  }

  /** None of the first `i` stored nodes is a candidate. */
  predicate NoCandidateBefore(graph: seq<Record>, i: int)
    requires 0 <= i <= |graph|
  {
    forall j :: 0 <= j < i ==> !IsCandidate(graph[j])
  }

  /** The query's results over the stored nodes: `LIMIT 1` keeps the first match. */
  function DiscoveryQuery(graph: seq<Record>): (r: seq<Record>)
    ensures |r| <= 1
    ensures r == [] <==> forall i :: 0 <= i < |graph| ==> !IsCandidate(graph[i])
    ensures r != [] ==> IsCandidate(r[0])
    ensures r != [] ==> exists i :: 0 <= i < |graph| && graph[i] == r[0] && NoCandidateBefore(graph, i)
  {
    if graph == [] then []
    else if IsCandidate(graph[0]) then [graph[0]]
    else
      var rest := DiscoveryQuery(graph[1..]);
      assert forall j :: 1 <= j < |graph| ==> graph[j] == graph[1..][j - 1];
      rest
  }

  // ---------------------------------------------------------------------
  // One cycle, as a function of what the store and the lookup service do

  /** `_find_work_node` on `session`, given the answer of `execute_cypher`. */
  function Discover(session: Session, store: Result<seq<Record>, Exception>): (r: Result<Session, Exception>)
    ensures store.Err? ==> r == Err(store.error)
    ensures store.Ok? && DiscoveryQuery(store.value) == [] ==> r == Err(Raised("No results to work"))
    ensures r.Ok? <==> store.Ok? && DiscoveryQuery(store.value) != []
    ensures r.Ok? ==> r.value.node == DiscoveryQuery(store.value)[0].about
  {
    if store.Err? then Err(store.error)
    else
      var results := DiscoveryQuery(store.value);
      if results == [] then Err(Raised("No results to work"))
      else Ok(session.(node := results[0].about))
  }

  /** The node `_work_node` hands to `schedule_lookup`: a present, non-empty `session['node']`. */
  function WorkTarget(session: Session): Option<string>
  {
    if Truthy(session.node) then session.node else None
  }

  /** `_work_node` on `session`, given how the lookup settles. */
  function Work(session: Session, lookup: Settled): (r: Result<Session, Exception>)
    ensures WorkTarget(session).None? ==> r == Err(Raised("No node defined"))
    ensures WorkTarget(session).Some? && lookup.Rejected? ==> r == Err(lookup.reason)
    ensures r.Ok? <==> WorkTarget(session).Some? && lookup.Resolved?
    ensures r.Ok? ==> r.value == session
  {
    if WorkTarget(session).None? then Err(Raised("No node defined"))
    else if lookup.Rejected? then Err(lookup.reason)
    else Ok(session)
  }

  /** The settled value of the chain `_start_process` builds. */
  function Cycle(store: Result<seq<Record>, Exception>, lookup: Settled): (r: Result<Session, Exception>)
    ensures store.Err? ==> r == Err(store.error)
    ensures r.Ok? <==>
      store.Ok? && DiscoveryQuery(store.value) != [] && Truthy(DiscoveryQuery(store.value)[0].about) && lookup.Resolved?
    ensures r.Ok? ==> r.value == Session(DiscoveryQuery(store.value)[0].about)
    ensures lookup.Rejected? && CycleLookups(store) != [] ==> r == Err(lookup.reason)
  {
    match Discover(Session(None), store)
    case Err(e) => Err(e)
    case Ok(session) => Work(session, lookup)
  }

  /** The lookups a cycle schedules: at most the discovered node. */
  function CycleLookups(store: Result<seq<Record>, Exception>): (r: seq<string>)
    ensures |r| <= 1
    ensures r != [] <==> store.Ok? && DiscoveryQuery(store.value) != [] && Truthy(DiscoveryQuery(store.value)[0].about)
    ensures r != [] ==> DiscoveryQuery(store.value)[0].about == Some(r[0]) && r[0] != ""
  {
    match Discover(Session(None), store)
    case Err(_) => []
    case Ok(session) => if WorkTarget(session).Some? then [WorkTarget(session).value] else []
  }

  /** The delay the final `then` picks: its success or its failure branch. */
  function DelayAfter(outcome: Result<Session, Exception>): (d: nat)
    ensures d == WorkToDoDelay || d == NoWorkDelay
    ensures d == WorkToDoDelay <==> outcome.Ok?
  {
    if outcome.Ok? then WorkToDoDelay else NoWorkDelay
  }

  predicate IsDelay(d: nat)
  {
    d == WorkToDoDelay || d == NoWorkDelay
  }

  /** The scheduler's view of the maintainer: handler registered, runs pending, delays asked for, cycles run. */
  datatype Timer = Timer(registered: bool, pending: nat, scheduled: seq<nat>, cycles: nat)

  /** What happens to the maintainer: a configuration event, or a pending run that settles with `outcome`. */
  datatype Event = Configured | Ran(outcome: Result<Session, Exception>)

  /** The timer after `plugin_init`. */
  const Initial := Timer(true, 0, [], 0)

  /** One event: the handler reacts once; a run fires only when one is pending and reschedules itself. */
  function Step(t: Timer, e: Event): (r: Timer)
    ensures |t.scheduled| <= |r.scheduled| <= |t.scheduled| + 1 && r.scheduled[..|t.scheduled|] == t.scheduled
    ensures r.registered ==> t.registered
    ensures t.cycles <= r.cycles <= t.cycles + 1 && t.pending <= r.pending
    ensures r.cycles == t.cycles + 1 <==> e.Ran? && t.pending > 0
  {
    match e
    case Configured =>
      if t.registered then Timer(false, t.pending + 1, t.scheduled + [WorkToDoDelay], t.cycles) else t
    case Ran(outcome) =>
      if t.pending == 0 then t else Timer(t.registered, t.pending, t.scheduled + [DelayAfter(outcome)], t.cycles + 1)
  }

  /** The timer after a sequence of events, in order. */
  function Run(t: Timer, events: seq<Event>): (r: Timer)
    ensures |t.scheduled| <= |r.scheduled| && r.scheduled[..|t.scheduled|] == t.scheduled
    ensures r.registered ==> t.registered
    ensures t.cycles <= r.cycles <= t.cycles + |events| && t.pending <= r.pending
    decreases |events|
  {
    if events == [] then t else Run(Step(t, events[0]), events[1..])
  }

  /** The loop is running: the handler is gone, one run is pending, one delay per cycle plus the first. */
  predicate Started(t: Timer)
  {
    !t.registered && t.pending == 1 && |t.scheduled| == t.cycles + 1 && t.scheduled[0] == WorkToDoDelay
    && forall i :: 0 <= i < |t.scheduled| ==> IsDelay(t.scheduled[i])
  }

  class KnowledgeMaintainer {
    /** Whether `_configuration_updated` is still registered for configuration events. */
    var handlerRegistered: bool
    /** Every delay `_start_process` was scheduled with, in order. */
    var scheduled: seq<nat>
    /** Scheduled runs of `_start_process` that have not fired yet. */
    var pending: nat
    /** Runs of `_start_process` so far. */
    var cycles: nat
    /** The session of the current cycle. */
    var session: Session
    /** Every node handed to `schedule_lookup`, in order. */
    var lookups: seq<string>

    /**
     * The loop's invariant: nothing is scheduled before the first event; from
     * then on exactly one run is pending, one run was scheduled per finished
     * cycle plus the first, and every delay is one of the two constants.
     */
    predicate Valid()
      reads this
    {
      (handlerRegistered ==> scheduled == [] && pending == 0 && cycles == 0)
      && (!handlerRegistered ==> pending == 1 && |scheduled| == cycles + 1 && scheduled[0] == WorkToDoDelay)
      && forall i :: 0 <= i < |scheduled| ==> IsDelay(scheduled[i])
    }

    /** The fields the scheduler's view is made of. */
    function TimerState(): Timer
      reads this
    {
      Timer(handlerRegistered, pending, scheduled, cycles)
    }

    /** `plugin_init`: the handler is registered and nothing is scheduled. */
    constructor ()
      ensures Valid() && handlerRegistered && TimerState() == Initial
      ensures scheduled == [] && pending == 0 && cycles == 0 && lookups == []
    {
      handlerRegistered := true;
      scheduled, pending, cycles := [], 0, 0;
      session := Session(None);
      lookups := [];
    }

    /** A configuration event: only the registered handler reacts to it. */
    method OnConfigurationReceived()
      requires Valid()
      modifies this
      ensures !handlerRegistered
      ensures old(handlerRegistered) ==>
        scheduled == old(scheduled) + [WorkToDoDelay] && pending == old(pending) + 1
      ensures !old(handlerRegistered) ==> scheduled == old(scheduled) && pending == old(pending)
      ensures cycles == old(cycles) && session == old(session) && lookups == old(lookups)
      ensures Valid()
      ensures TimerState() == Step(old(TimerState()), Configured)
    {
      if handlerRegistered {
        ConfigurationUpdated();
      }
    }

    /** `_configuration_updated`: schedule the first run soon and stop listening. */
    method ConfigurationUpdated()
      modifies this
      ensures scheduled == old(scheduled) + [WorkToDoDelay] && pending == old(pending) + 1
      ensures !handlerRegistered
      ensures cycles == old(cycles) && session == old(session) && lookups == old(lookups)
    {
      scheduled := scheduled + [WorkToDoDelay];
      pending := pending + 1;
      handlerRegistered := false;
    }

    /**
     * `_start_process`, run by a pending schedule: create the session, find
     * the work node, work it, then reschedule through exactly one of the two
     * branches.
     */
    method StartProcess(store: Result<seq<Record>, Exception>, lookup: Settled)
      returns (outcome: Result<Session, Exception>)
      requires Valid() && !handlerRegistered
      modifies this
      ensures outcome == Cycle(store, lookup)
      ensures scheduled == old(scheduled) + [DelayAfter(outcome)]
      ensures pending == old(pending) && cycles == old(cycles) + 1
      ensures lookups == old(lookups) + CycleLookups(store)
      ensures handlerRegistered == old(handlerRegistered)
      ensures Valid() && pending == 1
      ensures TimerState() == Step(old(TimerState()), Ran(outcome))
      ensures session == (if Discover(Session(None), store).Ok? then Discover(Session(None), store).value else Session(None))
    {
      pending, cycles := pending - 1, cycles + 1;
      CreateSession();
      outcome := FindWorkNode(store);
      if outcome.Ok? {
        outcome := WorkNode(lookup);
      }
      if outcome.Ok? {
        ScheduleWorkToDo();
      } else {
        ScheduleNoWorkTask();
      }
    }

    /** `_create_session`: a fresh, empty session. */
    method CreateSession()
      modifies this
      ensures session == Session(None)
      ensures handlerRegistered == old(handlerRegistered) && scheduled == old(scheduled)
      ensures pending == old(pending) && cycles == old(cycles) && lookups == old(lookups)
    {
      session := Session(None);
    }

    /** `_find_work_node`: run the query and record the first result's node. */
    method FindWorkNode(store: Result<seq<Record>, Exception>) returns (r: Result<Session, Exception>)
      modifies this
      ensures r == Discover(old(session), store)
      ensures r.Ok? ==> session == r.value
      ensures r.Err? ==> session == old(session)
      ensures handlerRegistered == old(handlerRegistered) && scheduled == old(scheduled)
      ensures pending == old(pending) && cycles == old(cycles) && lookups == old(lookups)
    {
      if store.Err? {
        return Err(store.error);
      }
      var results := DiscoveryQuery(store.value);
      if results == [] {
        return Err(Raised("No results to work"));
      }
      session := session.(node := results[0].about);
      r := Ok(session);
    }

    /** `_work_node`: schedule the lookup of the session's node and pass the session on. */
    method WorkNode(lookup: Settled) returns (r: Result<Session, Exception>)
      modifies this
      ensures r == Work(session, lookup)
      ensures lookups == old(lookups) + (if WorkTarget(session).Some? then [WorkTarget(session).value] else [])
      ensures session == old(session)
      ensures handlerRegistered == old(handlerRegistered) && scheduled == old(scheduled)
      ensures pending == old(pending) && cycles == old(cycles)
    {
      var node := session.node;
      if node.None? || node.value == "" {
        return Err(Raised("No node defined"));
      }
      lookups := lookups + [node.value];
      match lookup
      case Rejected(reason) => r := Err(reason);
      case Resolved => r := Ok(session);
    }

    /** `_schedule_work_to_do`: the next run comes soon. */
    method ScheduleWorkToDo()
      modifies this
      ensures scheduled == old(scheduled) + [WorkToDoDelay] && pending == old(pending) + 1
      ensures handlerRegistered == old(handlerRegistered) && cycles == old(cycles)
      ensures session == old(session) && lookups == old(lookups)
    {
      scheduled := scheduled + [WorkToDoDelay];
      pending := pending + 1;
    }

    /** `_schedule_no_work_task`: the next run comes much later. */
    method ScheduleNoWorkTask()
      modifies this
      ensures scheduled == old(scheduled) + [NoWorkDelay] && pending == old(pending) + 1
      ensures handlerRegistered == old(handlerRegistered) && cycles == old(cycles)
      ensures session == old(session) && lookups == old(lookups)
    {
      scheduled := scheduled + [NoWorkDelay];
      pending := pending + 1;
    }
  }

  // ---------------------------------------------------------------------
  // Properties of a cycle

  /**
   * A cycle succeeds, and so reschedules soon, exactly when the store
   * answers, some node is a candidate, the first candidate has a non-empty
   * node URI and its lookup resolves.
   */
  lemma SoonExactlyOnSuccess(store: Result<seq<Record>, Exception>, lookup: Settled)
    ensures DelayAfter(Cycle(store, lookup)) == WorkToDoDelay <==>
      store.Ok? && DiscoveryQuery(store.value) != []
      && Truthy(DiscoveryQuery(store.value)[0].about) && lookup.Resolved?
  {
  }

  /**
   * With no candidate the cycle fails with "No results to work" before any
   * lookup, and the loop waits the long delay.
   */
  lemma NoCandidateWaitsLong(graph: seq<Record>, lookup: Settled)
    requires forall i :: 0 <= i < |graph| ==> !IsCandidate(graph[i])
    ensures Cycle(Ok(graph), lookup) == Err(Raised("No results to work"))
    ensures CycleLookups(Ok(graph)) == []
    ensures DelayAfter(Cycle(Ok(graph), lookup)) == NoWorkDelay
  {
  }

  /**
   * The only lookup a cycle schedules is for the first candidate in store
   * order, and it is scheduled whether or not that lookup then succeeds.
   */
  lemma LookupIsFirstCandidate(graph: seq<Record>, k: nat)
    requires k < |graph| && IsCandidate(graph[k]) && Truthy(graph[k].about)
    requires NoCandidateBefore(graph, k)
    ensures CycleLookups(Ok(graph)) == [graph[k].about.value]
  {
    DiscoveryFindsFirst(graph, k);
  }

  /** The query returns the first candidate of the stored nodes. */
  lemma {:induction false} DiscoveryFindsFirst(graph: seq<Record>, k: nat)
    requires k < |graph| && IsCandidate(graph[k])
    requires NoCandidateBefore(graph, k)
    ensures DiscoveryQuery(graph) == [graph[k]]
  {
    if k > 0 {
      assert !IsCandidate(graph[0]);
      assert graph[1..][k - 1] == graph[k];
      DiscoveryFindsFirst(graph[1..], k - 1);
    }
  }

  /**
   * A node the lookup has enriched carries a name, so the maintainer never
   * discovers it again.
   */
  lemma EnrichedNodeIsNoCandidate(v: Venue, p: Record)
    ensures !IsCandidate(Translated(v, p))
  {
    DistinctKeys();
    assert SchemaName in Translated(v, p).properties;
  }

  /**
   * A spatial node without a name whose seeAlso holds a venue URI of a
   * one-line id is a candidate.
   */
  lemma VenueReferenceIsCandidate(n: Record, id: string)
    requires SpatialThing in n.types && SchemaName !in n.properties
    requires VenueUri(id) in Values(n, SeeAlso)
    requires forall i :: 0 <= i < |id| ==> !IsLineTerminator(id[i])
    ensures IsCandidate(n)
  {
    var v := VenueUri(id);
    assert v[..|FoursquarePrefix|] == FoursquarePrefix;
    forall i | |FoursquarePrefix| <= i < |v|
      ensures !IsLineTerminator(v[i])
    {
      if i >= |"foursquare://venues/"| {
        assert v[i] == id[i - |"foursquare://venues/"|];
      }
    }
    assert IsFoursquareReference(v);
  }

  /** Running events one list after another is running them concatenated. */
  lemma {:induction false} RunAppend(t: Timer, a: seq<Event>, b: seq<Event>)
    ensures Run(t, a + b) == Run(Run(t, a), b)
    decreases |a|
  {
    if a == [] {
      assert a + b == b;
    } else {
      assert (a + b)[0] == a[0];
      assert (a + b)[1..] == a[1..] + b;
      RunAppend(Step(t, a[0]), a[1..], b);
    }
  }

  /** Before the first configuration event nothing is scheduled and no run fires. */
  lemma {:induction false} NothingBeforeConfiguration(events: seq<Event>)
    requires forall i :: 0 <= i < |events| ==> events[i].Ran?
    ensures Run(Initial, events) == Initial
  {
    if events != [] {
      assert events[0].Ran?;
      NothingBeforeConfiguration(events[1..]);
    }
  }

  /** A running loop stays running whatever events follow. */
  lemma {:induction false} StartedStaysStarted(t: Timer, events: seq<Event>)
    requires Started(t)
    ensures Started(Run(t, events))
    decreases |events|
  {
    if events != [] {
      var u := Step(t, events[0]);
      assert u.scheduled[0] == t.scheduled[0];
      StartedStaysStarted(u, events[1..]);
    }
  }

  /**
   * Once started the loop never stops: after the first configuration event,
   * whatever events follow, exactly one run is pending and one run was
   * scheduled per cycle plus the first, with the short delay first.
   */
  lemma AlwaysOnePending(before: seq<Event>, after: seq<Event>)
    requires forall i :: 0 <= i < |before| ==> before[i].Ran?
    ensures Started(Run(Initial, before + [Configured] + after))
  {
    NothingBeforeConfiguration(before);
    RunAppend(Initial, before, [Configured] + after);
    assert before + [Configured] + after == before + ([Configured] + after);
    assert Started(Step(Initial, Configured));
    StartedStaysStarted(Step(Initial, Configured), after);
  }

  /**
   * The discovery test is looser than the resolver: a node whose only
   * reference is the bare `foursquare:` is a candidate, yet its lookup
   * finds no venue and sends no update, so the node stays a candidate.
   */
  lemma BareReferenceStaysCandidate(n: Record, nodeUri: string, client: Option<Lookup.Client>, api: Lookup.VenueApi)
    requires SpatialThing in n.types && SchemaName !in n.properties
    requires Values(n, SeeAlso) == [FoursquarePrefix]
    ensures IsCandidate(n)
    ensures Lookup.Lookup(client, map[nodeUri := n], nodeUri, None, api) == Lookup.Effect(Ok(Lookup.NoVenue), [], [])
  {
    assert IsFoursquareReference(FoursquarePrefix);
    assert FoursquarePrefix in Values(n, SeeAlso);
    VenueWords();
    assert FoursquarePrefix == "foursquare" + ":" + "";
    SchemeSplit("foursquare", "");
    assert UrlParse(FoursquarePrefix) == Ok(Url("foursquare", "", "", "", ""));
    assert GetFoursquareVenueFromUrl(FoursquarePrefix) == Ok(None);
    assert ParseAll(GetFoursquareVenueFromUrl, [FoursquarePrefix]) == [Ok(None)];
    assert ScanSeeAlso(Values(n, SeeAlso)) == Ok(None);
  }
}
