/**
 * The venue search command: a three-step ad-hoc session.  The first step
 * asks for a city and a query, the second searches the venue service and
 * offers one option per result, the third answers with the chosen venue's
 * id and name.
 *
 * Forms are plain records of fields, options and items; the venue search
 * service is a function from (near, query) to its results.
 */
module SearchVenues {
  import opened Wrappers
  import opened Utilities

  /** The step the session runs next. */
  datatype Step = PerformSearch | SelectItem

  /** One choice of a list field: its value and its label. */
  datatype FormOption = FormOption(value: string, caption: string)

  /** A form field: its variable, label (`caption`), field type, description and options. */
  datatype Field = Field(name: string, caption: string, kind: string, description: Option<string>, options: seq<FormOption>)

  /** A data form: its form type, fields, reported columns and result items. */
  datatype Form = Form(kind: string, fields: seq<Field>, reported: seq<string>, items: seq<map<string, string>>)

  /** The form `command_start` sends. */
  const StartForm := Form("form", [
    Field("near", "Near", "text-single", Some("Search City"), []),
    Field("query", "Query", "text-single", Some("Query String"), [])], [], [])

  /** The form `perform_search` sends: one list field of the options. */
  function SearchForm(options: seq<FormOption>): Form
  {
    Form("form", [Field("location", "Select Location", "list-single", None, options)], [], [])
  }

  /** The form `select_item` sends: one item with the chosen id and name. */
  function ResultForm(id: string, name: string): Form
  {
    Form("result", [], ["value", "label"], [map["value" := id, "label" := name]])
  }

  /** The label of a result's option: the name, followed by the address in parentheses when there is one. */
  function OptionLabel(v: Venue): (caption: string)
    ensures |v.name| <= |caption| && caption[..|v.name|] == v.name
    ensures caption == v.name <==> v.location.None? || v.location.value.address.None?
    ensures v.location.Some? && v.location.value.address.Some? ==>
      caption[|v.name|..] == " (" + v.location.value.address.value + ")"
  {
    if v.location.Some? && v.location.value.address.Some? then
      var caption := v.name + " (" + v.location.value.address.value + ")";
      assert |caption| > |v.name|;
      caption
    else v.name
  }

  /** The options of a result list, built by appending one per result. */
  function Options(results: seq<Venue>): (r: seq<FormOption>)
    ensures |r| == |results|
    ensures forall i :: 0 <= i < |results| ==> r[i].value == results[i].id && r[i].caption == OptionLabel(results[i])
  {
    if results == [] then []
    else
      var front := results[..|results| - 1];
      var rest := Options(front);
      assert forall i :: 0 <= i < |front| ==> results[i] == front[i];
      rest + [FormOption(results[|results| - 1].id, OptionLabel(results[|results| - 1]))]
  }

  /** No later result has the same id as result `i`. */
  predicate LastWithId(results: seq<Venue>, i: int)
    requires 0 <= i < |results|
  {
    forall j :: i < j < |results| ==> results[j].id != results[i].id
  }

  /** The table `session['venues']` ends as: every result stored under its id, in result order. */
  function VenueTable(results: seq<Venue>): (table: map<string, Venue>)
    ensures forall i :: 0 <= i < |results| ==> results[i].id in table
  {
    if results == [] then map[]
    else
      var front := results[..|results| - 1];
      var last := results[|results| - 1];
      assert forall i :: 0 <= i < |front| ==> results[i] == front[i];
      VenueTable(front)[last.id := last]
  }

  /** The table holds a result under its id unless a later result has the same id. */
  lemma {:induction false} VenueTableLastWins(results: seq<Venue>, i: nat)
    requires i < |results| && LastWithId(results, i)
    ensures VenueTable(results)[results[i].id] == results[i]
  {
    var front := results[..|results| - 1];
    if i < |front| {
      assert front[i] == results[i];
      assert LastWithId(front, i) by {
        forall j | i < j < |front|
          ensures front[j].id != front[i].id
        {
          assert front[j] == results[j];
        }
      }
      VenueTableLastWins(front, i);
    }
  }

  /** Everything in the table is some result, stored under that result's id. */
  lemma {:induction false} VenueTableOnlyResults(results: seq<Venue>, id: string)
    requires id in VenueTable(results)
    ensures exists i :: 0 <= i < |results| && results[i].id == id && VenueTable(results)[id] == results[i]
  {
    var front := results[..|results| - 1];
    var last := results[|results| - 1];
    if id != last.id {
      VenueTableOnlyResults(front, id);
      var i :| 0 <= i < |front| && front[i].id == id && VenueTable(front)[id] == front[i];
      assert results[i] == front[i];
    }
  }

  /** `select_item`'s answer for a submission, given the session's table (None before any search). */
  function Selected(submitted: map<string, string>, venues: Option<map<string, Venue>>): (r: Result<Form, Exception>)
    ensures "location" !in submitted ==> r == Err(KeyError("location"))
    ensures r.Ok? <==> "location" in submitted && venues.Some? && submitted["location"] in venues.value
    ensures r.Ok? ==> r.value == ResultForm(submitted["location"], venues.value[submitted["location"]].name)
  {
    if "location" !in submitted then Err(KeyError("location"))
    else if venues.None? then Err(KeyError("venues"))
    else
      var id := submitted["location"];
      if id !in venues.value then Err(KeyError(id))
      else Ok(ResultForm(id, venues.value[id].name))
  }

  /** The session dictionary of one command run. */
  class CommandSession {
    var payload: Option<Form>
    var next: Option<Step>
    var hasNext: bool
    /** `session['venues']`: absent until a search has run. */
    var venues: Option<map<string, Venue>>

    constructor ()
      ensures payload == None && next == None && !hasNext && venues == None
    {
      payload, next, hasNext, venues := None, None, false, None;
    }
  }

  /** `command_start`: ask for the city and the query; the search comes next. */
  method CommandStart(session: CommandSession) returns (r: CommandSession)
    modifies session
    ensures r == session
    ensures session.payload == Some(StartForm) && session.next == Some(PerformSearch) && session.hasNext
    ensures session.venues == old(session.venues)
  {
    session.payload := Some(StartForm);
    session.next := Some(PerformSearch);
    session.hasNext := true;
    r := session;
  }

  /**
   * `perform_search`: read `near` and `query` from the submitted form, search,
   * fill the venue table and offer one option per result.
   */
  method PerformSearchStep(submitted: map<string, string>, session: CommandSession,
                           search: (string, string) -> seq<Venue>)
    returns (r: Result<CommandSession, Exception>)
    modifies session
    ensures "near" !in submitted ==> r == Err(KeyError("near"))
    ensures "near" in submitted && "query" !in submitted ==> r == Err(KeyError("query"))
    ensures r.Err? ==> unchanged(session)
    ensures "near" in submitted && "query" in submitted ==>
      var results := search(submitted["near"], submitted["query"]);
      r == Ok(session)
      && session.venues == Some(VenueTable(results))
      && session.payload == Some(SearchForm(Options(results)))
      && session.next == Some(SelectItem) && !session.hasNext
  {
    if "near" !in submitted {
      return Err(KeyError("near"));
    }
    if "query" !in submitted {
      return Err(KeyError("query"));
    }
    var results := search(submitted["near"], submitted["query"]);
    session.venues := Some(map[]);
    var options: seq<FormOption> := [];
    var i := 0;
    while i < |results|
      invariant 0 <= i <= |results|
      invariant session.venues == Some(VenueTable(results[..i]))
      invariant options == Options(results[..i])
    {
      var result := results[i];
      assert results[..i + 1][..i] == results[..i];
      session.venues := Some(session.venues.value[result.id := result]);
      var name := OptionLabel(result);
      options := options + [FormOption(result.id, name)];
      i := i + 1;
    }
    assert results[..i] == results;
    session.payload := Some(SearchForm(options));
    session.next := Some(SelectItem);
    session.hasNext := false;
    r := Ok(session);
  }

  /** `select_item`: answer with the chosen id and its plain name; the command ends. */
  method SelectItemStep(submitted: map<string, string>, session: CommandSession)
    returns (r: Result<CommandSession, Exception>)
    modifies session
    ensures var answer := Selected(submitted, old(session.venues));
      if answer.Ok? then
        r == Ok(session) && session.payload == Some(answer.value)
        && session.next == None && !session.hasNext && session.venues == old(session.venues)
      else r == Err(answer.error) && unchanged(session)
  {
    if "location" !in submitted {
      return Err(KeyError("location"));
    }
    var id := submitted["location"];
    if session.venues.None? {
      return Err(KeyError("venues"));
    }
    if id !in session.venues.value {
      return Err(KeyError(id));
    }
    var form := ResultForm(id, session.venues.value[id].name);
    session.hasNext := false;
    session.payload := Some(form);
    session.next := None;
    r := Ok(session);
  }

  // ---------------------------------------------------------------------
  // Properties of the command flow

  /** The option for a result holds its id; its label is the plain name exactly when no address is known. */
  lemma OptionsFollowResults(results: seq<Venue>, i: nat)
    requires i < |results|
    ensures Options(results)[i].value == results[i].id
    ensures Options(results)[i].caption == results[i].name <==>
      results[i].location.None? || results[i].location.value.address.None?
  {
  }

  /** Options of a concatenation are the options of its parts, so result order is kept. */
  lemma {:induction false} OptionsAppend(a: seq<Venue>, b: seq<Venue>)
    ensures Options(a + b) == Options(a) + Options(b)
  {
    if b == [] {
      assert a + b == a;
    } else {
      var front := b[..|b| - 1];
      assert (a + b)[..|a + b| - 1] == a + front;
      assert (a + b)[|a + b| - 1] == b[|b| - 1];
      OptionsAppend(a, front);
    }
  }

  /**
   * Choosing an offered option after a search answers with that result's id
   * and plain name, without the address the option label showed, as long as
   * no later result has the same id.
   */
  lemma SelectAfterSearch(results: seq<Venue>, k: nat)
    requires k < |results| && LastWithId(results, k)
    ensures var submitted := map["location" := Options(results)[k].value];
      Selected(submitted, Some(VenueTable(results))) == Ok(ResultForm(results[k].id, results[k].name))
  {
    VenueTableLastWins(results, k);
  }

  /** Choosing before any search ran, or an id no result had, is a KeyError. */
  lemma SelectUnknownIsKeyError(submitted: map<string, string>, results: seq<Venue>)
    requires "location" in submitted
    requires forall i :: 0 <= i < |results| ==> results[i].id != submitted["location"]
    ensures Selected(submitted, None) == Err(KeyError("venues"))
    ensures Selected(submitted, Some(VenueTable(results))) == Err(KeyError(submitted["location"]))
  {
  }

  /** A later result with the same id replaces the earlier one in the table. */
  lemma LaterDuplicateWins(results: seq<Venue>, v: Venue, w: Venue)
    requires v.id == w.id
    ensures VenueTable(results + [v, w])[v.id] == w
  {
    var all := results + [v, w];
    assert LastWithId(all, |all| - 1);
  }
}
