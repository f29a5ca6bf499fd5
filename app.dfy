/** The application state coordinator: the single store behind the search, history,
    saved-leads and detail views. Every server round trip is a parameter: a reply that
    either threw or delivered a parsed body, or, where the request matters, an arrow
    from the request to its reply. */
module App {
  import opened Js
  import opened Api
  import DetailSidebar

  datatype View = SearchView | HistoryView | LeadsView

  // ------------------------------------------------------------ history entries

  /** `item.f || item.params?.f`: entries of the older shape keep their fields under
      `params`, and a truthy top-level field wins. */
  function EntryField(item: Record, f: string): Val {
    Or(Field(item, f), Member(Field(item, "params"), f))
  }

  /** The location a replay sends: the stored location, else city and state joined
      with `", "` and trimmed. An absent city or state is rendered as `undefined`. */
  function ReplayLocation(item: Record): (v: Val)
    ensures Truthy(EntryField(item, "location")) ==> v == EntryField(item, "location")
    ensures !Truthy(EntryField(item, "location")) ==>
              v == Str(Trim(ToStr(EntryField(item, "city")) + ", " + ToStr(EntryField(item, "state"))))
  {
    Or(EntryField(item, "location"),
       Str(Trim(ToStr(EntryField(item, "city")) + ", " + ToStr(EntryField(item, "state")))))
  }

  /** The search parameters a click on a history entry re-submits. */
  function ReplayParams(item: Record): (p: SearchParams)
    ensures Truthy(Field(item, "keyword")) ==> p.keyword == Field(item, "keyword")
    ensures !Truthy(Field(item, "keyword")) ==> p.keyword == Member(Field(item, "params"), "keyword")
    ensures p.location == ReplayLocation(item)
    ensures Truthy(p.platform) && Truthy(p.maxResults)
    ensures Truthy(Field(item, "platform")) ==> p.platform == Field(item, "platform")
    ensures !Truthy(Field(item, "platform")) && Truthy(Member(Field(item, "params"), "platform")) ==>
              p.platform == Member(Field(item, "params"), "platform")
    ensures !Truthy(EntryField(item, "platform")) ==> p.platform == Str("linkedin")
    ensures Truthy(Field(item, "max_results")) ==> p.maxResults == Field(item, "max_results")
    ensures !Truthy(Field(item, "max_results")) && Truthy(Member(Field(item, "params"), "max_results")) ==>
              p.maxResults == Member(Field(item, "params"), "max_results")
    ensures !Truthy(EntryField(item, "max_results")) ==> p.maxResults == Num(20)
  {
    SearchParams(
      EntryField(item, "keyword"),
      ReplayLocation(item),
      Or(EntryField(item, "platform"), Str("linkedin")),
      Or(EntryField(item, "max_results"), Num(20)))
  }

  /** With no location, city or state at either level, the replayed location is the
      literal text `"undefined, undefined"`. */
  lemma ReplayWithoutPlace(item: Record)
    requires !Truthy(EntryField(item, "location"))
    requires EntryField(item, "city") == Undefined && EntryField(item, "state") == Undefined
    ensures ReplayParams(item).location == Str("undefined, undefined")
  {
    var joined := ToStr(EntryField(item, "city")) + ", " + ToStr(EntryField(item, "state"));
    assert joined == "undefined, undefined";
    TrimIdentity(joined);
    assert ReplayLocation(item) == Str(joined);
  }

  /** A city without a state at either level replays as `"city, undefined"`. */
  lemma ReplayMissingState(item: Record, city: string)
    requires !Truthy(EntryField(item, "location"))
    requires EntryField(item, "city") == Str(city) && EntryField(item, "state") == Undefined
    requires city != [] && !IsSpace(city[0])
    ensures ReplayParams(item).location == Str(city + ", undefined")
  {
    var joined := city + ", undefined";
    assert ToStr(EntryField(item, "city")) + ", " + ToStr(EntryField(item, "state")) == joined;
    assert joined[0] == city[0] && joined[|joined| - 1] == 'd';
    TrimIdentity(joined);
  }

  /** A city and a state without surrounding white space are joined as `"city, state"`. */
  lemma ReplayJoinsCityAndState(item: Record, city: string, state: string)
    requires !Truthy(EntryField(item, "location"))
    requires EntryField(item, "city") == Str(city) && EntryField(item, "state") == Str(state)
    requires city != [] && !IsSpace(city[0])
    requires state != [] && !IsSpace(state[|state| - 1])
    ensures ReplayParams(item).location == Str(city + ", " + state)
  {
    var joined := city + ", " + state;
    assert joined[0] == city[0] && joined[|joined| - 1] == state[|state| - 1];
    TrimIdentity(joined);
  }

  /** An entry of the older shape, with its fields under `params` and no count, replays
      with its own keyword, place and platform and the default count of 20. */
  lemma ReplayNestedEntry(params: Record, keyword: string, city: string, state: string, platform: string)
    requires Field(params, "keyword") == Str(keyword)
    requires !Truthy(Field(params, "location")) && !Truthy(Field(params, "max_results"))
    requires Field(params, "city") == Str(city) && Field(params, "state") == Str(state)
    requires city != [] && !IsSpace(city[0]) && state != [] && !IsSpace(state[|state| - 1])
    requires Field(params, "platform") == Str(platform) && platform != ""
    ensures ReplayParams(map["params" := Obj(params)])
         == SearchParams(Str(keyword), Str(city + ", " + state), Str(platform), Num(20))
  {
    var item := map["params" := Obj(params)];
    assert "keyword"[0] == 'k' && "location"[0] == 'l' && "city"[0] == 'c' && "state"[0] == 's';
    assert "max_results"[0] == 'm' && "platform"[1] == 'l' && "params"[1] == 'a';
    assert Field(item, "keyword") == Undefined && Field(item, "location") == Undefined;
    assert Field(item, "city") == Undefined && Field(item, "state") == Undefined;
    assert Field(item, "platform") == Undefined && Field(item, "max_results") == Undefined;
    ReplayJoinsCityAndState(item, city, state);
  }

  /** `.replace(/^, |, $/g, '')`: drops a leading `", "` and a trailing `", "`; the two
      matches cannot overlap, so `", "` alone loses only its leading match. */
  function StripSeparators(s: string): string {
    var from := if StartsWith(s, ", ") then 2 else 0;
    var to := if |s| >= from + 2 && EndsWith(s, ", ") then |s| - 2 else |s|;
    s[from..to]
  }

  /** City and state as the history list shows them. */
  function JoinPlace(city: string, state: string): string {
    StripSeparators(city + ", " + state)
  }

  /** The history label joins city and state and leaves no stray separator when either
      is empty. */
  lemma {:induction false} JoinPlaceCases(city: string, state: string)
    requires !StartsWith(city, ", ") && !EndsWith(state, ", ")
    ensures JoinPlace(city, state)
         == if city == "" then state else if state == "" then city else city + ", " + state
  {
    var s := city + ", " + state;
    if city == "" {
      assert StartsWith(s, ", ");
      if |s| >= 4 {
        assert s[|s| - 2..] == state[|state| - 2..];
      }
      assert s[2..] == state;
    } else {
      assert s[..2] != ", " by {
        if |city| >= 2 { assert s[..2] == city[..2]; } else { assert s[1] == ','; }
      }
      if state == "" {
        assert EndsWith(s, ", ");
        assert s[..|s| - 2] == city;
      } else {
        assert s[|s| - 2..] != ", " by {
          if |state| >= 2 { assert s[|s| - 2..] == state[|state| - 2..]; }
          else { assert s[|s| - 2] == ' '; }
        }
      }
    }
  }

  /** The location in the history list: the stored location, else the joined city
      and state, each defaulting to the empty string. */
  function LabelLocation(item: Record): Val {
    Or(EntryField(item, "location"),
       Str(JoinPlace(ToStr(Or(EntryField(item, "city"), Str(""))),
                     ToStr(Or(EntryField(item, "state"), Str(""))))))
  }

  /** Where replay sends `"undefined, undefined"`, the history list shows nothing. */
  lemma LabelWithoutPlace(item: Record)
    requires !Truthy(EntryField(item, "location"))
    requires !Truthy(EntryField(item, "city")) && !Truthy(EntryField(item, "state"))
    ensures LabelLocation(item) == Str("")
  {
    JoinPlaceCases("", "");
  }

  /** `"Berlin"` and `"DE"` show as `"Berlin, DE"`, `"Berlin"` alone as `"Berlin"`. */
  lemma LabelExamples()
    ensures JoinPlace("Berlin", "DE") == "Berlin, DE"
    ensures JoinPlace("Berlin", "") == "Berlin"
    ensures JoinPlace("", "DE") == "DE"
  {
    assert !StartsWith("Berlin", ", ") by { assert "Berlin"[0] != ','; }
    assert !EndsWith("DE", ", ") by { assert "DE"[0] != ','; }
    JoinPlaceCases("Berlin", "DE");
    assert "Berlin" + ", " + "DE" == "Berlin, DE";
    JoinPlaceCases("Berlin", "");
    JoinPlaceCases("", "DE");
  }

  /** One line of the history list. */
  datatype HistoryLabel = HistoryLabel(keyword: Val, location: Val, resultCount: Val, platform: Val, date: string)

  /** The history line of an entry. `localeDate(t)` stands for
      `new Date(t).toLocaleDateString()`, which depends on the browser's locale and time
      zone; the date is read from the top-level `timestamp` only, with no `params`
      fallback. */
  function LabelFor(item: Record, localeDate: Val -> string): (l: HistoryLabel)
    ensures l.keyword == EntryField(item, "keyword")
    ensures l.location == LabelLocation(item)
    ensures Truthy(EntryField(item, "result_count")) ==> l.resultCount == EntryField(item, "result_count")
    ensures !Truthy(EntryField(item, "result_count")) ==> l.resultCount == Num(0)
    ensures Truthy(EntryField(item, "platform")) ==> l.platform == EntryField(item, "platform")
    ensures !Truthy(EntryField(item, "platform")) ==> l.platform == Str("linkedin")
    ensures Truthy(l.platform)
    ensures l.date == localeDate(Field(item, "timestamp"))
  {
    HistoryLabel(
      EntryField(item, "keyword"),
      LabelLocation(item),
      Or(EntryField(item, "result_count"), Num(0)),
      Or(EntryField(item, "platform"), Str("linkedin")),
      localeDate(Field(item, "timestamp")))
  }

  // ------------------------------------------------------------ saved leads

  /** `leads.some(lead => lead.id === id)`. */
  function SomeHasId(leads: seq<Record>, id: Val): (r: bool)
    ensures r <==> exists i :: 0 <= i < |leads| && Field(leads[i], "id") == id
  {
    if leads == [] then false
    else
      var rest := SomeHasId(leads[1..], id);
      assert forall i :: 1 <= i < |leads| ==> leads[i] == leads[1..][i - 1];
      Field(leads[0], "id") == id || rest
  }

  // ------------------------------------------------------------ server replies

  /** The list `loadHistory`/`loadSavedLeads` leave behind. */
  function Reloaded(previous: seq<Record>, reply: Reply<ListBody>): (r: seq<Record>)
    ensures reply.Threw? ==> r == previous
    ensures reply == Ok(None) ==> r == []
    ensures reply.Ok? && reply.body.Some? ==> r == reply.body.value
  {
    match reply
    case Threw(_) => previous
    case Ok(list) => list.GetOr([])
  }

  predicate SearchOk(reply: Reply<ScrapeBody>) {
    reply.Ok? && Succeeded(reply.body.status)
  }

  predicate StatusOk(reply: Reply<StatusBody>) {
    reply.Ok? && Succeeded(reply.body.status)
  }

  /** The alert a search or replay raises: none on success, the server's `detail` (or
      `'Unknown error'`) on an application failure, the exception message otherwise. */
  function SearchAlert(reply: Reply<ScrapeBody>, thrownPrefix: string): (a: Option<string>)
    ensures a.None? <==> SearchOk(reply)
    ensures reply.Threw? ==> a == Some(thrownPrefix + reply.message)
    ensures reply.Ok? && !Succeeded(reply.body.status) ==>
              a == Some("Search failed: " + ToStr(Or(reply.body.detail, Str("Unknown error"))))
  {
    match reply
    case Threw(message) => Some(thrownPrefix + message)
    case Ok(data) =>
      if Succeeded(data.status) then None
      else Some("Search failed: " + ToStr(Or(data.detail, Str("Unknown error"))))
  }

  class AppState {
    var results: seq<Record>
    var selectedLead: Option<Record>
    var history: seq<Record>
    var savedLeads: seq<Record>
    var loading: bool
    var view: View

    constructor ()
      ensures results == [] && selectedLead == None && history == [] && savedLeads == []
      ensures !loading && view == SearchView
    {
      results := [];
      selectedLead := None;
      history := [];
      savedLeads := [];
      loading := false;
      view := SearchView;
    }

    /** `isLeadSaved(leadId)`: recomputed from `savedLeads` on every call. */
    function IsLeadSaved(leadId: Val): (r: bool)
      reads this
      ensures r <==> exists i :: 0 <= i < |savedLeads| && Field(savedLeads[i], "id") == leadId
    {
      SomeHasId(savedLeads, leadId)
    }

    /** The detail panel: present iff a lead is selected, its save button disabled iff
        that lead's id is among the saved leads. */
    function DetailPanel(): (p: Option<DetailSidebar.Panel>)
      reads this
      ensures p.Some? <==> selectedLead.Some?
      ensures p.Some? ==> (p.value.save.disabled <==> IsLeadSaved(Field(selectedLead.value, "id")))
    {
      if selectedLead.None? then None
      else
        var lead := selectedLead.value;
        Some(DetailSidebar.Render(lead, IsLeadSaved(Field(lead, "id"))))
    }

    method LoadHistory(reply: Reply<ListBody>)
      modifies this`history
      ensures history == Reloaded(old(history), reply)
    {
      match reply {
        case Threw(_) =>
        case Ok(list) => history := list.GetOr([]);
      }
    }

    method LoadSavedLeads(reply: Reply<ListBody>)
      modifies this`savedLeads
      ensures savedLeads == Reloaded(old(savedLeads), reply)
    {
      match reply {
        case Threw(_) =>
        case Ok(list) => savedLeads := list.GetOr([]);
      }
    }

    /** The initial loads on mount; each failure is isolated from the other. */
    method Mount(historyReply: Reply<ListBody>, leadsReply: Reply<ListBody>)
      modifies this`history, this`savedLeads
      ensures history == Reloaded(old(history), historyReply)
      ensures savedLeads == Reloaded(old(savedLeads), leadsReply)
    {
      LoadHistory(historyReply);
      LoadSavedLeads(leadsReply);
    }

    /** `setLoading(true)`, the first statement of a search or replay. */
    method BeginLoading()
      modifies this`loading
      ensures loading
    {
      loading := true;
    }

    /** The part of a search or replay after the request: the `try` body on the reply,
        then `finally { setLoading(false) }`. */
    method SettleSearch(reply: Reply<ScrapeBody>, historyReply: Reply<ListBody>, thrownPrefix: string)
      returns (alert: Option<string>)
      modifies this`results, this`view, this`history, this`loading
      ensures !loading
      ensures alert == SearchAlert(reply, thrownPrefix)
      ensures SearchOk(reply) ==>
                results == reply.body.results.GetOr([]) && view == SearchView &&
                history == Reloaded(old(history), historyReply)
      ensures !SearchOk(reply) ==> results == old(results) && view == old(view) && history == old(history)
    {
      match reply {
        case Threw(message) =>
          alert := Some(thrownPrefix + message);
        case Ok(data) =>
          if Succeeded(data.status) {
            results := data.results.GetOr([]);
            view := SearchView;
            LoadHistory(historyReply);
            alert := None;
          } else {
            alert := Some("Search failed: " + ToStr(Or(data.detail, Str("Unknown error"))));
          }
      }
      loading := false;
    }

    /** `handleSearch(searchParams)`; `scrape` gives the server's reply to each request. */
    method HandleSearch(params: SearchParams, scrape: SearchParams -> Reply<ScrapeBody>,
                        historyReply: Reply<ListBody>)
      returns (alert: Option<string>)
      modifies this`results, this`view, this`history, this`loading
      ensures !loading
      ensures alert == SearchAlert(scrape(params), "Search failed: ")
      ensures SearchOk(scrape(params)) ==>
                results == scrape(params).body.results.GetOr([]) && view == SearchView &&
                history == Reloaded(old(history), historyReply)
      ensures !SearchOk(scrape(params)) ==>
                results == old(results) && view == old(view) && history == old(history)
      ensures selectedLead == old(selectedLead) && savedLeads == old(savedLeads)
    {
      BeginLoading();
      alert := SettleSearch(scrape(params), historyReply, "Search failed: ");
    }

    /** `handleHistoryClick(item)`: rebuilds the parameters from the entry and runs the
        same search. */
    method HandleHistoryClick(item: Record, scrape: SearchParams -> Reply<ScrapeBody>,
                              historyReply: Reply<ListBody>)
      returns (sent: SearchParams, alert: Option<string>)
      modifies this`results, this`view, this`history, this`loading
      ensures sent == ReplayParams(item)
      ensures !loading
      ensures alert == SearchAlert(scrape(sent), "Failed to re-run search: ")
      ensures SearchOk(scrape(sent)) ==>
                results == scrape(sent).body.results.GetOr([]) && view == SearchView &&
                history == Reloaded(old(history), historyReply)
      ensures !SearchOk(scrape(sent)) ==>
                results == old(results) && view == old(view) && history == old(history)
      ensures selectedLead == old(selectedLead) && savedLeads == old(savedLeads)
    {
      BeginLoading();
      sent := ReplayParams(item);
      alert := SettleSearch(scrape(sent), historyReply, "Failed to re-run search: ");
    }

    method SelectLead(lead: Record)
      modifies this`selectedLead
      ensures selectedLead == Some(lead)
    {
      selectedLead := Some(lead);
    }

    /** The detail panel's close button. */
    method CloseDetail()
      modifies this`selectedLead
      ensures selectedLead == None
    {
      selectedLead := None;
    }

    /** The navigation's `setView`: no data is fetched again. */
    method SetView(v: View)
      modifies this`view
      ensures view == v
    {
      view := v;
    }

    /** `handleSaveLead(lead)`: on success the saved leads are fetched again; the
        search state is never touched. */
    method HandleSaveLead(lead: Record, save: Record -> Reply<StatusBody>, leadsReply: Reply<ListBody>)
      returns (alert: string)
      modifies this`savedLeads
      ensures StatusOk(save(lead)) ==>
                savedLeads == Reloaded(old(savedLeads), leadsReply) && alert == "Lead saved successfully!"
      ensures !StatusOk(save(lead)) ==> savedLeads == old(savedLeads)
      ensures save(lead).Ok? && !StatusOk(save(lead)) ==> alert == "Failed to save lead"
      ensures save(lead).Threw? ==> alert == "Failed to save lead: " + save(lead).message
      ensures loading == old(loading) && results == old(results) && view == old(view)
      ensures selectedLead == old(selectedLead) && history == old(history)
    {
      match save(lead) {
        case Threw(message) =>
          alert := "Failed to save lead: " + message;
        case Ok(data) =>
          if Succeeded(data.status) {
            LoadSavedLeads(leadsReply);
            alert := "Lead saved successfully!";
          } else {
            alert := "Failed to save lead";
          }
      }
    }

    /** `handleDeleteLead(leadId)`: on success the saved leads are fetched again and a
        selection of that very id is cleared. */
    method HandleDeleteLead(leadId: Val, remove: Val -> Reply<StatusBody>, leadsReply: Reply<ListBody>)
      returns (alert: Option<string>)
      modifies this`savedLeads, this`selectedLead
      ensures alert.None? <==> StatusOk(remove(leadId))
      ensures remove(leadId).Ok? && !StatusOk(remove(leadId)) ==> alert == Some("Failed to delete lead")
      ensures remove(leadId).Threw? ==> alert == Some("Failed to delete lead: " + remove(leadId).message)
      ensures StatusOk(remove(leadId)) ==> savedLeads == Reloaded(old(savedLeads), leadsReply)
      ensures StatusOk(remove(leadId)) && old(selectedLead).Some? &&
              Field(old(selectedLead).value, "id") == leadId ==>
                selectedLead == None
      ensures StatusOk(remove(leadId)) &&
              (old(selectedLead).None? || Field(old(selectedLead).value, "id") != leadId) ==>
                selectedLead == old(selectedLead)
      ensures !StatusOk(remove(leadId)) ==> savedLeads == old(savedLeads) && selectedLead == old(selectedLead)
      ensures loading == old(loading) && results == old(results) && view == old(view)
      ensures history == old(history)
    {
      match remove(leadId) {
        case Threw(message) =>
          alert := Some("Failed to delete lead: " + message);
        case Ok(data) =>
          if Succeeded(data.status) {
            LoadSavedLeads(leadsReply);
            if selectedLead.Some? && Field(selectedLead.value, "id") == leadId {
              selectedLead := None;
            }
            alert := None;
          } else {
            alert := Some("Failed to delete lead");
          }
      }
    }
  }
}
