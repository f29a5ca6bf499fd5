/** Properties that span the client and the backend: what a replayed history entry
    sends, how a saved lead shows up, and how scraped leads are displayed. */
module EndToEnd {
  import opened Js
  import opened Api
  import App
  import Database
  import Scraper
  import DetailSidebar
  import ResultsTable

  /** The JSON body of `POST /scrape` for a set of search parameters. */
  function RequestBody(p: SearchParams): (body: Record)
    ensures body.Keys == {"keyword", "location", "platform", "max_results"}
    ensures body["keyword"] == p.keyword && body["location"] == p.location
    ensures body["platform"] == p.platform && body["max_results"] == p.maxResults
  {
    map["keyword" := p.keyword, "location" := p.location,
        "platform" := p.platform, "max_results" := p.maxResults]
  }

  /** A history entry holds no search field at its top level. */
  lemma EntryHasNoSearchFields(params: Record, stamp: string, isoTime: string, f: string)
    requires f in {"keyword", "location", "platform", "max_results", "city", "state"}
    ensures Field(Database.HistoryEntry(params, stamp, isoTime), f) == Undefined
    ensures App.EntryField(Database.HistoryEntry(params, stamp, isoTime), f) == Field(params, f)
  {
    var e := Database.HistoryEntry(params, stamp, isoTime);
    assert f[0] in {'k', 'l', 'p', 'm', 'c', 's'};
    assert "id"[0] == 'i' && "timestamp"[0] == 't' && "params"[0] == 'p' && "result_count"[0] == 'r';
    assert f != "params" by {
      if f == "platform" { assert f[1] == 'l' && "params"[1] == 'a'; }
    }
    assert f !in e;
  }

  /** When the server records the request body as the entry's parameters, clicking the
      entry sends the original search again, provided all four fields were truthy. */
  lemma ReplayRepeatsSearch(p: SearchParams, stamp: string, isoTime: string)
    requires Truthy(p.keyword) && Truthy(p.location) && Truthy(p.platform) && Truthy(p.maxResults)
    ensures App.ReplayParams(Database.HistoryEntry(RequestBody(p), stamp, isoTime)) == p
  {
    var e := Database.HistoryEntry(RequestBody(p), stamp, isoTime);
    EntryHasNoSearchFields(RequestBody(p), stamp, isoTime, "keyword");
    EntryHasNoSearchFields(RequestBody(p), stamp, isoTime, "location");
    EntryHasNoSearchFields(RequestBody(p), stamp, isoTime, "platform");
    EntryHasNoSearchFields(RequestBody(p), stamp, isoTime, "max_results");
  }

  /** A search submitted without a location replays with the location
      `"undefined, undefined"`: the empty location is falsy and the entry has no city
      or state. */
  lemma ReplayOfSearchWithoutLocation(p: SearchParams, stamp: string, isoTime: string)
    requires p.location == Str("")
    ensures App.ReplayParams(Database.HistoryEntry(RequestBody(p), stamp, isoTime)).location
         == Str("undefined, undefined")
  {
    var body := RequestBody(p);
    var e := Database.HistoryEntry(body, stamp, isoTime);
    EntryHasNoSearchFields(body, stamp, isoTime, "location");
    EntryHasNoSearchFields(body, stamp, isoTime, "city");
    EntryHasNoSearchFields(body, stamp, isoTime, "state");
    assert "city" !in body by { assert "city"[0] == 'c'; }
    assert "state" !in body by { assert "state"[0] == 's'; }
    App.ReplayWithoutPlace(e);
  }

  /** After a save, the reloaded list marks the lead as saved, whether it was inserted
      or found already there. */
  lemma SavedLeadShowsAsSaved(leads: seq<Record>, lead: Record, savedAt: string)
    requires "id" in lead && lead["id"] != Null
    ensures App.SomeHasId(Database.AddLeadTo(leads, lead, savedAt).leads, lead["id"])
  {
    var a := Database.AddLeadTo(leads, lead, savedAt);
    var id := lead["id"];
    if a.leads == leads {
      var existing := Database.FirstWithId(leads, id);
      var i :| 0 <= i < |leads| && leads[i] == existing.value && Database.HasId(existing.value, id);
      assert Field(leads[i], "id") == id;
    } else {
      assert a.leads[0] == lead["saved_at" := Str(savedAt)];
      assert Field(a.leads[0], "id") == id;
    }
  }

  /** After a delete, the reloaded list no longer marks the lead as saved. */
  lemma DeletedLeadNotSaved(leads: seq<Record>, leadId: string)
    ensures !App.SomeHasId(Database.Without(leads, Str(leadId)), Str(leadId))
  {
    var r := Database.Without(leads, Str(leadId));
    forall i | 0 <= i < |r|
      ensures Field(r[i], "id") != Str(leadId)
    {
      assert !Database.HasId(r[i], Str(leadId));
    }
  }

  /** A LinkedIn lead has its headline as its role and no followers: the detail panel
      shows neither the headline nor the popularity block, and the table shows `-`. */
  lemma LinkedInLeadDisplay(item: Scraper.ProfileItem, keyword: string, location: string, id: string)
    ensures var lead := Scraper.ProfileLead(item, keyword, location, id);
            DetailSidebar.HeadlineBlock(lead).Hidden? &&
            DetailSidebar.PopularityBlock(lead).Hidden? &&
            ResultsTable.RowFor(lead, false).followers == "-"
  {
    var lead := Scraper.ProfileLead(item, keyword, location, id);
    assert Field(lead, "members") == Undefined;
  }
}
