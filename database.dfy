/** The backend's store: search history, saved leads (bookmarks) and the current
    results, held in memory. */
module Database {
  import opened Js

  // ------------------------------------------------------------ Python dictionaries

  /** `d.get(k)`: `None` for a missing key. */
  function PyGet(d: Record, k: string): (v: Val)
    ensures k !in d ==> v == Null
    ensures k in d ==> v == d[k]
  {
    if k in d then d[k] else Null
  }

  /** `d.get(k, default)`. */
  function PyGetOr(d: Record, k: string, default: Val): (v: Val)
    ensures k !in d ==> v == default
    ensures k in d ==> v == d[k]
  {
    if k in d then d[k] else default
  }

  /** Python truthiness: `None`, `False`, `0`, `""` and the empty dict are false. */
  predicate PyTruthy(v: Val) {
    match v
    case Undefined => false
    case Null => false
    case Bool(b) => b
    case Num(n) => n != 0
    case Str(s) => s != ""
    case Obj(fields) => fields != map[]
  }

  /** What `_load_json_file` finds: no file, a file that fails to open or to parse
      (`IOError`, `JSONDecodeError`), or a parsed list. */
  datatype FileContent = Missing | Unreadable | Parsed(items: seq<Record>)

  /** `_load_json_file`: a missing file, or one that fails to open or to parse, reads
      as the empty list. */
  function LoadJson(f: FileContent): (items: seq<Record>)
    ensures f.Parsed? ==> items == f.items
    ensures !f.Parsed? ==> items == []
  {
    if f.Parsed? then f.items else []
  }

  // ------------------------------------------------------------ history

  /** The entry `add_history` builds; `stamp` is the POSIX timestamp in the id and
      `isoTime` the ISO form of a second, separate reading of the clock. */
  function HistoryEntry(params: Record, stamp: string, isoTime: string): (e: Record)
    ensures e.Keys == {"id", "timestamp", "params", "result_count"}
    ensures e["id"] == Str("history_" + stamp) && e["timestamp"] == Str(isoTime)
    ensures e["params"] == Obj(params)
    ensures "result_count" in params ==> e["result_count"] == params["result_count"]
    ensures "result_count" !in params ==> e["result_count"] == Num(0)
  {
    map["id" := Str("history_" + stamp),
        "timestamp" := Str(isoTime),
        "params" := Obj(params),
        "result_count" := PyGetOr(params, "result_count", Num(0))]
  }

  // ------------------------------------------------------------ saved leads

  predicate HasId(l: Record, id: Val) {
    PyGet(l, "id") == id
  }

  /** `next((l for l in leads if l.get("id") == id), None)`. */
  function FirstWithId(leads: seq<Record>, id: Val): (r: Option<Record>)
    ensures r.None? <==> forall i :: 0 <= i < |leads| ==> !HasId(leads[i], id)
    ensures r.Some? ==> exists i :: 0 <= i < |leads| && leads[i] == r.value && HasId(r.value, id) &&
                                   forall j :: 0 <= j < i ==> !HasId(leads[j], id)
  {
    if leads == [] then None
    else if HasId(leads[0], id) then Some(leads[0])
    else
      var r := FirstWithId(leads[1..], id);
      assert forall i :: 1 <= i < |leads| ==> leads[i] == leads[1..][i - 1];
      if r.Some? then
        ghost var j :| 0 <= j < |leads[1..]| && leads[1..][j] == r.value && HasId(r.value, id) &&
                       forall k :: 0 <= k < j ==> !HasId(leads[1..][k], id);
        assert leads[j + 1] == r.value;
        assert forall k :: 0 <= k < j + 1 ==> !HasId(leads[k], id);
        r
      else r
  }

  /** The outcome of `add_lead`: the dictionary it returns and the new list. */
  datatype Added = Added(stored: Record, leads: seq<Record>)

  /** `add_lead(lead_data)`: a truthy lead with the same id is returned as it is;
      otherwise the lead is stamped and put first. An empty dictionary found under the
      id is falsy, so it does not stop the insert. */
  function AddLeadTo(leads: seq<Record>, lead: Record, savedAt: string): (a: Added)
    ensures match FirstWithId(leads, PyGet(lead, "id"))
            case Some(e) => PyTruthy(Obj(e)) ==> a == Added(e, leads)
            case None => true
    ensures !(FirstWithId(leads, PyGet(lead, "id")).Some? && PyTruthy(Obj(FirstWithId(leads, PyGet(lead, "id")).value))) ==>
              a == Added(lead["saved_at" := Str(savedAt)], [lead["saved_at" := Str(savedAt)]] + leads)
    ensures a.leads != leads ==>
              a.stored == lead["saved_at" := Str(savedAt)] && a.leads == [a.stored] + leads
    ensures a.leads == leads ==> HasId(a.stored, PyGet(lead, "id"))
  {
    var existing := FirstWithId(leads, PyGet(lead, "id"));
    if existing.Some? && PyTruthy(Obj(existing.value)) then Added(existing.value, leads)
    else
      var stored := lead["saved_at" := Str(savedAt)];
      Added(stored, [stored] + leads)
  }

  /** A lead that is not yet saved (no lead has its id) is stamped and put first. */
  lemma AddNewLead(leads: seq<Record>, lead: Record, savedAt: string)
    requires forall i :: 0 <= i < |leads| ==> !HasId(leads[i], PyGet(lead, "id"))
    ensures AddLeadTo(leads, lead, savedAt).stored == lead["saved_at" := Str(savedAt)]
    ensures AddLeadTo(leads, lead, savedAt).leads == [lead["saved_at" := Str(savedAt)]] + leads
  {
  }

  /** Saving the same lead twice keeps one copy: the second call finds the first. */
  lemma SaveTwiceKeepsOneCopy(leads: seq<Record>, lead: Record, t1: string, t2: string)
    ensures var first := AddLeadTo(leads, lead, t1);
            AddLeadTo(first.leads, lead, t2) == first
  {
    var first := AddLeadTo(leads, lead, t1);
    var id := PyGet(lead, "id");
    var found := FirstWithId(leads, id);
    if !(found.Some? && PyTruthy(Obj(found.value))) {
      assert first.leads[0] == first.stored;
      assert HasId(first.stored, id);
      assert first.stored != map[] by { assert "saved_at" in first.stored; }
    }
  }

  /** An empty dictionary in the leads file has no id, so it is what a lead without an
      id finds; being falsy, it does not stop the insert, and two saved leads then have
      no id. */
  lemma EmptySavedLeadAdmitsDuplicate(lead: Record, savedAt: string)
    requires "id" !in lead
    ensures AddLeadTo([map[]], lead, savedAt).leads == [lead["saved_at" := Str(savedAt)], map[]]
    ensures !UniqueIds(AddLeadTo([map[]], lead, savedAt).leads)
  {
    var empty: Record := map[];
    assert HasId(empty, PyGet(lead, "id"));
    assert FirstWithId([empty], Null) == Some(empty);
    var leads := AddLeadTo([empty], lead, savedAt).leads;
    assert leads == [lead["saved_at" := Str(savedAt)]] + [empty];
    assert PyGet(leads[0], "id") == Null == PyGet(leads[1], "id");
  }

  /** No two saved leads share an id. */
  predicate UniqueIds(leads: seq<Record>) {
    forall i, j :: 0 <= i < j < |leads| ==> PyGet(leads[i], "id") != PyGet(leads[j], "id")
  }

  /** Every saved lead is a non-empty dictionary (each stored one carries `saved_at`). */
  predicate NonEmpty(leads: seq<Record>) {
    forall i :: 0 <= i < |leads| ==> leads[i] != map[]
  }

  /** Saving keeps ids unique as long as no saved lead is an empty dictionary. */
  lemma AddKeepsIdsUnique(leads: seq<Record>, lead: Record, savedAt: string)
    requires UniqueIds(leads) && NonEmpty(leads)
    ensures UniqueIds(AddLeadTo(leads, lead, savedAt).leads)
    ensures NonEmpty(AddLeadTo(leads, lead, savedAt).leads)
  {
    var a := AddLeadTo(leads, lead, savedAt);
    if a.leads != leads {
      var id := PyGet(lead, "id");
      assert FirstWithId(leads, id).None?;
      assert "saved_at" in a.stored;
      assert PyGet(a.stored, "id") == id;
      forall i, j | 0 <= i < j < |a.leads|
        ensures PyGet(a.leads[i], "id") != PyGet(a.leads[j], "id")
      {
        assert a.leads[j] == leads[j - 1];
        if i > 0 {
          assert a.leads[i] == leads[i - 1];
        } else {
          assert !HasId(leads[j - 1], id);
        }
      }
    }
  }

  /** `[l for l in leads if l.get("id") != id]`. */
  function Without(leads: seq<Record>, id: Val): (r: seq<Record>)
    ensures |r| <= |leads|
    ensures forall i :: 0 <= i < |r| ==> !HasId(r[i], id)
  {
    if leads == [] then []
    else
      var rest := Without(leads[1..], id);
      if HasId(leads[0], id) then rest
      else
        assert forall i :: 1 <= i < |rest| + 1 ==> ([leads[0]] + rest)[i] == rest[i - 1];
        [leads[0]] + rest
  }

  /** Nothing is dropped exactly when no lead has the id, and then the list is kept
      as it is. */
  lemma {:induction false} WithoutDropsIff(leads: seq<Record>, id: Val)
    ensures |Without(leads, id)| == |leads| <==> forall i :: 0 <= i < |leads| ==> !HasId(leads[i], id)
    ensures (forall i :: 0 <= i < |leads| ==> !HasId(leads[i], id)) ==> Without(leads, id) == leads
  {
    if leads != [] {
      WithoutDropsIff(leads[1..], id);
      assert forall i :: 1 <= i < |leads| ==> leads[i] == leads[1..][i - 1];
      if !HasId(leads[0], id) {
        assert leads == [leads[0]] + leads[1..];
      }
    }
  }

  /** The first lead is dropped exactly when it has the id; the rest are filtered
      alike. */
  lemma WithoutCons(l: Record, s: seq<Record>, id: Val)
    ensures Without([l] + s, id) == (if HasId(l, id) then [] else [l]) + Without(s, id)
  {
    assert ([l] + s)[0] == l && ([l] + s)[1..] == s;
  }

  /** Deleting filters each part of a list on its own and keeps their order: together
      with `WithoutCons`, the result is the leads without the id, in their order and
      with their repetitions. */
  lemma {:induction false} WithoutAppend(a: seq<Record>, b: seq<Record>, id: Val)
    ensures Without(a + b, id) == Without(a, id) + Without(b, id)
  {
    if a == [] {
      assert a + b == b;
    } else {
      var tail := a[1..];
      assert a == [a[0]] + tail;
      assert a + b == [a[0]] + (tail + b);
      WithoutCons(a[0], tail + b, id);
      WithoutCons(a[0], tail, id);
      WithoutAppend(tail, b, id);
      if !HasId(a[0], id) {
        var wt, wb := Without(tail, id), Without(b, id);
        assert [a[0]] + (wt + wb) == ([a[0]] + wt) + wb;
      }
    }
  }

  /** Deleting one id leaves the lookup of every other id as it was. */
  lemma {:induction false} WithoutKeepsOthers(leads: seq<Record>, id: Val, other: Val)
    requires other != id
    ensures FirstWithId(Without(leads, id), other) == FirstWithId(leads, other)
  {
    if leads != [] {
      WithoutKeepsOthers(leads[1..], id, other);
      if !HasId(leads[0], id) {
        assert ([leads[0]] + Without(leads[1..], id))[1..] == Without(leads[1..], id);
      }
    }
  }

  // ------------------------------------------------------------ the store

  class Store {
    var history: seq<Record>
    var leads: seq<Record>
    var currentResults: seq<Record>

    /** `initialize()`: both lists come from their files, the current results start
        empty. */
    constructor (historyFile: FileContent, leadsFile: FileContent)
      ensures history == LoadJson(historyFile) && leads == LoadJson(leadsFile)
      ensures currentResults == []
    {
      history := LoadJson(historyFile);
      leads := LoadJson(leadsFile);
      currentResults := [];
    }

    method GetHistory() returns (h: seq<Record>)
      ensures h == history
    {
      h := history;
    }

    /** `add_history(search_params)`: the newest entry comes first. */
    method AddHistory(params: Record, stamp: string, isoTime: string) returns (entry: Record)
      modifies this`history
      ensures entry == HistoryEntry(params, stamp, isoTime)
      ensures history == [entry] + old(history)
    {
      entry := HistoryEntry(params, stamp, isoTime);
      history := [entry] + history;
    }

    method GetLeads() returns (l: seq<Record>)
      ensures l == leads
    {
      l := leads;
    }

    /** `add_lead(lead_data)`. */
    method AddLead(lead: Record, savedAt: string) returns (stored: Record)
      modifies this`leads
      ensures Added(stored, leads) == AddLeadTo(old(leads), lead, savedAt)
      ensures UniqueIds(old(leads)) && NonEmpty(old(leads)) ==> UniqueIds(leads) && NonEmpty(leads)
    {
      var existing := FirstWithId(leads, PyGet(lead, "id"));
      if existing.Some? && PyTruthy(Obj(existing.value)) {
        stored := existing.value;
      } else {
        stored := lead["saved_at" := Str(savedAt)];
        leads := [stored] + leads;
      }
      if UniqueIds(old(leads)) && NonEmpty(old(leads)) {
        AddKeepsIdsUnique(old(leads), lead, savedAt);
      }
    }

    /** `delete_lead(lead_id)`: true exactly when some lead had that id. */
    method DeleteLead(leadId: string) returns (removed: bool)
      modifies this`leads
      ensures leads == Without(old(leads), Str(leadId))
      ensures removed <==> exists i :: 0 <= i < |old(leads)| && HasId(old(leads)[i], Str(leadId))
      ensures FirstWithId(leads, Str(leadId)).None?
    {
      var initialCount := |leads|;
      WithoutDropsIff(leads, Str(leadId));
      leads := Without(leads, Str(leadId));
      removed := |leads| < initialCount;
    }

    method SetCurrentResults(results: seq<Record>)
      modifies this`currentResults
      ensures currentResults == results
    {
      currentResults := results;
    }

    method GetCurrentResults() returns (r: seq<Record>)
      ensures r == currentResults
    {
      r := currentResults;
    }
  }
}
