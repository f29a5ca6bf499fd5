# Lead finder: a verified model

The system is a lead-generation tool. A browser client (React) lets a user:

- search a social platform (LinkedIn through an Exa-powered people search, or X/Twitter) for people matching a keyword and a location;
- browse the results in a sortable, paginated table;
- open one lead in a detail panel;
- bookmark leads;
- re-run earlier searches from a history list.

A Python backend runs the platform scrapers through Apify actors. It keeps the search history and the saved leads in memory, mirrored to JSON files, and holds an in-memory table of long-running scraping jobs.

This project models the core of both sides in Dafny and proves what each piece promises.

| module | file | models |
|---|---|---|
| `Js` | `js.dfy` | JSON values as JavaScript sees them. Covers truthiness, `||`, `?.`, `String(v)`, `trim`/`strip`, `toLowerCase`/`lower`, and the code-point comparison used for `localeCompare`. |
| `Api` | `api.dfy` | The REST contract between client and backend: the search request, and the reply shapes `{status, results, detail}`, `{history}`, `{leads}` and `{status}`. |
| `App` | `app.dfy` | `frontend/src/App.jsx`: the application state (a `class` whose methods are the handlers) and the reconstruction of a search from a history entry. |
| `ResultsTable` | `results_table.dfy` | `frontend/src/components/ResultsTable.jsx`: the comparator, the stable sort, pagination, the follower text, the badges, and the table's own sort and page state. |
| `SearchForm` | `search_form.dfy` | `frontend/src/components/SearchForm.jsx`: the four inputs, the clamp on the result count, and what a submit emits. |
| `DetailSidebar` | `detail_sidebar.dfy` | `frontend/src/components/DetailSidebar.jsx`: which blocks the panel shows and with which values. |
| `Database` | `database.dfy` | `backend/database.py`: history entries, save/delete of leads with their de-duplication, and the current results. |
| `Jobs` | `jobs.dfy` | `backend/jobs.py`: the job table and its status changes. |
| `Scraper` | `scraper.dfy` | `backend/scraper.py`: the platform dispatch, the actor inputs, the organisation filter, the shaping of dataset items into leads, and both collection loops. |
| `EndToEnd` | `end_to_end.dfy` | Properties that cross the client/backend boundary. |

## How the outside world enters the model

Every server round trip is a parameter:

- A `Reply<B>` either threw (network failure, unparsable body) with a message, or delivered the parsed body.
- Where the request matters, the reply is a function from the request to the reply. For example, `HandleHistoryClick` is proved against `scrape(ReplayParams(item))`.

On the backend:

- An Apify actor is a function from its run input to an `ActorRun`: either the exception it raised or the items of its dataset.
- The environment variables form an `Env` value.
- The UUID fragments of lead ids come from a function `tag: nat -> string`.
- Clock readings (`now`, `created`, `updated`, `stamp`, `isoTime`, `savedAt`) are plain string parameters.

## Behaviour worth knowing

- Replaying a history entry that has no location, city or state sends the literal location `"undefined, undefined"` (`App.ReplayWithoutPlace`, `EndToEnd.ReplayOfSearchWithoutLocation`). The history list shows an empty location for the same entry (`App.LabelWithoutPlace`).
- `add_history` keeps what it is given under `params`, so the entry it builds has no top-level search field (`Database.HistoryEntry`). The route that calls it is not part of this model. Assuming it passes the search request body unchanged, replay reads the four fields through the `params` fallback and sends the original search again whenever all four were truthy (`EndToEnd.ReplayRepeatsSearch`).
- The organisation indicator `" ag"` also matches a surname starting with "Ag". `"Ana Agne"` is dropped as an organisation (`Scraper.AgSurnameIsOrganization`).
- The two caps differ:
  - The LinkedIn loop checks its cap before looking at an item, so a cap of zero or less yields no leads.
  - The X loop checks its cap after adding a lead. A run holding at least one tweet whose author has a user name therefore yields at least one lead, even for a cap of zero or less (`Scraper.TweetsKeepFirst`). `Scraper.ProfilesBound` and `Scraper.TweetsBound` give the upper bounds.
- `tiktok` passes the platform dispatch, but there is no TikTok actor. After the token check the scrape fails with a `KeyError` (`Scraper.ScrapeTikTok`).
- `add_lead` looks for an existing lead with `l.get("id") == lead_data.get("id")` and returns it only if it is truthy (`if existing:`). An empty dictionary is falsy, and since it has no `id` it matches exactly a lead that has none either. Such a dictionary cannot come from `add_lead`, but it can come from the leads file. With one in the list, saving a lead without an id inserts it beside the empty one, and the two share the id `None` (`Database.EmptySavedLeadAdmitsDuplicate`). Ids stay unique while no saved lead is empty (`Database.AddKeepsIdsUnique`).
- A LinkedIn lead has its headline as its role and `0` followers. The detail panel therefore never shows its headline block or its followers block, and the table shows `-` (`EndToEnd.LinkedInLeadDisplay`).
- In the results table, a count of `0` sorts like a missing value, because both become `''` (`ResultsTable.ZeroSortsAsMissing`).
- The page is clamped only by `handlePageChange` (frontend/src/components/ResultsTable.jsx:45-47), never when the results change. While the table stays mounted, new results keep the current page, and a page past the new last page shows no rows (`ResultsTable.TableState.ReceiveResults`).

## Model

| member | source | states |
|---|---|---|
| `Js.OrTruthy` | frontend/src/App.jsx:137-140 | `a \|\| b` is truthy iff either operand is, and is `b` when neither is, which is how every fallback chain of a replay ends. |
| `Js.TrimIdentity` | frontend/src/App.jsx:138 | A string with no white space at either end is unchanged by `trim()`. |
| `Js.LeadingSpace` | backend/scraper.py:82 | The count of white-space characters a text starts with: all of them are white space, and the next one is not. |
| `Js.TrailingSpace` | backend/scraper.py:82 | The count of white-space characters a text ends with: all of them are white space, and the one before them is not. |
| `Js.CompareAntisymmetric` | frontend/src/components/ResultsTable.jsx:22-26 | The string comparison used for `localeCompare` changes sign when its operands are swapped. |
| `Js.ToStrCapitalized` | frontend/src/components/ResultsTable.jsx:57-61 | A lookup keyed by a capitalised name such as `LinkedIn` matches exactly that string value and no other value. |
| `Js.CapitalizedNotInherited` | frontend/src/components/ResultsTable.jsx:57-61 | No name an object literal inherits from `Object.prototype` starts with a capital letter, so `LinkedIn` and `X` look up the literal's own entries. |
| `Js.IntToString` | frontend/src/components/ResultsTable.jsx:53 | `count.toString()` of an integer is non-empty and starts with `-` exactly for negative numbers. |
| `Js.IndexOf` | backend/scraper.py:123-124 | The first occurrence of a character, or none exactly when it does not occur. This is the split point of `split("\|", 1)`. |
| `Js.Trim` | backend/scraper.py:82 | `strip()` gives the slice of the text that starts after its leading white space, leaves only white space behind it, and has no white space at either end. |
| `Js.Lower` | backend/scraper.py:30 | `lower()` maps each character to its lower-case form and keeps the length. |
| `Js.LowerSlice` | backend/scraper.py:30-43 | Lower-casing a piece of a name gives that piece of the lower-cased name, so an indicator can be found in either. |
| `Js.LowerIdempotent` | backend/scraper.py:296 | Lower-casing an already lower-cased name changes nothing. |
| `App.ReplayLocation` | frontend/src/App.jsx:138 | A truthy stored location is sent as it is. Otherwise the text sent is the trimmed join of the `String` forms of city and state with `", "`. |
| `App.ReplayParams` | frontend/src/App.jsx:136-141 | Each field is the top-level value when truthy, else the `params` value. When both are falsy, the platform defaults to `linkedin` and the count to `20`, so both are always truthy. The location is `ReplayLocation`. |
| `App.ReplayWithoutPlace` | frontend/src/App.jsx:138 | With no location, city or state at either level, the replayed location is `"undefined, undefined"`. |
| `App.ReplayJoinsCityAndState` | frontend/src/App.jsx:138 | City and state with clean ends replay as `"city, state"`. |
| `App.ReplayMissingState` | frontend/src/App.jsx:138 | A city without a state at either level replays as `"city, undefined"`. |
| `App.ReplayNestedEntry` | frontend/src/App.jsx:136-141 | An entry of the older shape, with its fields under `params` and no location or count, replays with its keyword, the location "city, state", its platform and the default count 20. |
| `App.JoinPlaceCases` | frontend/src/App.jsx:242 | The history label joins city and state with `", "` and leaves no stray separator when either is empty. |
| `App.LabelWithoutPlace` | frontend/src/App.jsx:242 | The entry that replays as `"undefined, undefined"` shows an empty location. |
| `App.LabelExamples` | frontend/src/App.jsx:242 | `Berlin`/`DE` show as `Berlin, DE`, and each one alone shows as itself. |
| `App.LabelFor` | frontend/src/App.jsx:241-245 | A history line shows the entry's keyword, the label location, the `result_count` when truthy and `0` otherwise, and the platform when truthy and `linkedin` otherwise. The date is the locale formatting of the top-level `timestamp`. |
| `App.SomeHasId` | frontend/src/App.jsx:186-188 | True iff some saved lead has exactly that id. |
| `App.Reloaded` | frontend/src/App.jsx:34-52 | A reload that threw keeps the previous list. A reply without the list gives `[]`. Otherwise the list is replaced by the delivered one. |
| `App.SearchAlert` | frontend/src/App.jsx:67-79 | No alert iff the reply arrived with status `success`. A reply without success alerts `"Search failed: "` followed by `detail`, or by `Unknown error` when it is falsy. A thrown error alerts with its message after the caller's prefix. |
| `App.AppState.constructor` | frontend/src/App.jsx:9-15 | No results, no selection, empty history and saved leads, not loading, the search view. |
| `App.AppState.IsLeadSaved` | frontend/src/App.jsx:186-188 | Saved iff some saved lead carries that id. |
| `App.AppState.DetailPanel` | frontend/src/App.jsx:300-306 | A panel exists iff a lead is selected. Its save button is disabled iff the selected lead's id is saved. |
| `App.AppState.LoadHistory` | frontend/src/App.jsx:34-42 | The history becomes the reloaded list, and a failure leaves it as it was. |
| `App.AppState.LoadSavedLeads` | frontend/src/App.jsx:44-52 | The saved leads become the reloaded list, and a failure leaves them as they were. |
| `App.AppState.Mount` | frontend/src/App.jsx:18-22 | Both initial loads run, and the failure of one does not affect the other. |
| `App.AppState.BeginLoading` | frontend/src/App.jsx:55 | Loading is on. |
| `App.AppState.SettleSearch` | frontend/src/App.jsx:56-79 | A success replaces the results, switches to the search view and reloads the history. A failure changes none of them. Loading always ends. |
| `App.AppState.HandleSearch` | frontend/src/App.jsx:54-80 | The same, for the server's reply to the submitted parameters. Selection and saved leads are untouched. |
| `App.AppState.HandleHistoryClick` | frontend/src/App.jsx:132-166 | Sends exactly `ReplayParams(item)`. The outcome matches a search, with its own alert prefix for thrown errors. |
| `App.AppState.SelectLead` | frontend/src/App.jsx:82-84 | The lead becomes the selection. |
| `App.AppState.CloseDetail` | frontend/src/App.jsx:303 | The selection is cleared. |
| `App.AppState.SetView` | frontend/src/App.jsx:195 | The view changes and nothing is fetched. |
| `App.AppState.HandleSaveLead` | frontend/src/App.jsx:86-108 | A success reloads the saved leads and alerts "Lead saved successfully!". Each failure keeps them and alerts its own text. The search state is untouched. |
| `App.AppState.HandleDeleteLead` | frontend/src/App.jsx:110-130 | Alert-free iff the delete succeeded. A success reloads the saved leads and clears the selection exactly when it has that id. A reply without success alerts "Failed to delete lead", a request that threw alerts "Failed to delete lead: " and its message, and neither changes anything. |
| `ResultsTable.DescendingMirrorsAscending` | frontend/src/components/ResultsTable.jsx:18-26 | Descending order is the ascending comparator with its operands swapped. |
| `ResultsTable.CompareSwap` | frontend/src/components/ResultsTable.jsx:14-27 | The comparator is antisymmetric in both directions, as a consistent comparator must be. |
| `ResultsTable.ZeroSortsAsMissing` | frontend/src/components/ResultsTable.jsx:15-16 | A value `0` compares equal to a missing value. |
| `ResultsTable.NumbersCompareNumerically` | frontend/src/components/ResultsTable.jsx:18-20 | Two non-zero numbers order by value: ascending, or reversed for descending. |
| `ResultsTable.MixedColumnCycle` | frontend/src/components/ResultsTable.jsx:14-27 | On a column that mixes numbers and strings the comparator is cyclic: `2 < 10 < "1a" < 2`. |
| `ResultsTable.Insert` | frontend/src/components/ResultsTable.jsx:14 | One insertion step of the sort adds exactly one element and keeps all the others. |
| `ResultsTable.InsertHead` | frontend/src/components/ResultsTable.jsx:14 | After an insertion step the new element or the old first element leads. |
| `ResultsTable.SortedTail` | frontend/src/components/ResultsTable.jsx:14-27 | A list in comparator order stays in order without its first element. |
| `ResultsTable.SortedCons` | frontend/src/components/ResultsTable.jsx:14-27 | An element that does not sort after the first of an ordered list can go in front of it. |
| `ResultsTable.InsertSorted` | frontend/src/components/ResultsTable.jsx:14-27 | Inserting into a sorted list keeps it sorted. |
| `ResultsTable.StableSort` | frontend/src/components/ResultsTable.jsx:14-27 | The sorted copy is a permutation of the results, and every neighbouring pair is in comparator order. |
| `ResultsTable.InsertWithKey` | frontend/src/components/ResultsTable.jsx:14-27 | Inserting never moves an element past one with the same key. |
| `ResultsTable.SortIsStable` | frontend/src/components/ResultsTable.jsx:14-27 | Leads with equal sort keys keep their original relative order (ECMA-262 section 23.1.3.30). |
| `ResultsTable.SortedResults` | frontend/src/components/ResultsTable.jsx:11-28 | Without a sort field the results are shown as they are. With one they are a sorted permutation. |
| `ResultsTable.TotalPages` | frontend/src/components/ResultsTable.jsx:31 | The least number of 10-row pages that holds every result. |
| `ResultsTable.PageItems` | frontend/src/components/ResultsTable.jsx:32-34 | Page `p` is the slice `[(p-1)*10, p*10)`, clipped to the list. It is empty past the end, and never longer than 10. |
| `ResultsTable.PagesInRangeAreFilled` | frontend/src/components/ResultsTable.jsx:31-34 | A page is non-empty iff it is at most the page count. |
| `ResultsTable.ClampPage` | frontend/src/components/ResultsTable.jsx:46 | The new page is in `1..totalPages`, or 1 without pages. An in-range request is kept as it is. |
| `ResultsTable.Tenths` | frontend/src/components/ResultsTable.jsx:51-52 | The one-decimal quotient of `toFixed(1)` is within half a tenth of the exact quotient. |
| `ResultsTable.FormatFollowers` | frontend/src/components/ResultsTable.jsx:49-54 | A falsy count shows `-`. A million or more ends in `M`, a thousand or more in `K`. Smaller non-zero counts show as the number itself. |
| `ResultsTable.SmallCountExamples` | frontend/src/components/ResultsTable.jsx:49-54 | 999 shows as `999`; 0 and a missing count show as `-`. |
| `ResultsTable.ThousandsExamples` | frontend/src/components/ResultsTable.jsx:49-54 | 1500 shows as `1.5K` and 15000 as `15.0K`. |
| `ResultsTable.MillionsExample` | frontend/src/components/ResultsTable.jsx:49-54 | 2500000 shows as `2.5M`. |
| `ResultsTable.PlatformBadge` | frontend/src/components/ResultsTable.jsx:56-67 | `LinkedIn` and `X` get their own styles, and the badge is blue exactly for `LinkedIn`. A name inherited from `Object.prototype` finds that member, so style and label are all `undefined`. Any other value gets the grey fallback labelled with the platform itself. |
| `ResultsTable.RowFor` | frontend/src/components/ResultsTable.jsx:128-151 | The star reflects the saved flag. Name and role are the lead's own when truthy, else `Unknown` and `-`. The badge is the platform's, the follower cell formats `followers \|\| members`, and the profile link shows iff `contact_link` is truthy, pointing at it. |
| `ResultsTable.TableState.constructor` | frontend/src/components/ResultsTable.jsx:5-8 | Page 1, no sort field, ascending. |
| `ResultsTable.TableState.Sorted` | frontend/src/components/ResultsTable.jsx:11-28 | The displayed order is `SortedResults` of the table state: the results in input order without a sort field, otherwise a permutation of them in comparator order. |
| `ResultsTable.TableState.CurrentResults` | frontend/src/components/ResultsTable.jsx:30-34 | The page's window of the sorted list: at most 10 rows, and at least one on any page up to the page count. |
| `ResultsTable.TableState.HandleSort` | frontend/src/components/ResultsTable.jsx:36-43 | The same field flips the direction. Another field becomes the sort field, ascending. |
| `ResultsTable.TableState.HandlePageChange` | frontend/src/components/ResultsTable.jsx:45-47 | The stored page is the request clamped to the current page count, and stays at least 1. |
| `ResultsTable.TableState.ReceiveResults` | frontend/src/components/ResultsTable.jsx:4-8 | New results leave page, sort field and direction as they were. |
| `SearchForm.OfferedPlatforms` | frontend/src/components/SearchForm.jsx:4-7 | The buttons offer exactly `linkedin` and `x`. |
| `SearchForm.ClampMaxResults` | frontend/src/components/SearchForm.jsx:104 | The count is always in 1..100. NaN and 0 give 1, in-range entries are kept, and the rest saturate. |
| `SearchForm.FormState.constructor` | frontend/src/components/SearchForm.jsx:10-13 | Empty keyword and location, `linkedin`, 20. |
| `SearchForm.FormState.SetKeyword` | frontend/src/components/SearchForm.jsx:72 | The keyword is the typed text. |
| `SearchForm.FormState.SetLocation` | frontend/src/components/SearchForm.jsx:87 | The location is the typed text. |
| `SearchForm.FormState.ChoosePlatform` | frontend/src/components/SearchForm.jsx:44-48 | The platform is the clicked button's id, so it stays one of the offered ones. |
| `SearchForm.FormState.ChangeMaxResults` | frontend/src/components/SearchForm.jsx:104 | The count is the clamped entry, so it stays in 1..100. |
| `SearchForm.FormState.Submit` | frontend/src/components/SearchForm.jsx:15-29 | Rejected with "Please enter a keyword" iff the keyword is empty. Otherwise the four fields go out as they stand, and keyword, platform and count are truthy. |
| `DetailSidebar.FormatFollowers` | frontend/src/components/DetailSidebar.jsx:5-10 | Nothing for a falsy count, otherwise the same text as the table. |
| `DetailSidebar.PlatformColor` | frontend/src/components/DetailSidebar.jsx:12-18 | Blue iff the platform is `LinkedIn`. A name inherited from `Object.prototype` yields that member's text. Anything else is grey. |
| `DetailSidebar.Guarded` | frontend/src/components/DetailSidebar.jsx:39 | `{x && <block/>}` shows the block iff `x` is truthy, shows "0" iff `x` is the number `0`, and shows nothing otherwise. |
| `DetailSidebar.Section` | frontend/src/components/DetailSidebar.jsx:51-59 | A block guarded by a field shows that field iff it is truthy, and a stray "0" iff it is `0`. |
| `DetailSidebar.PopularityBlock` | frontend/src/components/DetailSidebar.jsx:62-74 | Shown iff followers or members is truthy. When followers is falsy and members is `0`, a stray "0" shows instead. It is labelled "Members" iff members is truthy, and shows the formatted followers, or else the members. |
| `DetailSidebar.HeadlineBlock` | frontend/src/components/DetailSidebar.jsx:99-104 | Shown iff the headline is truthy and differs from the role. A headline of `0` shows a stray "0". |
| `DetailSidebar.BioBlock` | frontend/src/components/DetailSidebar.jsx:107-114 | Shown iff bio or description is truthy, and the bio takes precedence. A falsy bio with a description of `0` shows a stray "0". |
| `DetailSidebar.SaveButtonFor` | frontend/src/components/DetailSidebar.jsx:179-190 | Disabled and captioned "Already Saved" iff the lead is saved, otherwise "Save Lead". |
| `DetailSidebar.Render` | frontend/src/components/DetailSidebar.jsx:20-192 | The title is the name when truthy, else `Unknown`. The badge carries the platform and its colour, and Verified shows iff `verified` is truthy. Role, region, company, industry, search term, email, website and profile link are each the field's own section. Popularity, headline and bio follow their rules, and the save button is disabled iff the lead is saved. |
| `Database.LoadJson` | backend/database.py:26-34 | A parsed list is kept. A missing file, or one that fails to open or to parse, reads as the empty list. |
| `Database.HistoryEntry` | backend/database.py:58-65 | Exactly the keys id, timestamp, params and result_count. The id is `history_` plus the stamp, and result_count is taken from the parameters or defaults to 0. |
| `Database.FirstWithId` | backend/database.py:80 | None iff no lead has the id. Otherwise it is the first lead of the list that has the id: no earlier lead has it. |
| `Database.AddLeadTo` | backend/database.py:77-87 | A truthy lead with the same id is returned and nothing is inserted. When no lead matches, or the first match is falsy, the lead is stamped with `saved_at` and put first. |
| `Database.AddNewLead` | backend/database.py:84-85 | A lead whose id is not saved yet is stamped and put in front of the list. |
| `Database.SaveTwiceKeepsOneCopy` | backend/database.py:77-87 | Saving the same lead twice returns the first result, and the list is not changed again. |
| `Database.AddKeepsIdsUnique` | backend/database.py:77-87 | Saving preserves unique ids, as long as no saved lead is an empty dictionary. |
| `Database.EmptySavedLeadAdmitsDuplicate` | backend/database.py:80-85 | With an empty dictionary among the saved leads, saving a lead without an id inserts it, and the list then holds two leads with the id `None`. |
| `Database.Without` | backend/database.py:94 | No remaining lead has the id, and nothing is added. |
| `Database.WithoutDropsIff` | backend/database.py:94-96 | The list keeps its length iff no lead has the id, and then it is unchanged. |
| `Database.WithoutCons` | backend/database.py:94 | The first lead is dropped iff it has the id, and the rest are filtered alike. |
| `Database.WithoutAppend` | backend/database.py:94 | Filtering a concatenation concatenates the filtered parts. With `WithoutCons`, the survivors keep their order and their repetitions. |
| `Database.WithoutKeepsOthers` | backend/database.py:90-99 | Deleting one id leaves the lookup of every other id unchanged. |
| `Database.Store.constructor` | backend/database.py:44-49 | History and leads come from their files, and the current results start empty. |
| `Database.Store.GetHistory` | backend/database.py:53-55 | The stored history. |
| `Database.Store.AddHistory` | backend/database.py:58-68 | The built entry is returned and becomes the first of the history. |
| `Database.Store.GetLeads` | backend/database.py:72-74 | The stored leads. |
| `Database.Store.AddLead` | backend/database.py:77-87 | The returned lead and the new list are those of `AddLeadTo`. Unique ids are preserved while no saved lead is an empty dictionary. |
| `Database.Store.DeleteLead` | backend/database.py:90-99 | True iff some lead had the id, and afterwards none has it. |
| `Database.Store.SetCurrentResults` | backend/database.py:103-106 | The current results are replaced. |
| `Database.Store.GetCurrentResults` | backend/database.py:109-111 | The current results. |
| `Jobs.StatusName` | backend/jobs.py:10-14 | Each status serialises as one of the four names. |
| `Jobs.StatusNamesDistinct` | backend/jobs.py:10-14 | Different statuses have different names. |
| `Jobs.NewJob` | backend/jobs.py:22-30 | A new job is pending, has no results and no error. Its creation and update times are two separate clock readings. |
| `Jobs.Updated` | backend/jobs.py:39-45 | Status and update time always change. Results and error change only when a value is given, and the id, params and creation time never change. |
| `Jobs.UpdatedTable` | backend/jobs.py:37-45 | An unknown id changes nothing, and no other job is touched. |
| `Jobs.CompleteThenFail` | backend/jobs.py:51-57 | Failing a completed job keeps its results along with the new error. |
| `Jobs.JobTable.constructor` | backend/jobs.py:17 | The table starts empty. |
| `Jobs.JobTable.CreateJob` | backend/jobs.py:19-31 | The new id maps to a fresh pending job, and every job stays stored under its own id. |
| `Jobs.JobTable.GetJob` | backend/jobs.py:33-35 | None iff the id is unknown, otherwise the job stored under that id. |
| `Jobs.JobTable.UpdateJob` | backend/jobs.py:37-45 | The table is updated as `UpdatedTable` describes, and ids stay consistent. |
| `Jobs.JobTable.StartJob` | backend/jobs.py:47-49 | A known job becomes running and keeps its results. |
| `Jobs.JobTable.CompleteJob` | backend/jobs.py:51-53 | A known job becomes completed and keeps its error. |
| `Jobs.JobTable.FailJob` | backend/jobs.py:55-57 | A known job becomes failed with the given error. |
| `Scraper.ActorKeys` | backend/scraper.py:13-17 | Actors exist for linkedin, x and twitter only, and x and twitter share one. |
| `Scraper.ClientCheck` | backend/scraper.py:20-25 | The client is available iff the token is set and non-empty. Otherwise the error names the missing variable. |
| `Scraper.Query` | backend/scraper.py:82 | Without a location the query is the keyword. Otherwise it is the stripped join. |
| `Scraper.QueryJoins` | backend/scraper.py:82 | Keyword and location with clean ends join with one space. |
| `Scraper.QueryWithoutKeyword` | backend/scraper.py:82 | An empty keyword leaves a clean location alone. |
| `Scraper.IsOrganization` | backend/scraper.py:28-52 | The two loops with their early returns decide exactly `LooksLikeOrganization`: an indicator, or one long word with an inner capital. |
| `Scraper.IndicatorAt` | backend/scraper.py:30-43 | A piece of the name whose lower-case form is an indicator makes the name an organisation's, wherever it sits. |
| `Scraper.LegalSuffixIsOrganization` | backend/scraper.py:34-43 | Any name ending in a legal form such as " Inc" or " GmbH", in any case, is an organisation's. |
| `Scraper.AgSurnameIsOrganization` | backend/scraper.py:35-43 | Any name with a later word starting "Ag", such as "Ana Agne", is taken for an organisation through the `" ag"` indicator. |
| `Scraper.OneWord` | backend/scraper.py:46-47 | A text without white space splits into one word, or none when empty. |
| `Scraper.CamelCaseIsOrganization` | backend/scraper.py:46-50 | Any single word longer than three characters with a capital after the first, such as "OpenAI", is taken for a brand. |
| `Scraper.FullName` | backend/scraper.py:113 | `author`, else `name`, else empty, stripped. |
| `Scraper.Headline` | backend/scraper.py:121-124 | Empty without a bar, otherwise the stripped text after the first bar. |
| `Scraper.HeadlineAfterBar` | backend/scraper.py:120-124 | The title "name \| headline" yields the headline. |
| `Scraper.RegionFor` | backend/scraper.py:139-143 | Berlin beats Germany, which beats the searched location. |
| `Scraper.Truncated` | backend/scraper.py:161 | A prefix of the bio: the whole bio when it has at most 500 characters, otherwise exactly its first 500. |
| `Scraper.ProfileLead` | backend/scraper.py:149-162 | The lead has its id, the name, platform LinkedIn, the headline as role, 0 followers, the region, the text cut to 500 characters as its bio and the keyword as its notes. It has no members key. |
| `Scraper.ProfileLeadFields` | backend/scraper.py:149-162 | The lead has exactly the twelve keys, the item's URL (or empty) as its contact link, and an empty company and industry. |
| `Scraper.ProfilesBound` | backend/scraper.py:109-110 | The LinkedIn loop never yields more leads than `max_results`, and none for a cap of zero or less. |
| `Scraper.ProfilesShaped` | backend/scraper.py:112-162 | Every LinkedIn lead has a usable personal name and the LinkedIn shape. |
| `Scraper.LeadShaped` | backend/scraper.py:112-162 | The lead of a kept item has a usable personal name and the LinkedIn shape. |
| `Scraper.ProfilesSkip` | backend/scraper.py:109-132 | Below the cap, passing over a skipped item keeps the loop invariant. |
| `Scraper.ProfilesEmit` | backend/scraper.py:109-166 | Below the cap, appending the lead of a kept item and counting it keeps the loop invariant. |
| `Scraper.ProfilesKept` | backend/scraper.py:109-166 | Below the cap, a kept item contributes its lead, and the loop goes on with one lead more. |
| `Scraper.ShapeProfile` | backend/scraper.py:112-162 | An item is skipped iff it has no usable name or is an organisation. Otherwise its lead is built. |
| `Scraper.CollectProfiles` | backend/scraper.py:99-166 | The loop yields exactly the specified LinkedIn leads. |
| `Scraper.ScrapeLinkedIn` | backend/scraper.py:55-169 | Checks the token, then the Exa key. A failed actor run propagates its error. Otherwise the result is the loop over the dataset of the run input (query, key, cap). The result is `LinkedInOutcome`. |
| `Scraper.LinkedInOutcome` | backend/scraper.py:55-169 | What the LinkedIn scrape returns. A success is bounded by the cap and every lead is well shaped. |
| `Scraper.TweetLead` | backend/scraper.py:200-212 | The lead has its id, platform X, role `@user`, the profile link and the keyword as its notes. |
| `Scraper.AuthorOf` | backend/scraper.py:193 | The tweet's author, or an author with no fields when the tweet has none. |
| `Scraper.TweetLeadFields` | backend/scraper.py:200-212 | Exactly the eleven keys and an empty company. Each author field is copied when present. Otherwise name is `Unknown`, region is the searched location, followers is `0`, verified is `isVerified` or else `false`, and bio is empty. |
| `Scraper.TweetsSkip` | backend/scraper.py:191-198 | Passing over a tweet without an author or by a seen author keeps the loop invariant. |
| `Scraper.TweetsEmit` | backend/scraper.py:191-215 | Below the cap, recording the author and appending the lead keeps the loop invariant. |
| `Scraper.TweetsNewAuthor` | backend/scraper.py:191-215 | Below the cap, a new author contributes its lead, and the loop goes on with that author seen. |
| `Scraper.TweetsLast` | backend/scraper.py:191-215 | When the lead reaches the cap, the results with it are the whole specified list. |
| `Scraper.DistinctCons` | backend/scraper.py:193-198 | A lead by a new author in front of leads by other new authors keeps all authors distinct. |
| `Scraper.RoleNamesUser` | backend/scraper.py:203 | The role of a tweet lead names its author. |
| `Scraper.TweetsDistinct` | backend/scraper.py:193-198 | Every emitted author is a non-empty user name, and no author appears twice. |
| `Scraper.TweetsBound` | backend/scraper.py:214-215 | At most `max_results` leads, or one for a cap below one. |
| `Scraper.TweetsKeepFirst` | backend/scraper.py:191-215 | When some tweet's author has a user name not yet seen, the loop yields at least one lead, whatever the cap. |
| `Scraper.TwitterRunInput` | backend/scraper.py:178-184 | The query, `queryType` "Top", and `maxItems = max(3*max_results, 20)`. |
| `Scraper.CollectTweets` | backend/scraper.py:188-215 | The loop yields exactly the specified X leads. |
| `Scraper.ScrapeTwitter` | backend/scraper.py:172-218 | Checks the token. A failed actor run propagates its error. Otherwise the result is the loop over the dataset. The result is `TwitterOutcome`. |
| `Scraper.TwitterOutcome` | backend/scraper.py:172-218 | What the X scrape returns. A success comes from a dataset run. It has at most `max_results` leads, a bound that never drops below one, and its authors are distinct. It has at least one lead when some tweet's author has a user name. |
| `Scraper.ScrapeTikTok` | backend/scraper.py:221-236 | Always fails: on the token check, or with `KeyError('tiktok')` on the actor lookup. |
| `Scraper.RouteFor` | backend/scraper.py:296-307 | The lower-cased name picks LinkedIn, X (for `x` or `twitter`) or TikTok. Telegram and unknown names are rejected with their messages. |
| `Scraper.RouteIgnoresCase` | backend/scraper.py:296-307 | A platform name takes the branch of its lower-case form, so "LinkedIn" and "X" route like "linkedin" and "x". |
| `Scraper.ScrapeLeads` | backend/scraper.py:278-307 | Rejected names raise ValueError. LinkedIn, X and TikTok names return exactly what their scrape returns, so a LinkedIn success is bounded and well shaped and an X success is bounded with distinct authors. A missing token fails every scraping branch. |
| `EndToEnd.RequestBody` | frontend/src/App.jsx:57-63 | The request body carries exactly the four search fields. |
| `EndToEnd.EntryHasNoSearchFields` | backend/database.py:60-65 | A history entry has no top-level search field, so replay reads each one from `params`. |
| `EndToEnd.ReplayRepeatsSearch` | frontend/src/App.jsx:136-141 | Replaying the entry recorded for a search with four truthy fields sends that same search. |
| `EndToEnd.ReplayOfSearchWithoutLocation` | frontend/src/App.jsx:138 | A search without a location replays with location `"undefined, undefined"`. |
| `EndToEnd.SavedLeadShowsAsSaved` | frontend/src/App.jsx:186-188 | After a save, the reloaded list marks the lead as saved, whether it was inserted or already present. |
| `EndToEnd.DeletedLeadNotSaved` | backend/database.py:90-99 | After a delete, the reloaded list no longer marks that id as saved. |
| `EndToEnd.LinkedInLeadDisplay` | backend/scraper.py:149-162 | A LinkedIn lead shows neither a headline block nor a popularity block, and the table shows `-` for its followers. |

## Left out

- Network, files and side channels are not modelled: `fetch`, the Apify client, `os.getenv`, `print`, `console.error` and `alert`. Replies, actor runs and the environment are parameters, and an alert is a returned text.
- `Database.LoadJson`: `_load_json_file` catches only `json.JSONDecodeError` and `IOError`. A file that cannot be decoded as text raises `UnicodeDecodeError`, which escapes. A file holding a JSON value other than a list, such as an object, is returned as it is. The model has neither case: a file is missing, unreadable or a parsed list.
- `_save_json_file` and the data directory: the JSON mirror of history and leads is write-only for the model.
- `loadAudienceConfig`, the CSV download, and the `audienceConfig` prop: they feed nothing in the core.
- The navigation sidebar and the pages other than the three views, which are not part of this model.
- The `api/index.py` HTTP layer is not part of this model. `EndToEnd.ReplayRepeatsSearch` assumes, as a premise of the lemma, that the server records the request body as the history entry's `params`.
- The `scrape_tiktok` collection loop: it cannot be reached, because the actor lookup before it raises `KeyError`.
- The unused LinkedIn `search_url` and its URL quoting in `scrape_linkedin`.
- `uuid.uuid4()` and the clock are parameters (`tag`, `freshId`, `now`, `created`, `updated`, `stamp`, `isoTime`, `savedAt`). Their formats are not modelled.
- Concurrency: overlapping requests, and React's batched state updates and re-renders, are not modelled. Each handler is one atomic step on the state.
- Disabling the inputs while a search is loading, a presentation detail.
- Numbers are integers. Fractional counts and results of `Number()`, and JavaScript's coercion of numeric strings in comparisons such as `"5000" >= 1000`, are not modelled. `Compact` treats a non-number as text.
- `ResultsTable.Tenths`: `toFixed(1)` rounds the binary double. The model rounds the exact quotient half up, so the two can differ on a tie.
- `Js.CompareStrings`: `localeCompare` uses the locale's collation. The model compares by code point.
- `ResultsTable.Compare` and `ResultsTable.StableSort`: on a column that mixes numbers with non-empty strings the comparator is not a consistent order (`ResultsTable.MixedColumnCycle`). Section 23.1.3.30 of ECMA-262 then leaves the sort order implementation-defined. The model's insertion sort fixes one such order, so for those columns the order it proves is not the order a browser is bound to show.
- `Scraper.IsOrganization` and `Scraper.HasInnerCapital`: Python's `c.isupper()` is true for any upper-case Unicode letter, but `Js.IsUpper` accepts only `A` to `Z`. A one-word name such as `MüllerÖzil` is an organisation for the source and a person for the model.
- `App.LabelFor`: the date text of `new Date(item.timestamp).toLocaleDateString()` depends on the browser's locale and time zone, so it is the parameter `localeDate`. Its format, and the `Invalid Date` shown for a missing timestamp, are not modelled.
- `Js.IsSpace`: white space is the space and the characters 9 to 13. Python's `strip()` and `split()` also treat `\x1c`-`\x1f`, `\x85`, `\xa0` and the other Unicode spaces as white space, and JavaScript's `trim()` removes `\xa0`, `\ufeff` and the Unicode spaces but not `\x1c`-`\x1f`. Neither wider set is modelled, so the model's `trim` and `strip` agree only on text without those characters.
- `Js.Lower` lower-cases ASCII letters only. Unicode `lower`/`toLowerCase` is not modelled.
- JavaScript `===` on objects compares references. The model compares `Val`s structurally, in `App.SomeHasId` and in the `headline !== role` test of `DetailSidebar.HeadlineBlock` alike. Python's `1 == True` and `lead_id` comparisons across types are not modelled.
- Dataset items are typed: a field present with value `null` (which crashes `.strip()` or `in`), and non-dictionary items, are not modelled.
- `add_lead` mutates the dictionary passed to it, stamping `saved_at` in place. The model builds a new record.
- Remounting: `App.jsx` renders `SearchForm` only in the search view and `ResultsTable` only there and while there are results (frontend/src/App.jsx:205-221). Leaving the search view unmounts both and an empty result set unmounts the table; mounting either again starts its state (page and sort, or the form fields) from the initial values. The model keeps one `ResultsTable.TableState` and one `SearchForm.FormState` throughout, so it does not capture that reset.
- `DetailSidebar.PlatformColor`: for a name inherited from `Object.prototype` the class is the text of that member (a native function's source text, or `[object Object]` for `__proto__`). The model names the member and does not spell the text out.
