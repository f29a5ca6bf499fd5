/** Lead scraping: the platform dispatch, the actor inputs, the organisation filter and
    the shaping of dataset items into lead records. The actors and the environment
    are parameters; a dataset is the sequence of items an actor run produced. */
module Scraper {
  import opened Js

  // ------------------------------------------------------------ outcomes

  /** The exceptions the scraper lets escape. `ActorError` is whatever the actor call
      raised, passed on unchanged. */
  datatype ScrapeError = ValueError(message: string) | KeyError(key: string) | ActorError(message: string)

  datatype Result<T> = Success(value: T) | Failure(error: ScrapeError)

  /** The environment variables read through `os.getenv`. */
  datatype Env = Env(apifyToken: Option<string>, exaApiKey: Option<string>)

  /** What one actor run yields: the exception it raised, or its dataset. */
  datatype ActorRun<T> = RunFailed(message: string) | Dataset(items: seq<T>)

  /** The actor id per platform key. */
  const Actors: map<string, string> := map[
    "linkedin" := "fantastic-jobs/exa-ai-people-search",
    "x" := "kaitoeasyapi/twitter-x-data-tweet-scraper-pay-per-result-cheapest",
    "twitter" := "kaitoeasyapi/twitter-x-data-tweet-scraper-pay-per-result-cheapest"
  ]

  /** X and Twitter share one actor, and there is none for TikTok. */
  lemma ActorKeys()
    ensures Actors.Keys == {"linkedin", "x", "twitter"}
    ensures Actors["x"] == Actors["twitter"]
    ensures "tiktok" !in Actors
  {
  }

  const TokenMissing := "APIFY_API_TOKEN environment variable is required"
  const ExaKeyMissing := "EXA_API_KEY environment variable is required for LinkedIn search"
  const TelegramUnsupported :=
    "Telegram scraping requires specific channel names. Use LinkedIn, X, or TikTok for keyword-based search."

  /** `get_client()`: the token must be set and non-empty. */
  function ClientCheck(env: Env): (e: Option<ScrapeError>)
    ensures e.None? <==> env.apifyToken.Some? && env.apifyToken.value != ""
    ensures e.Some? ==> e.value == ValueError(TokenMissing)
  {
    if env.apifyToken.None? || env.apifyToken.value == "" then Some(ValueError(TokenMissing)) else None
  }

  /** `f"{keyword} {location}".strip() if location else keyword`. */
  function Query(keyword: string, location: string): (q: string)
    ensures location == "" ==> q == keyword
    ensures location != "" ==> q == Trim(keyword + " " + location)
  {
    if location != "" then Trim(keyword + " " + location) else keyword
  }

  /** With words that carry no white space at their ends, the query is the two words
      joined by one space; an empty keyword leaves the location alone. */
  lemma QueryJoins(keyword: string, location: string)
    requires keyword != "" && location != ""
    requires !IsSpace(keyword[0]) && !IsSpace(location[|location| - 1])
    ensures Query(keyword, location) == keyword + " " + location
  {
    var s := keyword + " " + location;
    assert s[0] == keyword[0] && s[|s| - 1] == location[|location| - 1];
    TrimIdentity(s);
  }

  lemma QueryWithoutKeyword(location: string)
    requires location != "" && !IsSpace(location[0]) && !IsSpace(location[|location| - 1])
    ensures Query("", location) == location
  {
    assert "" + " " + location == " " + location;
    TrimLeadingBlank(location);
  }

  // ------------------------------------------------------------ is_organization

  const OrgIndicators: seq<string> := [
    " inc", " ltd", " llc", " corp", " gmbh", " ag",
    "company", "group", "agency", "network", "foundation",
    "institute", "association", "university", "college"
  ]

  /** The number of white-space separated words, as `len(name.split())`. */
  function CountWords(s: string, inWord: bool): nat {
    if s == [] then 0
    else if IsSpace(s[0]) then CountWords(s[1..], false)
    else (if inWord then 0 else 1) + CountWords(s[1..], true)
  }

  function WordCount(s: string): nat {
    CountWords(s, false)
  }

  predicate HasIndicator(nameLower: string) {
    exists k :: 0 <= k < |OrgIndicators| && Contains(nameLower, OrgIndicators[k])
  }

  predicate HasInnerCapital(name: string) {
    exists k :: 1 <= k < |name| && IsUpper(name[k])
  }

  /** What `is_organization` decides: an indicator anywhere in the lower-cased name, or
      one word longer than three characters with a capital after the first. */
  predicate LooksLikeOrganization(name: string) {
    HasIndicator(Lower(name)) || (WordCount(name) == 1 && |name| > 3 && HasInnerCapital(name))
  }

  /** `is_organization(name, bio, headline)`: the two loops with their early returns.
      The bio and the headline are accepted and never read. */
  method IsOrganization(name: string, bio: string, headline: string) returns (r: bool)
    ensures r == LooksLikeOrganization(name)
  {
    var nameLower := Lower(name);
    for i := 0 to |OrgIndicators|
      invariant forall k :: 0 <= k < i ==> !Contains(nameLower, OrgIndicators[k])
    {
      if Contains(nameLower, OrgIndicators[i]) {
        return true;
      }
    }
    if WordCount(name) == 1 && |name| > 3 {
      for j := 1 to |name|
        invariant forall k :: 1 <= k < j ==> !IsUpper(name[k])
      {
        if IsUpper(name[j]) {
          return true;
        }
      }
    }
    return false;
  }

  lemma {:induction false} ContainsAt(s: string, sub: string, k: nat)
    requires k <= |s| && StartsWith(s[k..], sub)
    ensures Contains(s, sub)
    decreases k
  {
    if k > 0 {
      assert s[1..][k - 1..] == s[k..];
      ContainsAt(s[1..], sub, k - 1);
    }
  }

  /** A piece of the name whose lower-case form is an indicator makes the name an
      organisation's, wherever it sits. */
  lemma IndicatorAt(name: string, k: nat, j: nat)
    requires j < |OrgIndicators| && k + |OrgIndicators[j]| <= |name|
    requires Lower(name[k..k + |OrgIndicators[j]|]) == OrgIndicators[j]
    ensures LooksLikeOrganization(name)
  {
    var n := |OrgIndicators[j]|;
    LowerSlice(name, k, k + n);
    assert Lower(name)[k..][..n] == Lower(name)[k..k + n];
    ContainsAt(Lower(name), OrgIndicators[j], k);
  }

  /** A name ending in a legal form such as `" Inc"` or `" GmbH"`, in any case, is an
      organisation's. */
  lemma LegalSuffixIsOrganization(company: string, suffix: string, j: nat)
    requires j < 6 && Lower(suffix) == OrgIndicators[j]
    ensures LooksLikeOrganization(company + suffix)
  {
    var name := company + suffix;
    assert |suffix| == |OrgIndicators[j]|;
    assert name[|company|..|company| + |suffix|] == suffix;
    IndicatorAt(name, |company|, j);
  }

  /** The two-letter indicator `" ag"` also matches any later word starting with "Ag",
      so a person such as "Ana Agne" is taken for an organisation. */
  lemma AgSurnameIsOrganization(first: string, last: string)
    requires |last| >= 2 && LowerChar(last[0]) == 'a' && LowerChar(last[1]) == 'g'
    ensures LooksLikeOrganization(first + " " + last)
  {
    var name := first + " " + last;
    var k := |first|;
    var piece := name[k..k + 3];
    assert piece[0] == ' ' && piece[1] == last[0] && piece[2] == last[1];
    assert Lower(piece) == " ag" by {
      assert Lower(piece)[0] == ' ' && Lower(piece)[1] == 'a' && Lower(piece)[2] == 'g';
    }
    IndicatorAt(name, k, 5);
  }

  /** A text without white space is one word. */
  lemma {:induction false} OneWord(s: string, inWord: bool)
    requires forall i :: 0 <= i < |s| ==> !IsSpace(s[i])
    ensures CountWords(s, inWord) == if s == [] || inWord then 0 else 1
  {
    if s != [] {
      OneWord(s[1..], true);
    }
  }

  /** A single word longer than three characters with a capital after the first, such as
      "OpenAI", is taken for a brand. */
  lemma CamelCaseIsOrganization(name: string, k: nat)
    requires |name| > 3 && forall i :: 0 <= i < |name| ==> !IsSpace(name[i])
    requires 1 <= k < |name| && IsUpper(name[k])
    ensures LooksLikeOrganization(name)
  {
    OneWord(name, false);
  }

  // ------------------------------------------------------------ LinkedIn

  /** A dataset item of the people-search actor; `None` is a missing key. */
  datatype ProfileItem = ProfileItem(
    author: Option<string>, name: Option<string>, title: Option<string>,
    text: Option<string>, url: Option<string>)

  /** `item.get("author", item.get("name", "")).strip()`. */
  function FullName(item: ProfileItem): (n: string)
    ensures item.author.Some? ==> n == Trim(item.author.value)
    ensures item.author.None? && item.name.Some? ==> n == Trim(item.name.value)
    ensures item.author.None? && item.name.None? ==> n == ""
  {
    Trim(item.author.GetOr(item.name.GetOr("")))
  }

  /** The text after the first `|` of the title, stripped; `""` without a `|`. */
  function Headline(title: string): (h: string)
    ensures '|' !in title ==> h == ""
    ensures IndexOf(title, '|').Some? ==> h == Trim(title[IndexOf(title, '|').value + 1..])
  {
    var bar := IndexOf(title, '|');
    if bar.None? then "" else Trim(title[bar.value + 1..])
  }

  /** A title `"<name> | <headline>"` yields the headline, for a name without a bar
      and a headline without white space at its ends. */
  lemma HeadlineAfterBar(name: string, headline: string)
    requires '|' !in name
    requires headline != "" && !IsSpace(headline[0]) && !IsSpace(headline[|headline| - 1])
    ensures Headline(name + " | " + headline) == headline
  {
    var t := name + " | " + headline;
    BarAfterName(name, headline);
    TextAfterBar(name, headline);
    TrimLeadingBlank(headline);
  }

  lemma TextAfterBar(name: string, rest: string)
    ensures (name + " | " + rest)[|name| + 2..] == " " + rest
  {
  }

  /** The bar of `"<name> | <rest>"` is the first one when the name has none. */
  lemma BarAfterName(name: string, rest: string)
    requires '|' !in name
    ensures IndexOf(name + " | " + rest, '|') == Some(|name| + 1)
  {
    var t := name + " | " + rest;
    assert t[|name| + 1] == '|' && t[..|name| + 1] == name + " ";
    IndexOfFirst(t, '|', |name| + 1);
  }

  /** Stripping a blank followed by a text with clean ends gives the text. */
  lemma TrimLeadingBlank(s: string)
    requires s != [] && !IsSpace(s[0]) && !IsSpace(s[|s| - 1])
    ensures Trim(" " + s) == s
  {
    var t := " " + s;
    assert t[1..] == s;
    assert LeadingSpace(s) == 0 && TrailingSpace(s) == 0;
    assert LeadingSpace(t) == 1;
  }

  /** The region: Berlin beats Germany, which beats the searched location. */
  function RegionFor(bio: string, location: string): (r: string)
    ensures Contains(bio, "Berlin") ==> r == "Berlin, Germany"
    ensures !Contains(bio, "Berlin") && Contains(bio, "Germany") ==> r == "Germany"
    ensures !Contains(bio, "Berlin") && !Contains(bio, "Germany") ==> r == location
  {
    if Contains(bio, "Berlin") then "Berlin, Germany"
    else if Contains(bio, "Germany") then "Germany"
    else location
  }

  /** `bio[:500] if bio else ""`. */
  function Truncated(bio: string): (b: string)
    ensures |b| <= 500 && |b| <= |bio| && b == bio[..|b|]
    ensures |bio| <= 500 ==> b == bio
    ensures |bio| > 500 ==> |b| == 500
  {
    if |bio| <= 500 then bio else bio[..500]
  }

  /** The lead built from an item that passed both filters. */
  function ProfileLead(item: ProfileItem, keyword: string, location: string, id: string): (lead: Record)
    ensures {"id", "name", "role", "headline", "platform", "followers", "region", "bio", "notes"} <= lead.Keys
    ensures "members" !in lead
    ensures lead["id"] == Str(id) && lead["name"] == Str(FullName(item))
    ensures lead["platform"] == Str("LinkedIn") && lead["followers"] == Num(0)
    ensures lead["role"] == lead["headline"] == Str(Headline(item.title.GetOr("")))
    ensures lead["region"] == Str(RegionFor(item.text.GetOr(""), location))
    ensures lead["bio"] == Str(Truncated(item.text.GetOr("")))
    ensures lead["bio"].Str? && |lead["bio"].s| <= 500
    ensures lead["notes"] == Str(keyword)
  {
    var headline := Headline(item.title.GetOr(""));
    var bio := item.text.GetOr("");
    map["id" := Str(id),
        "name" := Str(FullName(item)),
        "role" := Str(headline),
        "company" := Str(""),
        "platform" := Str("LinkedIn"),
        "contact_link" := Str(item.url.GetOr("")),
        "region" := Str(RegionFor(bio, location)),
        "notes" := Str(keyword),
        "followers" := Num(0),
        "industry" := Str(""),
        "headline" := Str(headline),
        "bio" := Str(Truncated(bio))]
  }

  /** The rest of a LinkedIn lead: exactly the twelve keys, the profile URL as the
      contact link, and no company or industry. */
  lemma ProfileLeadFields(item: ProfileItem, keyword: string, location: string, id: string)
    ensures var lead := ProfileLead(item, keyword, location, id);
      && lead.Keys == {"id", "name", "role", "company", "platform", "contact_link", "region",
                       "notes", "followers", "industry", "headline", "bio"}
      && lead["contact_link"] == Str(item.url.GetOr(""))
      && lead["company"] == lead["industry"] == Str("")
  {
  }

  /** An item the loop skips: no usable name, or an organisation. */
  predicate SkippedProfile(item: ProfileItem) {
    var name := FullName(item);
    name == "" || name == "Unknown" || LooksLikeOrganization(name)
  }

  /** The leads of the LinkedIn loop over the remaining items, `count` leads already
      made; the cap is checked before each item is looked at. `tag(k)` stands for the
      eight hex digits of the k-th lead's UUID. */
  function Profiles(items: seq<ProfileItem>, keyword: string, location: string, maxResults: int,
                    tag: nat -> string, count: nat): seq<Record>
  {
    if items == [] || count >= maxResults then []
    else if SkippedProfile(items[0]) then Profiles(items[1..], keyword, location, maxResults, tag, count)
    else [ProfileLead(items[0], keyword, location, "li_" + tag(count))]
         + Profiles(items[1..], keyword, location, maxResults, tag, count + 1)
  }

  /** A LinkedIn lead as the loop emits it. */
  predicate ShapedProfile(lead: Record) {
    && "name" in lead && lead["name"].Str?
    && lead["name"].s != "" && lead["name"].s != "Unknown"
    && !LooksLikeOrganization(lead["name"].s)
    && "platform" in lead && lead["platform"] == Str("LinkedIn")
    && "role" in lead && "headline" in lead && lead["role"] == lead["headline"]
    && "followers" in lead && lead["followers"] == Num(0)
    && "bio" in lead && lead["bio"].Str? && |lead["bio"].s| <= 500
  }

  /** The loop stops at the cap, so there are never more leads than `max_results`,
      and none at all when it is zero or less. */
  lemma {:induction false} ProfilesBound(items: seq<ProfileItem>, keyword: string, location: string,
                                          maxResults: int, tag: nat -> string, count: nat)
    ensures |Profiles(items, keyword, location, maxResults, tag, count)| <= Max0(maxResults - count)
  {
    if items != [] && count < maxResults {
      ProfilesBound(items[1..], keyword, location, maxResults, tag, count);
      ProfilesBound(items[1..], keyword, location, maxResults, tag, count + 1);
    }
  }

  function Max0(n: int): nat { if n > 0 then n else 0 }

  /** Every emitted lead has a usable personal name, the LinkedIn platform, the
      headline as its role, no followers and a bio of at most 500 characters. */
  lemma {:induction false} ProfilesShaped(items: seq<ProfileItem>, keyword: string, location: string,
                                           maxResults: int, tag: nat -> string, count: nat)
    ensures forall k :: 0 <= k < |Profiles(items, keyword, location, maxResults, tag, count)| ==>
              ShapedProfile(Profiles(items, keyword, location, maxResults, tag, count)[k])
  {
    if items != [] && count < maxResults {
      if SkippedProfile(items[0]) {
        ProfilesShaped(items[1..], keyword, location, maxResults, tag, count);
      } else {
        ProfilesShaped(items[1..], keyword, location, maxResults, tag, count + 1);
        var lead := ProfileLead(items[0], keyword, location, "li_" + tag(count));
        var rest := Profiles(items[1..], keyword, location, maxResults, tag, count + 1);
        LeadShaped(items[0], keyword, location, "li_" + tag(count));
        ShapedCons(lead, rest);
      }
    }
  }

  /** The lead of a kept item has the emitted shape. */
  lemma LeadShaped(item: ProfileItem, keyword: string, location: string, id: string)
    requires !SkippedProfile(item)
    ensures ShapedProfile(ProfileLead(item, keyword, location, id))
  {
  }

  lemma ShapedCons(lead: Record, rest: seq<Record>)
    requires ShapedProfile(lead)
    requires forall k :: 0 <= k < |rest| ==> ShapedProfile(rest[k])
    ensures forall k :: 0 <= k < |[lead] + rest| ==> ShapedProfile(([lead] + rest)[k])
  {
    forall k | 0 <= k < |[lead] + rest|
      ensures ShapedProfile(([lead] + rest)[k])
    {
      if k > 0 {
        assert ([lead] + rest)[k] == rest[k - 1];
      }
    }
  }

  /** The actor input for the people search. */
  datatype LinkedInInput = LinkedInInput(query: string, exaApiKey: string, maxResults: int)

  /** Below the cap, the LinkedIn loop passes over a skipped item. */
  lemma ProfilesSkip(done: seq<Record>, items: seq<ProfileItem>, i: nat, keyword: string, location: string,
                     maxResults: int, tag: nat -> string, count: nat, whole: seq<Record>)
    requires i < |items| && count < maxResults && SkippedProfile(items[i])
    requires done + Profiles(items[i..], keyword, location, maxResults, tag, count) == whole
    ensures done + Profiles(items[i + 1..], keyword, location, maxResults, tag, count) == whole
  {
    assert items[i..][0] == items[i] && items[i..][1..] == items[i + 1..];
  }

  /** Below the cap, the LinkedIn loop emits the lead of an item it keeps and goes on
      with one lead more. */
  lemma ProfilesEmit(done: seq<Record>, items: seq<ProfileItem>, i: nat, keyword: string, location: string,
                     maxResults: int, tag: nat -> string, count: nat, whole: seq<Record>)
    requires i < |items| && count < maxResults && !SkippedProfile(items[i])
    requires done + Profiles(items[i..], keyword, location, maxResults, tag, count) == whole
    ensures (done + [ProfileLead(items[i], keyword, location, "li_" + tag(count))])
            + Profiles(items[i + 1..], keyword, location, maxResults, tag, count + 1) == whole
  {
    var here := items[i..];
    assert here[0] == items[i] && here[1..] == items[i + 1..];
    ProfilesKept(here, keyword, location, maxResults, tag, count);
    var lead := ProfileLead(items[i], keyword, location, "li_" + tag(count));
    var rest := Profiles(items[i + 1..], keyword, location, maxResults, tag, count + 1);
    assert (done + [lead]) + rest == done + ([lead] + rest);
  }

  /** Below the cap, a kept item yields its lead, and the rest follows with one lead
      more. */
  lemma ProfilesKept(items: seq<ProfileItem>, keyword: string, location: string, maxResults: int,
                     tag: nat -> string, count: nat)
    requires items != [] && count < maxResults && !SkippedProfile(items[0])
    ensures Profiles(items, keyword, location, maxResults, tag, count) ==
            [ProfileLead(items[0], keyword, location, "li_" + tag(count))] +
            Profiles(items[1..], keyword, location, maxResults, tag, count + 1)
  {
  }

  /** The body of the LinkedIn loop for one item below the cap: the two skips, then
      the lead. */
  method ShapeProfile(item: ProfileItem, keyword: string, location: string, id: string)
    returns (lead: Option<Record>)
    ensures lead.None? <==> SkippedProfile(item)
    ensures lead.Some? ==> lead.value == ProfileLead(item, keyword, location, id)
  {
    var fullName := FullName(item);
    if fullName == "" || fullName == "Unknown" {
      return None;
    }
    var title := item.title.GetOr("");
    var headline := Headline(title);
    var bio := item.text.GetOr("");
    var organization := IsOrganization(fullName, bio, headline);
    if organization {
      return None;
    }
    return Some(ProfileLead(item, keyword, location, id));
  }

  /** The loop of `scrape_linkedin` over the dataset items. */
  method CollectProfiles(items: seq<ProfileItem>, keyword: string, location: string, maxResults: int,
                         tag: nat -> string)
    returns (results: seq<Record>)
    ensures results == Profiles(items, keyword, location, maxResults, tag, 0)
  {
    ghost var whole := Profiles(items, keyword, location, maxResults, tag, 0);
    results := [];
    var count := 0;
    var i := 0;
    assert items[i..] == items;
    while i < |items|
      invariant 0 <= i <= |items|
      invariant count == |results|
      invariant results + Profiles(items[i..], keyword, location, maxResults, tag, count) == whole
    {
      if count >= maxResults {
        break;
      }
      var lead := ShapeProfile(items[i], keyword, location, "li_" + tag(count));
      if lead.Some? {
        ProfilesEmit(results, items, i, keyword, location, maxResults, tag, count, whole);
        results := results + [lead.value];
        count := count + 1;
      } else {
        ProfilesSkip(results, items, i, keyword, location, maxResults, tag, count, whole);
      }
      i := i + 1;
    }
    assert results + [] == results;
  }

  /** What `scrape_linkedin` returns: the client and key checks, then the actor run and
      the leads of its items. Whatever it succeeds with respects the cap and the lead
      shape. */
  function LinkedInOutcome(env: Env, keyword: string, location: string, maxResults: int,
                           actor: LinkedInInput -> ActorRun<ProfileItem>, tag: nat -> string)
    : (r: Result<seq<Record>>)
    ensures r.Success? ==> |r.value| <= Max0(maxResults) &&
                           forall k :: 0 <= k < |r.value| ==> ShapedProfile(r.value[k])
  {
    if ClientCheck(env).Some? then Failure(ClientCheck(env).value)
    else if env.exaApiKey.None? || env.exaApiKey.value == "" then Failure(ValueError(ExaKeyMissing))
    else
      var run := actor(LinkedInInput(Query(keyword, location), env.exaApiKey.value, maxResults));
      if run.RunFailed? then Failure(ActorError(run.message))
      else
        ProfilesBound(run.items, keyword, location, maxResults, tag, 0);
        ProfilesShaped(run.items, keyword, location, maxResults, tag, 0);
        Success(Profiles(run.items, keyword, location, maxResults, tag, 0))
  }

  /** `scrape_linkedin(keyword, location, max_results)`. */
  method ScrapeLinkedIn(env: Env, keyword: string, location: string, maxResults: int,
                        actor: LinkedInInput -> ActorRun<ProfileItem>, tag: nat -> string)
    returns (r: Result<seq<Record>>)
    ensures ClientCheck(env).Some? ==> r == Failure(ClientCheck(env).value)
    ensures ClientCheck(env).None? && (env.exaApiKey.None? || env.exaApiKey.value == "") ==>
              r == Failure(ValueError(ExaKeyMissing))
    ensures ClientCheck(env).None? && env.exaApiKey.Some? && env.exaApiKey.value != "" ==>
              var run := actor(LinkedInInput(Query(keyword, location), env.exaApiKey.value, maxResults));
              (run.RunFailed? ==> r == Failure(ActorError(run.message))) &&
              (run.Dataset? ==> r == Success(Profiles(run.items, keyword, location, maxResults, tag, 0)))
    ensures r == LinkedInOutcome(env, keyword, location, maxResults, actor, tag)
  {
    var clientError := ClientCheck(env);
    if clientError.Some? {
      return Failure(clientError.value);
    }
    if env.exaApiKey.None? || env.exaApiKey.value == "" {
      return Failure(ValueError(ExaKeyMissing));
    }
    var query := if location != "" then Trim(keyword + " " + location) else keyword;
    var run := actor(LinkedInInput(query, env.exaApiKey.value, maxResults));
    if run.RunFailed? {
      return Failure(ActorError(run.message));
    }
    var results := CollectProfiles(run.items, keyword, location, maxResults, tag);
    return Success(results);
  }

  // ------------------------------------------------------------ X / Twitter

  /** The `author` object of a tweet; `None` is a missing key. */
  datatype Author = Author(
    userName: Option<string>, name: Option<string>, location: Option<string>,
    followers: Option<Val>, isBlueVerified: Option<Val>, isVerified: Option<Val>,
    description: Option<string>)

  /** A tweet; a missing `author` reads as `{}`. */
  datatype TweetItem = TweetItem(author: Option<Author>)

  /** The tweet's author, `{}` when it has none. */
  function AuthorOf(item: TweetItem): (a: Author)
    ensures item.author.Some? ==> a == item.author.value
    ensures item.author.None? ==> a.userName.None? && a.name.None? && a.location.None? &&
                                  a.followers.None? && a.isBlueVerified.None? &&
                                  a.isVerified.None? && a.description.None?
  {
    item.author.GetOr(Author(None, None, None, None, None, None, None))
  }

  function UserName(item: TweetItem): string {
    AuthorOf(item).userName.GetOr("")
  }

  /** The lead built from a tweet whose author is new. */
  function TweetLead(item: TweetItem, keyword: string, location: string, id: string): (lead: Record)
    ensures {"id", "platform", "role", "contact_link", "notes"} <= lead.Keys
    ensures lead["id"] == Str(id) && lead["platform"] == Str("X")
    ensures lead["role"] == Str("@" + UserName(item))
    ensures lead["contact_link"] == Str("https://x.com/" + UserName(item))
    ensures lead["notes"] == Str(keyword)
  {
    var a := AuthorOf(item);
    var user := UserName(item);
    map["id" := Str(id),
        "name" := Str(a.name.GetOr("Unknown")),
        "role" := Str("@" + user),
        "company" := Str(""),
        "platform" := Str("X"),
        "contact_link" := Str("https://x.com/" + user),
        "region" := Str(a.location.GetOr(location)),
        "notes" := Str(keyword),
        "followers" := a.followers.GetOr(Num(0)),
        "verified" := a.isBlueVerified.GetOr(a.isVerified.GetOr(Bool(false))),
        "bio" := Str(a.description.GetOr(""))]
  }

  /** The rest of a Twitter lead: no company, and each author field copied when the
      author has it, with `Unknown`, the searched location, `0`, then `isVerified`, then
      `false`, and an empty bio as the fallbacks. */
  lemma TweetLeadFields(item: TweetItem, keyword: string, location: string, id: string)
    ensures var lead := TweetLead(item, keyword, location, id);
      && lead.Keys == {"id", "name", "role", "company", "platform", "contact_link", "region",
                       "notes", "followers", "verified", "bio"}
      && lead["company"] == Str("")
      && (AuthorOf(item).name.Some? ==> lead["name"] == Str(AuthorOf(item).name.value))
      && (AuthorOf(item).name.None? ==> lead["name"] == Str("Unknown"))
      && (AuthorOf(item).location.Some? ==> lead["region"] == Str(AuthorOf(item).location.value))
      && (AuthorOf(item).location.None? ==> lead["region"] == Str(location))
      && (AuthorOf(item).followers.Some? ==> lead["followers"] == AuthorOf(item).followers.value)
      && (AuthorOf(item).followers.None? ==> lead["followers"] == Num(0))
      && (AuthorOf(item).isBlueVerified.Some? ==> lead["verified"] == AuthorOf(item).isBlueVerified.value)
      && (AuthorOf(item).isBlueVerified.None? && AuthorOf(item).isVerified.Some? ==> lead["verified"] == AuthorOf(item).isVerified.value)
      && (AuthorOf(item).isBlueVerified.None? && AuthorOf(item).isVerified.None? ==> lead["verified"] == Bool(false))
      && (AuthorOf(item).description.Some? ==> lead["bio"] == Str(AuthorOf(item).description.value))
      && (AuthorOf(item).description.None? ==> lead["bio"] == Str(""))
  {
  }

  /** The leads of the Twitter loop over the remaining items: authors without a user
      name or already `seen` are skipped, and the cap is checked after each lead, so the
      first new author's lead is kept even when the cap is zero or less. */
  function Tweets(items: seq<TweetItem>, keyword: string, location: string, maxResults: int,
                  tag: nat -> string, seen: set<string>, count: nat): seq<Record>
  {
    if items == [] then []
    else
      var user := UserName(items[0]);
      if user == "" || user in seen then Tweets(items[1..], keyword, location, maxResults, tag, seen, count)
      else
        var lead := TweetLead(items[0], keyword, location, "x_" + tag(count));
        if count + 1 >= maxResults then [lead]
        else [lead] + Tweets(items[1..], keyword, location, maxResults, tag, seen + {user}, count + 1)
  }

  /** The Twitter loop passes over a tweet without an author name or by an author
      already seen. */
  lemma TweetsSkip(done: seq<Record>, items: seq<TweetItem>, i: nat, keyword: string, location: string,
                   maxResults: int, tag: nat -> string, seen: set<string>, whole: seq<Record>)
    requires i < |items| && (UserName(items[i]) == "" || UserName(items[i]) in seen)
    requires done + Tweets(items[i..], keyword, location, maxResults, tag, seen, |done|) == whole
    ensures done + Tweets(items[i + 1..], keyword, location, maxResults, tag, seen, |done|) == whole
  {
    assert items[i..][0] == items[i] && items[i..][1..] == items[i + 1..];
  }

  /** The Twitter loop emits the lead of a new author and goes on below the cap. */
  lemma TweetsEmit(done: seq<Record>, items: seq<TweetItem>, i: nat, keyword: string, location: string,
                   maxResults: int, tag: nat -> string, seen: set<string>, whole: seq<Record>)
    requires i < |items| && UserName(items[i]) != "" && UserName(items[i]) !in seen
    requires |done| + 1 < maxResults
    requires done + Tweets(items[i..], keyword, location, maxResults, tag, seen, |done|) == whole
    ensures (var next := done + [TweetLead(items[i], keyword, location, "x_" + tag(|done|))];
             next + Tweets(items[i + 1..], keyword, location, maxResults, tag, seen + {UserName(items[i])}, |next|)
             == whole)
  {
    var here := items[i..];
    assert here[0] == items[i] && here[1..] == items[i + 1..];
    TweetsNewAuthor(here, keyword, location, maxResults, tag, seen, |done|);
    var lead := TweetLead(items[i], keyword, location, "x_" + tag(|done|));
    var rest := Tweets(items[i + 1..], keyword, location, maxResults, tag, seen + {UserName(items[i])}, |done| + 1);
    assert (done + [lead]) + rest == done + ([lead] + rest);
  }

  /** A new author below the cap yields its lead, and the rest follows with the
      author seen. */
  lemma TweetsNewAuthor(items: seq<TweetItem>, keyword: string, location: string, maxResults: int,
                        tag: nat -> string, seen: set<string>, count: nat)
    requires items != [] && UserName(items[0]) != "" && UserName(items[0]) !in seen
    requires count + 1 < maxResults
    ensures Tweets(items, keyword, location, maxResults, tag, seen, count) ==
            [TweetLead(items[0], keyword, location, "x_" + tag(count))] +
            Tweets(items[1..], keyword, location, maxResults, tag, seen + {UserName(items[0])}, count + 1)
  {
  }

  /** The Twitter loop emits the lead of a new author and stops once the cap is
      reached. */
  lemma TweetsLast(done: seq<Record>, items: seq<TweetItem>, i: nat, keyword: string, location: string,
                   maxResults: int, tag: nat -> string, seen: set<string>, whole: seq<Record>)
    requires i < |items| && UserName(items[i]) != "" && UserName(items[i]) !in seen
    requires |done| + 1 >= maxResults
    requires done + Tweets(items[i..], keyword, location, maxResults, tag, seen, |done|) == whole
    ensures done + [TweetLead(items[i], keyword, location, "x_" + tag(|done|))] == whole
  {
    assert items[i..][0] == items[i] && items[i..][1..] == items[i + 1..];
  }

  /** The user name a Twitter lead was made for, read back from its role. */
  function UserOf(lead: Record): string {
    if "role" in lead && lead["role"].Str? && |lead["role"].s| >= 1 then lead["role"].s[1..] else ""
  }

  lemma RoleNamesUser(item: TweetItem, keyword: string, location: string, id: string)
    ensures UserOf(TweetLead(item, keyword, location, id)) == UserName(item)
  {
    assert ("@" + UserName(item))[1..] == UserName(item);
  }

  /** The leads' user names are non-empty, outside `seen` and pairwise different. */
  predicate NewDistinctUsers(r: seq<Record>, seen: set<string>) {
    && (forall k :: 0 <= k < |r| ==> UserOf(r[k]) != "" && UserOf(r[k]) !in seen)
    && (forall i, j :: 0 <= i < j < |r| ==> UserOf(r[i]) != UserOf(r[j]))
  }

  /** Every emitted author is a new, non-empty user name, and no author appears twice. */
  lemma {:induction false} TweetsDistinct(items: seq<TweetItem>, keyword: string, location: string,
                                           maxResults: int, tag: nat -> string, seen: set<string>, count: nat)
    ensures NewDistinctUsers(Tweets(items, keyword, location, maxResults, tag, seen, count), seen)
  {
    if items != [] {
      var user := UserName(items[0]);
      if user == "" || user in seen {
        TweetsDistinct(items[1..], keyword, location, maxResults, tag, seen, count);
      } else {
        var lead := TweetLead(items[0], keyword, location, "x_" + tag(count));
        RoleNamesUser(items[0], keyword, location, "x_" + tag(count));
        if count + 1 >= maxResults {
          DistinctCons(lead, [], seen);
          assert [lead] + [] == [lead];
        } else {
          TweetsDistinct(items[1..], keyword, location, maxResults, tag, seen + {user}, count + 1);
          DistinctCons(lead, Tweets(items[1..], keyword, location, maxResults, tag, seen + {user}, count + 1), seen);
        }
      }
    }
  }

  /** A lead by a new author in front of leads by other new authors. */
  lemma DistinctCons(lead: Record, rest: seq<Record>, seen: set<string>)
    requires UserOf(lead) != "" && UserOf(lead) !in seen
    requires NewDistinctUsers(rest, seen + {UserOf(lead)})
    ensures NewDistinctUsers([lead] + rest, seen)
  {
    var r := [lead] + rest;
    forall k | 1 <= k < |r|
      ensures r[k] == rest[k - 1]
    {
    }
  }

  /** The cap is checked after a lead is added: never more than `max_results` leads,
      and the bound never drops below one, even for a cap of zero or less. */
  lemma {:induction false} TweetsBound(items: seq<TweetItem>, keyword: string, location: string,
                                        maxResults: int, tag: nat -> string, seen: set<string>, count: nat)
    ensures |Tweets(items, keyword, location, maxResults, tag, seen, count)| <= if maxResults - count > 1 then maxResults - count else 1
  {
    if items != [] {
      var user := UserName(items[0]);
      if user == "" || user in seen {
        TweetsBound(items[1..], keyword, location, maxResults, tag, seen, count);
      } else if count + 1 < maxResults {
        TweetsBound(items[1..], keyword, location, maxResults, tag, seen + {user}, count + 1);
      }
    }
  }

  /** A dataset holding a tweet by a named author not yet seen yields at least one lead,
      whatever the cap. */
  lemma {:induction false} TweetsKeepFirst(items: seq<TweetItem>, keyword: string, location: string,
                                            maxResults: int, tag: nat -> string, seen: set<string>, count: nat)
    requires exists k :: 0 <= k < |items| && UserName(items[k]) != "" && UserName(items[k]) !in seen
    ensures |Tweets(items, keyword, location, maxResults, tag, seen, count)| >= 1
  {
    var user := UserName(items[0]);
    if user == "" || user in seen {
      var k :| 0 <= k < |items| && UserName(items[k]) != "" && UserName(items[k]) !in seen;
      assert k != 0;
      assert items[1..][k - 1] == items[k];
      TweetsKeepFirst(items[1..], keyword, location, maxResults, tag, seen, count);
    }
  }

  /** The actor input for the tweet search. */
  datatype TwitterInput = TwitterInput(twitterContent: string, maxItems: int, queryType: string)

  function TwitterRunInput(keyword: string, location: string, maxResults: int): (input: TwitterInput)
    ensures input.twitterContent == Query(keyword, location) && input.queryType == "Top"
    ensures input.maxItems >= 20 && input.maxItems >= 3 * maxResults
    ensures input.maxItems == 20 || input.maxItems == 3 * maxResults
  {
    TwitterInput(Query(keyword, location), if 3 * maxResults > 20 then 3 * maxResults else 20, "Top")
  }

  /** The loop of `scrape_twitter` over the dataset items. */
  method CollectTweets(items: seq<TweetItem>, keyword: string, location: string, maxResults: int,
                       tag: nat -> string)
    returns (results: seq<Record>)
    ensures results == Tweets(items, keyword, location, maxResults, tag, {}, 0)
  {
    ghost var whole := Tweets(items, keyword, location, maxResults, tag, {}, 0);
    results := [];
    var seenUsers: set<string> := {};
    var i := 0;
    assert items[0..] == items;
    while i < |items|
      invariant 0 <= i <= |items|
      invariant results + Tweets(items[i..], keyword, location, maxResults, tag, seenUsers, |results|) == whole
    {
      var item := items[i];
      var userName := UserName(item);
      if userName == "" || userName in seenUsers {
        TweetsSkip(results, items, i, keyword, location, maxResults, tag, seenUsers, whole);
        i := i + 1;
        continue;
      }
      if |results| + 1 >= maxResults {
        TweetsLast(results, items, i, keyword, location, maxResults, tag, seenUsers, whole);
      } else {
        TweetsEmit(results, items, i, keyword, location, maxResults, tag, seenUsers, whole);
      }
      var lead := TweetLead(item, keyword, location, "x_" + tag(|results|));
      seenUsers := seenUsers + {userName};
      results := results + [lead];
      i := i + 1;
      if |results| >= maxResults {
        break;
      }
    }
    assert results + [] == results;
  }

  /** What `scrape_twitter` returns: the client check, then the actor run and the leads
      of its items. Whatever it succeeds with has at most `max_results` leads (the
      bound never drops below one) with distinct user names. */
  function TwitterOutcome(env: Env, keyword: string, location: string, maxResults: int,
                          actor: TwitterInput -> ActorRun<TweetItem>, tag: nat -> string)
    : (r: Result<seq<Record>>)
    ensures r.Success? ==> |r.value| <= (if maxResults > 1 then maxResults else 1) &&
                           NewDistinctUsers(r.value, {})
    ensures r.Success? ==> var run := actor(TwitterRunInput(keyword, location, maxResults));
                           run.Dataset? &&
                           ((exists k :: 0 <= k < |run.items| && UserName(run.items[k]) != "") ==> |r.value| >= 1)
  {
    if ClientCheck(env).Some? then Failure(ClientCheck(env).value)
    else
      var run := actor(TwitterRunInput(keyword, location, maxResults));
      if run.RunFailed? then Failure(ActorError(run.message))
      else
        TweetsBound(run.items, keyword, location, maxResults, tag, {}, 0);
        TweetsDistinct(run.items, keyword, location, maxResults, tag, {}, 0);
        if exists k :: 0 <= k < |run.items| && UserName(run.items[k]) != "" then
          TweetsKeepFirst(run.items, keyword, location, maxResults, tag, {}, 0);
          Success(Tweets(run.items, keyword, location, maxResults, tag, {}, 0))
        else
          Success(Tweets(run.items, keyword, location, maxResults, tag, {}, 0))
  }

  /** `scrape_twitter(keyword, location, max_results)`. */
  method ScrapeTwitter(env: Env, keyword: string, location: string, maxResults: int,
                       actor: TwitterInput -> ActorRun<TweetItem>, tag: nat -> string)
    returns (r: Result<seq<Record>>)
    ensures ClientCheck(env).Some? ==> r == Failure(ClientCheck(env).value)
    ensures ClientCheck(env).None? ==>
              var run := actor(TwitterRunInput(keyword, location, maxResults));
              (run.RunFailed? ==> r == Failure(ActorError(run.message))) &&
              (run.Dataset? ==> r == Success(Tweets(run.items, keyword, location, maxResults, tag, {}, 0)))
    ensures r == TwitterOutcome(env, keyword, location, maxResults, actor, tag)
  {
    var clientError := ClientCheck(env);
    if clientError.Some? {
      return Failure(clientError.value);
    }
    var query := if location != "" then Trim(keyword + " " + location) else keyword;
    var maxItems := if maxResults * 3 > 20 then maxResults * 3 else 20;
    var run := actor(TwitterInput(query, maxItems, "Top"));
    if run.RunFailed? {
      return Failure(ActorError(run.message));
    }
    var results := CollectTweets(run.items, keyword, location, maxResults, tag);
    return Success(results);
  }

  // ------------------------------------------------------------ dispatch

  /** `scrape_tiktok`: after the token check its actor lookup fails, since there is no
      TikTok actor. */
  function ScrapeTikTok(env: Env): (r: Result<seq<Record>>)
    ensures r.Failure?
    ensures ClientCheck(env).Some? ==> r == Failure(ValueError(TokenMissing))
    ensures ClientCheck(env).None? ==> r == Failure(KeyError("tiktok"))
  {
    ActorKeys();
    if ClientCheck(env).Some? then Failure(ClientCheck(env).value)
    else Failure(KeyError("tiktok"))
  }

  lemma NamesDistinct()
    ensures "linkedin" != "x" && "linkedin" != "twitter" && "linkedin" != "tiktok" && "linkedin" != "telegram"
    ensures "x" != "twitter" && "x" != "tiktok" && "x" != "telegram"
    ensures "twitter" != "tiktok" && "twitter" != "telegram" && "tiktok" != "telegram"
  {
    assert "linkedin"[0] == 'l' && "x"[0] == 'x' && "twitter"[0] == 't';
    assert "twitter"[1] == 'w' && "tiktok"[1] == 'i' && "telegram"[1] == 'e';
  }

  datatype Route = ToLinkedIn | ToTwitter | ToTikTok | Rejected(message: string)

  /** The branch `scrape_leads` takes for a platform name, compared lower-cased. */
  function RouteFor(platform: string): (route: Route)
    ensures route == ToLinkedIn <==> Lower(platform) == "linkedin"
    ensures route == ToTwitter <==> Lower(platform) in {"x", "twitter"}
    ensures route == ToTikTok <==> Lower(platform) == "tiktok"
    ensures Lower(platform) == "telegram" ==> route == Rejected(TelegramUnsupported)
    ensures Lower(platform) !in {"linkedin", "x", "twitter", "tiktok", "telegram"} ==>
              route == Rejected("Unknown platform: " + Lower(platform) + ". Use: linkedin, x, tiktok")
  {
    NamesDistinct();
    var p := Lower(platform);
    if p == "linkedin" then ToLinkedIn
    else if p in {"x", "twitter"} then ToTwitter
    else if p == "tiktok" then ToTikTok
    else if p == "telegram" then Rejected(TelegramUnsupported)
    else Rejected("Unknown platform: " + p + ". Use: linkedin, x, tiktok")
  }

  /** The dispatch ignores case: a name takes the branch of its lower-case form. */
  lemma RouteIgnoresCase(platform: string)
    ensures RouteFor(platform) == RouteFor(Lower(platform))
  {
    LowerIdempotent(platform);
  }

  /** `scrape_leads(keyword, location, platform, max_results)`. */
  method ScrapeLeads(env: Env, keyword: string, location: string, platform: string, maxResults: int,
                     linkedIn: LinkedInInput -> ActorRun<ProfileItem>,
                     twitter: TwitterInput -> ActorRun<TweetItem>, tag: nat -> string)
    returns (r: Result<seq<Record>>)
    ensures RouteFor(platform).Rejected? ==> r == Failure(ValueError(RouteFor(platform).message))
    ensures RouteFor(platform) == ToTikTok ==> r == ScrapeTikTok(env)
    ensures RouteFor(platform) == ToLinkedIn ==> r == LinkedInOutcome(env, keyword, location, maxResults, linkedIn, tag)
    ensures RouteFor(platform) == ToTwitter ==> r == TwitterOutcome(env, keyword, location, maxResults, twitter, tag)
    ensures RouteFor(platform) == ToLinkedIn && r.Success? ==>
              |r.value| <= Max0(maxResults) &&
              forall k :: 0 <= k < |r.value| ==> ShapedProfile(r.value[k])
    ensures RouteFor(platform) == ToTwitter && r.Success? ==>
              |r.value| <= (if maxResults > 1 then maxResults else 1) &&
              NewDistinctUsers(r.value, {})
    ensures RouteFor(platform) != ToTikTok && !RouteFor(platform).Rejected? && ClientCheck(env).Some? ==>
              r == Failure(ValueError(TokenMissing))
  {
    var route := RouteFor(platform);
    match route {
      case ToLinkedIn =>
        r := ScrapeLinkedIn(env, keyword, location, maxResults, linkedIn, tag);
      case ToTwitter =>
        r := ScrapeTwitter(env, keyword, location, maxResults, twitter, tag);
      case ToTikTok =>
        r := ScrapeTikTok(env);
      case Rejected(message) =>
        r := Failure(ValueError(message));
    }
  }
}
