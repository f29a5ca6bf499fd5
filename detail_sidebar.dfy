/** The detail panel for one lead: which blocks show, with which labels and values.
    It holds no state; everything is derived from the lead and the `isSaved` flag. */
module DetailSidebar {
  import opened Js
  import ResultsTable

  /** The panel's `formatFollowers`: nothing for a falsy count, otherwise the same
      compact text as the results table. */
  function FormatFollowers(count: Val): (r: Option<string>)
    ensures r.None? <==> !Truthy(count)
    ensures r.Some? ==> r.value == ResultsTable.FormatFollowers(count)
  {
    if !Truthy(count) then None else Some(ResultsTable.Compact(count))
  }

  /** The colour class of the platform badge and the profile button. */
  datatype Color =
    | Class(name: string)
      /** The text of the member of `Object.prototype` with this name. */
    | InheritedMember(key: string)

  /** `getPlatformColor(platform)`: blue for LinkedIn, grey for X and for anything
      else. A name the `colors` literal inherits finds that member, which is truthy, so
      the class is its text rather than the grey fallback. */
  function PlatformColor(platform: Val): (c: Color)
    ensures c == Class("bg-blue-600") <==> platform == Str("LinkedIn")
    ensures ToStr(platform) in ObjectPrototypeKeys ==> c == InheritedMember(ToStr(platform))
    ensures platform != Str("LinkedIn") && ToStr(platform) !in ObjectPrototypeKeys ==> c == Class("bg-gray-600")
  {
    ToStrCapitalized(platform, "LinkedIn");
    CapitalizedNotInherited("LinkedIn");
    CapitalizedNotInherited("X");
    var key := ToStr(platform);
    if key == "LinkedIn" then Class("bg-blue-600")
    else if key == "X" then Class("bg-gray-600")
    else if key in ObjectPrototypeKeys then InheritedMember(key)
    else Class("bg-gray-600")
  }

  /** What `{x && <block/>}` puts on the page: the block when `x` is truthy; when `x`
      is the number `0`, React renders that falsy value as the text "0"; any other
      falsy value renders nothing. */
  datatype Block<T> = Hidden | Zero | Shown(value: T)

  /** `{cond && <block showing value/>}`. */
  function Guarded<T>(cond: Val, value: T): (b: Block<T>)
    ensures b.Shown? <==> Truthy(cond)
    ensures b.Zero? <==> cond == Num(0)
    ensures b.Shown? ==> b.value == value
  {
    if Truthy(cond) then Shown(value)
    else if cond == Num(0) then Zero
    else Hidden
  }

  /** A block guarded by `{lead.x && ...}` that shows `lead.x`. */
  function Section(v: Val): (b: Block<Val>)
    ensures b.Shown? <==> Truthy(v)
    ensures b.Shown? ==> b.value == v
    ensures b.Zero? <==> v == Num(0)
  {
    Guarded(v, v)
  }

  /** The followers/members block: its label and its value. */
  datatype Popularity = Popularity(caption: string, value: Option<string>)

  /** `{(lead.followers || lead.members) && ...}`. */
  function PopularityBlock(lead: Record): (p: Block<Popularity>)
    ensures p.Shown? <==> Truthy(Field(lead, "followers")) || Truthy(Field(lead, "members"))
    ensures p.Zero? <==> !Truthy(Field(lead, "followers")) && Field(lead, "members") == Num(0)
    ensures p.Shown? ==> (p.value.caption == "Members" <==> Truthy(Field(lead, "members")))
    ensures p.Shown? ==> p.value.caption in {"Members", "Followers"}
    ensures p.Shown? ==> p.value.value.Some?
    ensures p.Shown? && Truthy(Field(lead, "followers")) ==>
              p.value.value == FormatFollowers(Field(lead, "followers"))
    ensures p.Shown? && !Truthy(Field(lead, "followers")) ==>
              p.value.value == FormatFollowers(Field(lead, "members"))
  {
    var count := Or(Field(lead, "followers"), Field(lead, "members"));
    Guarded(count, Popularity(if Truthy(Field(lead, "members")) then "Members" else "Followers",
                              FormatFollowers(count)))
  }

  /** `{lead.headline && lead.headline !== lead.role && ...}`: shown only when it adds
      something to the role line; a headline equal to the role yields `false`, which
      renders nothing. */
  function HeadlineBlock(lead: Record): (h: Block<Val>)
    ensures h.Shown? <==> Truthy(Field(lead, "headline")) && Field(lead, "headline") != Field(lead, "role")
    ensures h.Shown? ==> h.value == Field(lead, "headline") && h.value != Field(lead, "role")
    ensures h.Zero? <==> Field(lead, "headline") == Num(0)
  {
    var headline := Field(lead, "headline");
    if Truthy(headline) && headline == Field(lead, "role") then Hidden
    else Section(headline)
  }

  /** `{(lead.bio || lead.description) && ...}`: `bio` takes precedence over
      `description`. */
  function BioBlock(lead: Record): (b: Block<Val>)
    ensures b.Shown? <==> Truthy(Field(lead, "bio")) || Truthy(Field(lead, "description"))
    ensures Truthy(Field(lead, "bio")) ==> b == Shown(Field(lead, "bio"))
    ensures !Truthy(Field(lead, "bio")) && Truthy(Field(lead, "description")) ==>
              b == Shown(Field(lead, "description"))
    ensures b.Zero? <==> !Truthy(Field(lead, "bio")) && Field(lead, "description") == Num(0)
  {
    Section(Or(Field(lead, "bio"), Field(lead, "description")))
  }

  datatype SaveButton = SaveButton(disabled: bool, caption: string)

  function SaveButtonFor(isSaved: bool): (b: SaveButton)
    ensures b.disabled <==> isSaved
    ensures b.caption == "Already Saved" <==> isSaved
    ensures !isSaved ==> b.caption == "Save Lead"
  {
    SaveButton(isSaved, if isSaved then "Already Saved" else "Save Lead")
  }

  /** Everything the panel shows, block by block. */
  datatype Panel = Panel(
    title: Val,
    platformColor: Color,
    platform: Val,
    verified: Block<()>,
    role: Block<Val>,
    popularity: Block<Popularity>,
    region: Block<Val>,
    company: Block<Val>,
    headline: Block<Val>,
    bio: Block<Val>,
    industry: Block<Val>,
    notes: Block<Val>,
    email: Block<Val>,
    website: Block<Val>,
    profileLink: Block<Val>,
    save: SaveButton)

  function Render(lead: Record, isSaved: bool): (p: Panel)
    ensures Truthy(p.title)
    ensures Truthy(Field(lead, "name")) ==> p.title == Field(lead, "name")
    ensures !Truthy(Field(lead, "name")) ==> p.title == Str("Unknown")
    ensures p.platformColor == PlatformColor(Field(lead, "platform"))
    ensures p.platform == Field(lead, "platform")
    ensures p.verified.Shown? <==> Truthy(Field(lead, "verified"))
    ensures p.verified.Zero? <==> Field(lead, "verified") == Num(0)
    ensures p.role == Section(Field(lead, "role"))
    ensures p.popularity == PopularityBlock(lead)
    ensures p.region == Section(Field(lead, "region"))
    ensures p.company == Section(Field(lead, "company"))
    ensures p.headline == HeadlineBlock(lead) && p.bio == BioBlock(lead)
    ensures p.industry == Section(Field(lead, "industry"))
    ensures p.notes == Section(Field(lead, "notes"))
    ensures p.email == Section(Field(lead, "email"))
    ensures p.website == Section(Field(lead, "website"))
    ensures p.profileLink == Section(Field(lead, "contact_link"))
    ensures p.save.disabled <==> isSaved
  {
    Panel(
      Or(Field(lead, "name"), Str("Unknown")),
      PlatformColor(Field(lead, "platform")),
      Field(lead, "platform"),
      Guarded(Field(lead, "verified"), ()),
      Section(Field(lead, "role")),
      PopularityBlock(lead),
      Section(Field(lead, "region")),
      Section(Field(lead, "company")),
      HeadlineBlock(lead),
      BioBlock(lead),
      Section(Field(lead, "industry")),
      Section(Field(lead, "notes")),
      Section(Field(lead, "email")),
      Section(Field(lead, "website")),
      Section(Field(lead, "contact_link")),
      SaveButtonFor(isSaved))
  }
}
