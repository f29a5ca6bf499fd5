/** The search form: its four inputs and what a submit hands to the page. */
module SearchForm {
  import opened Js
  import opened Api

  /** A platform button: the id sent to the backend and the name shown. */
  datatype PlatformChoice = PlatformChoice(id: string, name: string)

  const Platforms: seq<PlatformChoice> := [
    PlatformChoice("linkedin", "LinkedIn"),
    PlatformChoice("x", "X (Twitter)")
  ]

  /** The ids a platform button can set. */
  predicate OfferedPlatform(id: string) {
    exists i :: 0 <= i < |Platforms| && Platforms[i].id == id
  }

  lemma OfferedPlatforms(id: string)
    ensures OfferedPlatform(id) <==> id == "linkedin" || id == "x"
  {
    if id == "linkedin" { assert Platforms[0].id == id; }
    if id == "x" { assert Platforms[1].id == id; }
  }

  /** `Number(e.target.value)` for the number input: not a number, or an integer.
      Fractional entries are not modelled. */
  datatype NumberEntry = NaN | Finite(n: int)

  /** `Math.min(100, Math.max(1, Number(value) || 1))`. */
  function ClampMaxResults(entry: NumberEntry): (m: int)
    ensures 1 <= m <= 100
    ensures entry.NaN? || entry == Finite(0) ==> m == 1
    ensures entry.Finite? && 1 <= entry.n <= 100 ==> m == entry.n
    ensures entry.Finite? && entry.n > 100 ==> m == 100
    ensures entry.Finite? && entry.n < 1 ==> m == 1
  {
    var n := if entry.Finite? && entry.n != 0 then entry.n else 1;
    if n > 100 then 100 else if n < 1 then 1 else n
  }

  /** What a submit does: an alert for an empty keyword, otherwise the parameters
      handed to `onSearch`. */
  datatype Submission = Rejected(alert: string) | Emitted(params: SearchParams)

  class FormState {
    var keyword: string
    var location: string
    var platform: string
    var maxResults: int

    /** What the inputs can reach: a platform from the buttons and a clamped count. */
    ghost predicate Valid()
      reads this
    {
      OfferedPlatform(platform) && 1 <= maxResults <= 100
    }

    constructor ()
      ensures keyword == "" && location == "" && platform == "linkedin" && maxResults == 20
      ensures Valid()
    {
      keyword := "";
      location := "";
      platform := "linkedin";
      maxResults := 20;
      new;
      assert Platforms[0].id == platform;
    }

    method SetKeyword(text: string)
      modifies this`keyword
      ensures keyword == text
    {
      keyword := text;
    }

    method SetLocation(text: string)
      modifies this`location
      ensures location == text
    {
      location := text;
    }

    /** A click on platform button `i`. */
    method ChoosePlatform(i: nat)
      requires i < |Platforms|
      requires Valid()
      modifies this`platform
      ensures platform == Platforms[i].id
      ensures Valid()
    {
      platform := Platforms[i].id;
    }

    /** The number input's `onChange`. */
    method ChangeMaxResults(entry: NumberEntry)
      requires Valid()
      modifies this`maxResults
      ensures maxResults == ClampMaxResults(entry)
      ensures Valid()
    {
      maxResults := ClampMaxResults(entry);
    }

    /** `handleSubmit`: nothing is sent while the keyword is empty; otherwise the four
        fields go out as they stand, the location possibly empty. */
    method Submit() returns (s: Submission)
      ensures s.Rejected? <==> keyword == ""
      ensures s.Rejected? ==> s.alert == "Please enter a keyword"
      ensures s.Emitted? ==>
                s.params == SearchParams(Str(keyword), Str(location), Str(platform), Num(maxResults))
      ensures Valid() && s.Emitted? ==>
                Truthy(s.params.keyword) && Truthy(s.params.platform) && Truthy(s.params.maxResults)
    {
      if keyword == "" {
        s := Rejected("Please enter a keyword");
      } else {
        s := Emitted(SearchParams(Str(keyword), Str(location), Str(platform), Num(maxResults)));
        if Valid() {
          OfferedPlatforms(platform);
        }
      }
    }
  }
}
