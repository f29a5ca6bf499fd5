/** The result view model: the sorted order, the page window and the cell texts of
    the results table, and the table's own sort and page state. */
module ResultsTable {
  import opened Js

  datatype Direction = Asc | Desc

  const ResultsPerPage: nat := 10

  function Min(a: int, b: int): int { if a <= b then a else b }
  function Max(a: int, b: int): int { if a >= b then a else b }

  // ------------------------------------------------------------ sorting

  /** `a[sortField] || ''`. */
  function SortKey(lead: Record, field: string): Val {
    Or(Field(lead, field), Str(""))
  }

  /** The comparator handed to `Array.prototype.sort`: numerically when both keys are
      numbers, otherwise as strings; descending swaps the operands. */
  function Compare(a: Record, b: Record, field: string, dir: Direction): int {
    var x, y := SortKey(a, field), SortKey(b, field);
    if x.Num? && y.Num? then
      (if dir == Asc then x.n - y.n else y.n - x.n)
    else if dir == Asc then CompareStrings(ToStr(x), ToStr(y))
    else CompareStrings(ToStr(y), ToStr(x))
  }

  /** Descending order is the ascending comparator with its operands swapped. */
  lemma DescendingMirrorsAscending(a: Record, b: Record, field: string)
    ensures Compare(a, b, field, Desc) == Compare(b, a, field, Asc)
  {
  }

  /** Swapping the operands negates the comparison, in either direction. */
  lemma CompareSwap(a: Record, b: Record, field: string, dir: Direction)
    ensures Compare(b, a, field, dir) == -Compare(a, b, field, dir)
  {
    CompareAntisymmetric(ToStr(SortKey(a, field)), ToStr(SortKey(b, field)));
  }

  /** A count of `0` sorts like a missing value: both become `''`. */
  lemma ZeroSortsAsMissing(a: Record, b: Record, field: string, dir: Direction)
    requires Field(a, field) == Num(0) && field !in b
    ensures Compare(a, b, field, dir) == 0
  {
  }

  /** Two non-zero numbers compare by value, ascending or descending. */
  lemma NumbersCompareNumerically(a: Record, b: Record, field: string)
    requires Field(a, field).Num? && Field(b, field).Num?
    requires Field(a, field).n != 0 && Field(b, field).n != 0
    ensures Compare(a, b, field, Asc) < 0 <==> Field(a, field).n < Field(b, field).n
    ensures Compare(a, b, field, Desc) < 0 <==> Field(a, field).n > Field(b, field).n
  {
  }

  /** On a column that mixes numbers and non-empty strings the comparator is not a
      consistent order: `2 < 10` as numbers, `"10" < "1a"` and `"1a" < "2"` as strings,
      so the three keys form a cycle. */
  lemma MixedColumnCycle(field: string)
    ensures var a, b, c := map[field := Num(2)], map[field := Num(10)], map[field := Str("1a")];
            Compare(a, b, field, Asc) < 0 && Compare(b, c, field, Asc) < 0 && Compare(c, a, field, Asc) < 0
  {
    assert ToStr(Num(10)) == "10" by {
      assert NatToString(1) == "1";
      assert NatToString(10) == NatToString(1) + [DigitChar(0)];
    }
    assert ToStr(Num(2)) == "2";
    assert CompareStrings("10", "1a") == -1 by {
      assert "10"[1..] == "0" && "1a"[1..] == "a";
    }
  }

  /** Each neighbour pair in order: what a consistent comparator leaves behind. */
  predicate SortedBy(s: seq<Record>, field: string, dir: Direction) {
    forall i :: 0 <= i < |s| - 1 ==> Compare(s[i], s[i + 1], field, dir) <= 0
  }

  /** Puts `x` in front of the first element it does not sort after. */
  function Insert(x: Record, s: seq<Record>, field: string, dir: Direction): (r: seq<Record>)
    ensures |r| == |s| + 1
    ensures multiset(r) == multiset(s) + multiset{x}
  {
    if s == [] || Compare(x, s[0], field, dir) <= 0 then [x] + s
    else
      var rest := Insert(x, s[1..], field, dir);
      assert s == [s[0]] + s[1..];
      assert multiset([s[0]] + rest) == multiset{s[0]} + multiset(rest);
      [s[0]] + rest
  }

  /** The inserted element or the old head comes first. */
  lemma InsertHead(x: Record, s: seq<Record>, field: string, dir: Direction)
    ensures Insert(x, s, field, dir)[0] == x || (s != [] && Insert(x, s, field, dir)[0] == s[0])
  {
  }

  /** A sorted list stays sorted without its first element. */
  lemma SortedTail(s: seq<Record>, field: string, dir: Direction)
    requires s != [] && SortedBy(s, field, dir)
    ensures SortedBy(s[1..], field, dir)
  {
    forall i | 0 <= i < |s[1..]| - 1
      ensures Compare(s[1..][i], s[1..][i + 1], field, dir) <= 0
    {
      assert s[1..][i] == s[i + 1] && s[1..][i + 1] == s[i + 2];
    }
  }

  /** An element that does not sort after the head of a sorted list can go in front. */
  lemma SortedCons(a: Record, t: seq<Record>, field: string, dir: Direction)
    requires SortedBy(t, field, dir)
    requires t != [] ==> Compare(a, t[0], field, dir) <= 0
    ensures SortedBy([a] + t, field, dir)
  {
    var r := [a] + t;
    forall i | 0 <= i < |r| - 1
      ensures Compare(r[i], r[i + 1], field, dir) <= 0
    {
      if i > 0 {
        assert r[i] == t[i - 1] && r[i + 1] == t[i];
      }
    }
  }

  /** Inserting into a sorted list keeps it sorted. */
  lemma {:induction false} InsertSorted(x: Record, s: seq<Record>, field: string, dir: Direction)
    requires SortedBy(s, field, dir)
    ensures SortedBy(Insert(x, s, field, dir), field, dir)
  {
    if s == [] || Compare(x, s[0], field, dir) <= 0 {
      SortedCons(x, s, field, dir);
    } else {
      var rest := Insert(x, s[1..], field, dir);
      assert Insert(x, s, field, dir) == [s[0]] + rest;
      SortedTail(s, field, dir);
      InsertSorted(x, s[1..], field, dir);
      CompareSwap(x, s[0], field, dir);
      InsertHead(x, s[1..], field, dir);
      if rest[0] != x {
        assert rest[0] == s[1..][0] == s[1];
        assert Compare(s[0], s[1], field, dir) <= 0;
      }
      SortedCons(s[0], rest, field, dir);
    }
  }

  /** The engine's sort, which section 23.1.3.30 of ECMA-262 requires to be stable:
      insertion from the back, so an element stays in front of every equal one that
      followed it. */
  function StableSort(rs: seq<Record>, field: string, dir: Direction): (r: seq<Record>)
    ensures |r| == |rs|
    ensures multiset(r) == multiset(rs)
    ensures SortedBy(r, field, dir)
  {
    if rs == [] then []
    else
      assert rs == [rs[0]] + rs[1..];
      InsertSorted(rs[0], StableSort(rs[1..], field, dir), field, dir);
      Insert(rs[0], StableSort(rs[1..], field, dir), field, dir)
  }

  /** The leads whose sort key is exactly `key`, in order. */
  function WithKey(s: seq<Record>, field: string, key: Val): seq<Record> {
    if s == [] then []
    else (if SortKey(s[0], field) == key then [s[0]] else []) + WithKey(s[1..], field, key)
  }

  /** Leads that compare as unequal have different sort keys. */
  lemma OrderedKeysDiffer(a: Record, b: Record, field: string, dir: Direction)
    requires Compare(a, b, field, dir) != 0
    ensures SortKey(a, field) != SortKey(b, field)
  {
  }

  /** The leads of `[x] + s` with key `key`. */
  lemma WithKeyCons(x: Record, s: seq<Record>, field: string, key: Val)
    ensures WithKey([x] + s, field, key) == (if SortKey(x, field) == key then [x] else []) + WithKey(s, field, key)
  {
    assert ([x] + s)[1..] == s;
  }

  /** Inserting `x` puts it among the leads with its own key as the first of them. */
  lemma {:induction false} InsertWithKey(x: Record, s: seq<Record>, field: string, dir: Direction, key: Val)
    ensures WithKey(Insert(x, s, field, dir), field, key)
         == (if SortKey(x, field) == key then [x] else []) + WithKey(s, field, key)
  {
    if s == [] || Compare(x, s[0], field, dir) <= 0 {
      WithKeyCons(x, s, field, key);
    } else {
      var rest := Insert(x, s[1..], field, dir);
      assert Insert(x, s, field, dir) == [s[0]] + rest;
      InsertWithKey(x, s[1..], field, dir, key);
      WithKeyCons(s[0], rest, field, key);
      WithKeyCons(s[0], s[1..], field, key);
      assert [s[0]] + s[1..] == s;
      OrderedKeysDiffer(x, s[0], field, dir);
      var kx := if SortKey(x, field) == key then [x] else [];
      var k0 := if SortKey(s[0], field) == key then [s[0]] else [];
      var w := WithKey(s[1..], field, key);
      assert kx == [] || k0 == [];
      SwapEmpty(k0, kx, w);
    }
  }

  /** Two pieces of which one is empty can be joined in either order. */
  lemma SwapEmpty(a: seq<Record>, b: seq<Record>, w: seq<Record>)
    requires a == [] || b == []
    ensures a + (b + w) == b + (a + w)
  {
    if a == [] {
      assert a + (b + w) == b + w == b + (a + w);
    } else {
      assert a + (b + w) == a + w == b + (a + w);
    }
  }

  /** Stability: leads with the same sort key keep their relative order. */
  lemma {:induction false} SortIsStable(rs: seq<Record>, field: string, dir: Direction, key: Val)
    ensures WithKey(StableSort(rs, field, dir), field, key) == WithKey(rs, field, key)
  {
    if rs != [] {
      SortIsStable(rs[1..], field, dir, key);
      InsertWithKey(rs[0], StableSort(rs[1..], field, dir), field, dir, key);
    }
  }

  /** `sortedResults`: the input itself while no sort field is chosen. */
  function SortedResults(results: seq<Record>, sortField: Option<string>, dir: Direction): (r: seq<Record>)
    ensures |r| == |results|
    ensures multiset(r) == multiset(results)
    ensures sortField.None? || sortField == Some("") ==> r == results
    ensures sortField.Some? && sortField.value != "" ==> SortedBy(r, sortField.value, dir)
  {
    if sortField.None? || sortField.value == "" then results
    else StableSort(results, sortField.value, dir)
  }

  // ------------------------------------------------------------ pagination

  /** `Math.ceil(n / resultsPerPage)`. */
  function TotalPages(n: nat): (t: nat)
    ensures t * ResultsPerPage >= n
    ensures t == 0 || (t - 1) * ResultsPerPage < n
  {
    (n + ResultsPerPage - 1) / ResultsPerPage
  }

  /** `s.slice(start, end)`: negative bounds count from the end, both are clipped. */
  function Slice(s: seq<Record>, start: int, end: int): seq<Record> {
    var from := if start < 0 then Max(|s| + start, 0) else Min(start, |s|);
    var to := if end < 0 then Max(|s| + end, 0) else Min(end, |s|);
    if from < to then s[from..to] else []
  }

  /** The rows of page `page`: items `[(page-1)*10, page*10)` clipped to the list. */
  function PageItems(sorted: seq<Record>, page: int): (r: seq<Record>)
    ensures page >= 1 ==> |r| <= ResultsPerPage
    ensures page >= 1 && (page - 1) * ResultsPerPage < |sorted| ==>
              r == sorted[(page - 1) * ResultsPerPage..Min(page * ResultsPerPage, |sorted|)]
    ensures page >= 1 && (page - 1) * ResultsPerPage >= |sorted| ==> r == []
  {
    var start := (page - 1) * ResultsPerPage;
    Slice(sorted, start, start + ResultsPerPage)
  }

  /** Every page up to the last one is non-empty. */
  lemma PagesInRangeAreFilled(sorted: seq<Record>, page: int)
    requires 1 <= page
    ensures page <= TotalPages(|sorted|) <==> PageItems(sorted, page) != []
  {
  }

  /** `Math.max(1, Math.min(newPage, totalPages))`. */
  function ClampPage(newPage: int, totalPages: nat): (p: int)
    ensures p >= 1
    ensures totalPages == 0 ==> p == 1
    ensures totalPages >= 1 ==> p <= totalPages
    ensures 1 <= newPage <= totalPages ==> p == newPage
    ensures newPage > totalPages >= 1 ==> p == totalPages
    ensures newPage < 1 ==> p == 1
  {
    Max(1, Min(newPage, totalPages))
  }

  // ------------------------------------------------------------ cells

  /** `(count / unit).toFixed(1)` in tenths, rounded half up. */
  function Tenths(count: nat, unit: nat): (t: nat)
    requires unit > 0
    ensures -(unit as int) <= 2 * (10 * count - t * unit) < unit
  {
    var t := (20 * count + unit) / (2 * unit);
    assert t * (2 * unit) <= 20 * count + unit < t * (2 * unit) + 2 * unit;
    t
  }

  /** A count in tenths with one decimal place. */
  function OneDecimal(tenths: nat): string {
    NatToString(tenths / 10) + "." + [DigitChar(tenths % 10)]
  }

  /** The compact text of a truthy count. A value that is not a number never reaches
      either threshold and shows as it converts. */
  function Compact(count: Val): string {
    match count
    case Num(n) =>
      if n >= 1000000 then OneDecimal(Tenths(n, 1000000)) + "M"
      else if n >= 1000 then OneDecimal(Tenths(n, 1000)) + "K"
      else IntToString(n)
    case _ => ToStr(count)
  }

  /** The table's `formatFollowers`. */
  function FormatFollowers(count: Val): (r: string)
    ensures !Truthy(count) ==> r == "-"
    ensures count.Num? && count.n >= 1000000 ==> EndsWith(r, "M")
    ensures count.Num? && 1000 <= count.n < 1000000 ==> EndsWith(r, "K")
    ensures count.Num? && count.n != 0 && count.n < 1000 ==> r == IntToString(count.n)
  {
    if !Truthy(count) then "-" else Compact(count)
  }

  /** Counts below a thousand show as they are. */
  lemma SmallCountExamples()
    ensures FormatFollowers(Num(999)) == "999"
    ensures FormatFollowers(Num(0)) == "-" && FormatFollowers(Undefined) == "-"
  {
    assert NatToString(99) == "99";
    assert NatToString(999) == "999";
  }

  /** Thousands show with one decimal and a `K`, also when the decimal is zero. */
  lemma ThousandsExamples()
    ensures FormatFollowers(Num(1500)) == "1.5K"
    ensures FormatFollowers(Num(15000)) == "15.0K"
  {
    assert Tenths(1500, 1000) == 15;
    assert Tenths(15000, 1000) == 150;
  }

  /** Millions show with one decimal and an `M`. */
  lemma MillionsExample()
    ensures FormatFollowers(Num(2500000)) == "2.5M"
  {
    assert Tenths(2500000, 1000000) == 25;
  }

  datatype Badge = Badge(bg: string, text: string, caption: Val)

  /** `getPlatformBadge(platform)`: styles for LinkedIn and X, a grey fallback labelled
      with the platform itself for other values. A name inherited by the `badges`
      literal finds that member instead, whose `bg`, `text` and `label` are all
      `undefined`. */
  function PlatformBadge(platform: Val): (b: Badge)
    ensures platform == Str("LinkedIn") ==> b == Badge("bg-blue-600/20", "text-blue-400", platform)
    ensures platform == Str("X") ==> b == Badge("bg-gray-600/20", "text-gray-300", platform)
    ensures ToStr(platform) in ObjectPrototypeKeys ==> b == Badge("undefined", "undefined", Undefined)
    ensures platform != Str("LinkedIn") && platform != Str("X") && ToStr(platform) !in ObjectPrototypeKeys ==>
              b == Badge("bg-gray-600/20", "text-gray-400", platform)
    ensures b.bg == "bg-blue-600/20" <==> platform == Str("LinkedIn")
  {
    ToStrCapitalized(platform, "LinkedIn");
    ToStrCapitalized(platform, "X");
    CapitalizedNotInherited("LinkedIn");
    CapitalizedNotInherited("X");
    var key := ToStr(platform);
    if key == "LinkedIn" then Badge("bg-blue-600/20", "text-blue-400", Str("LinkedIn"))
    else if key == "X" then Badge("bg-gray-600/20", "text-gray-300", Str("X"))
    else if key in ObjectPrototypeKeys then Badge("undefined", "undefined", Undefined)
    else Badge("bg-gray-600/20", "text-gray-400", platform)
  }

  /** One table row. The star only reflects `isLeadSaved`: clicking it saves the lead
      whether or not it is starred. */
  datatype Row = Row(starred: bool, name: Val, badge: Badge, role: Val, followers: string, profile: Option<Val>)

  function RowFor(lead: Record, isSaved: bool): (row: Row)
    ensures row.starred == isSaved
    ensures Truthy(row.name) && Truthy(row.role)
    ensures Truthy(Field(lead, "name")) ==> row.name == Field(lead, "name")
    ensures !Truthy(Field(lead, "name")) ==> row.name == Str("Unknown")
    ensures Truthy(Field(lead, "role")) ==> row.role == Field(lead, "role")
    ensures !Truthy(Field(lead, "role")) ==> row.role == Str("-")
    ensures row.badge == PlatformBadge(Field(lead, "platform"))
    ensures row.followers == FormatFollowers(Or(Field(lead, "followers"), Field(lead, "members")))
    ensures row.profile.Some? <==> Truthy(Field(lead, "contact_link"))
    ensures row.profile.Some? ==> row.profile.value == Field(lead, "contact_link")
  {
    Row(isSaved,
        Or(Field(lead, "name"), Str("Unknown")),
        PlatformBadge(Field(lead, "platform")),
        Or(Field(lead, "role"), Str("-")),
        FormatFollowers(Or(Field(lead, "followers"), Field(lead, "members"))),
        if Truthy(Field(lead, "contact_link")) then Some(Field(lead, "contact_link")) else None)
  }

  // ------------------------------------------------------------ the table's state

  class TableState {
    /** The `results` prop, replaced by the parent. */
    var results: seq<Record>
    var currentPage: int
    var sortField: Option<string>
    var sortDirection: Direction

    ghost predicate Valid()
      reads this
    {
      currentPage >= 1
    }

    constructor (results: seq<Record>)
      ensures this.results == results
      ensures currentPage == 1 && sortField == None && sortDirection == Asc
      ensures Valid()
    {
      this.results := results;
      currentPage := 1;
      sortField := None;
      sortDirection := Asc;
    }

    /** `sortedResults`: the results in input order without a sort field, otherwise
        a stable sort by the comparator. */
    function Sorted(): (r: seq<Record>)
      reads this
      ensures r == SortedResults(results, sortField, sortDirection)
      ensures multiset(r) == multiset(results)
      ensures sortField.None? || sortField == Some("") ==> r == results
      ensures sortField.Some? && sortField.value != "" ==> SortedBy(r, sortField.value, sortDirection)
    {
      SortedResults(results, sortField, sortDirection)
    }

    function PageCount(): nat
      reads this
    {
      TotalPages(|Sorted()|)
    }

    /** `currentResults`: at most one page of the sorted list. */
    function CurrentResults(): (r: seq<Record>)
      reads this
      requires Valid()
      ensures r == PageItems(Sorted(), currentPage)
      ensures |r| <= ResultsPerPage
      ensures currentPage <= PageCount() ==> r != []
    {
      PagesInRangeAreFilled(Sorted(), currentPage);
      PageItems(Sorted(), currentPage)
    }

    /** `handleSort(field)`: the same field flips the direction, another field starts
        ascending. */
    method HandleSort(field: string)
      modifies this`sortField, this`sortDirection
      ensures sortField == Some(field)
      ensures old(sortField) == Some(field) ==>
                sortDirection == (if old(sortDirection) == Asc then Desc else Asc)
      ensures old(sortField) != Some(field) ==> sortDirection == Asc
    {
      if sortField == Some(field) {
        sortDirection := if sortDirection == Asc then Desc else Asc;
      } else {
        sortField := Some(field);
        sortDirection := Asc;
      }
    }

    /** `handlePageChange(newPage)`: the stored page is clamped to the current page
        count, and is 1 when there are no pages. */
    method HandlePageChange(newPage: int)
      modifies this`currentPage
      ensures currentPage == ClampPage(newPage, PageCount())
      ensures Valid()
    {
      currentPage := ClampPage(newPage, TotalPages(|SortedResults(results, sortField, sortDirection)|));
    }

    /** New `results` from the parent. No state is reset: the page is not clamped
        again, so a page past the new last one shows no rows. */
    method ReceiveResults(rs: seq<Record>)
      modifies this`results
      ensures results == rs
      ensures currentPage == old(currentPage) && sortField == old(sortField)
      ensures sortDirection == old(sortDirection)
    {
      results := rs;
    }
  }
}
