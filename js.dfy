/** Values exchanged as JSON between the browser client and the backend, with the
    JavaScript (and, where the backend reads them, Python) conversions the core relies on. */
module Js {

  datatype Option<+T> = None | Some(value: T) {
    /** `x ?? d` for an optional value: the value when present, else `d`. */
    function GetOr(d: T): T {
      if Some? then value else d
    }
  }

  /** A JSON value as JavaScript sees it. Numbers are integers: no count, page or
      limit in the core is fractional. */
  datatype Val =
    | Undefined
    | Null
    | Bool(b: bool)
    | Num(n: int)
    | Str(s: string)
    | Obj(fields: map<string, Val>)

  /** A JSON object: a lead, a history entry, a search request. */
  type Record = map<string, Val>

  /** `r.k`: a missing property reads as `undefined`. */
  function Field(r: Record, k: string): (v: Val)
    ensures k !in r ==> v == Undefined
    ensures k in r ==> v == r[k]
  {
    if k in r then r[k] else Undefined
  }

  /** `v?.k`: `undefined` unless `v` is an object that has the property. */
  function Member(v: Val, k: string): (r: Val)
    ensures !v.Obj? ==> r == Undefined
  {
    if v.Obj? then Field(v.fields, k) else Undefined
  }

  /** The property names every object literal inherits from `Object.prototype`
      (section 20.1.3 of ECMA-262 and the accessors of its Annex B). Looking one of them
      up in an object literal that does not define it finds the inherited member: a
      truthy value that has none of the literal's own properties. */
  const ObjectPrototypeKeys: set<string> :=
    {"constructor", "__proto__", "toString", "toLocaleString", "valueOf", "hasOwnProperty",
     "isPrototypeOf", "propertyIsEnumerable", "__defineGetter__", "__defineSetter__",
     "__lookupGetter__", "__lookupSetter__"}

  /** No inherited name starts with a capital letter, so a lookup by a capitalised name
      never finds an inherited member. */
  lemma CapitalizedNotInherited(name: string)
    requires name != [] && 'A' <= name[0] <= 'Z'
    ensures name !in ObjectPrototypeKeys
  {
    forall k | k in ObjectPrototypeKeys
      ensures k[0] == '_' || 'a' <= k[0] <= 'z'
    {
    }
  }

  /** JavaScript truthiness (ToBoolean): every object is truthy, `0` and `""` are not. */
  predicate Truthy(v: Val) {
    match v
    case Undefined => false
    case Null => false
    case Bool(b) => b
    case Num(n) => n != 0
    case Str(s) => s != ""
    case Obj(_) => true
  }

  /** `a || b`. */
  function Or(a: Val, b: Val): Val {
    if Truthy(a) then a else b
  }

  lemma OrTruthy(a: Val, b: Val)
    ensures Truthy(Or(a, b)) <==> Truthy(a) || Truthy(b)
    ensures !Truthy(a) && !Truthy(b) ==> Or(a, b) == b
  {
  }

  // ---------------------------------------------------------------- numbers as text

  function DigitChar(d: nat): (c: char)
    requires d < 10
    ensures '0' <= c <= '9'
  {
    "0123456789"[d]
  }

  /** Decimal notation of a natural number, without leading zeros. */
  function NatToString(n: nat): (s: string)
    ensures |s| >= 1
    ensures forall i :: 0 <= i < |s| ==> '0' <= s[i] <= '9'
    ensures s[0] == '0' ==> n == 0
    decreases n
  {
    if n < 10 then [DigitChar(n)] else NatToString(n / 10) + [DigitChar(n % 10)]
  }

  /** `String(i)` for an integer: a leading `-` for negative values. */
  function IntToString(i: int): (s: string)
    ensures |s| >= 1
    ensures (s[0] == '-') <==> i < 0
    ensures s[0] == '-' || '0' <= s[0] <= '9'
  {
    if i < 0 then "-" + NatToString(-i) else NatToString(i)
  }

  /** `String(v)`, the conversion a template literal or `+` applies. */
  function ToStr(v: Val): string {
    match v
    case Undefined => "undefined"
    case Null => "null"
    case Bool(b) => if b then "true" else "false"
    case Num(n) => IntToString(n)
    case Str(s) => s
    case Obj(_) => "[object Object]"
  }

  /** Only a string converts to a text that starts with a capital letter, so a lookup
      keyed by such a name matches exactly that string. */
  lemma ToStrCapitalized(v: Val, name: string)
    requires name != [] && 'A' <= name[0] <= 'Z'
    ensures ToStr(v) == name <==> v == Str(name)
  {
  }

  // ---------------------------------------------------------------- text helpers

  /** The white space `trim`/`strip` remove, restricted to ASCII. */
  predicate IsSpace(c: char) {
    c == ' ' || 9 <= c as int <= 13
  }

  /** The number of white-space characters `s` starts with. */
  function LeadingSpace(s: string): (n: nat)
    ensures n <= |s|
    ensures forall i :: 0 <= i < n ==> IsSpace(s[i])
    ensures n < |s| ==> !IsSpace(s[n])
  {
    if s != [] && IsSpace(s[0]) then 1 + LeadingSpace(s[1..]) else 0
  }

  /** The number of white-space characters `s` ends with. */
  function TrailingSpace(s: string): (n: nat)
    ensures n <= |s|
    ensures forall i :: |s| - n <= i < |s| ==> IsSpace(s[i])
    ensures n < |s| ==> !IsSpace(s[|s| - 1 - n])
  {
    if s != [] && IsSpace(s[|s| - 1]) then 1 + TrailingSpace(s[..|s| - 1]) else 0
  }

  /** `s.trim()` in JavaScript, `s.strip()` in Python: the slice of `s` left after
      dropping white space at both ends. */
  function Trim(s: string): (r: string)
    ensures LeadingSpace(s) + |r| <= |s|
    ensures r == s[LeadingSpace(s)..LeadingSpace(s) + |r|]
    ensures forall i :: LeadingSpace(s) + |r| <= i < |s| ==> IsSpace(s[i])
    ensures r == [] || (!IsSpace(r[0]) && !IsSpace(r[|r| - 1]))
  {
    var a := LeadingSpace(s);
    var t := s[a..];
    var b := TrailingSpace(t);
    var r := t[..|t| - b];
    assert r == s[a..a + |r|];
    forall i | a + |r| <= i < |s|
      ensures IsSpace(s[i])
    {
      assert s[i] == t[i - a];
    }
    r
  }

  /** A string without white space at either end is its own trim. */
  lemma TrimIdentity(s: string)
    requires s == [] || (!IsSpace(s[0]) && !IsSpace(s[|s| - 1]))
    ensures Trim(s) == s
  {
    assert LeadingSpace(s) == 0;
    assert TrailingSpace(s) == 0;
  }

  predicate StartsWith(s: string, prefix: string) {
    |prefix| <= |s| && s[..|prefix|] == prefix
  }

  predicate EndsWith(s: string, suffix: string) {
    |suffix| <= |s| && s[|s| - |suffix|..] == suffix
  }

  /** `sub in s` (Python) or `s.includes(sub)` (JavaScript). */
  predicate Contains(s: string, sub: string)
    decreases |s|
  {
    StartsWith(s, sub) || (|s| > 0 && Contains(s[1..], sub))
  }

  function LowerChar(c: char): char {
    if 'A' <= c <= 'Z' then (c as int + 32) as char else c
  }

  predicate IsUpper(c: char) {
    'A' <= c <= 'Z'
  }

  /** `s.lower()` / `s.toLowerCase()` on ASCII letters: each character on its own. */
  function Lower(s: string): (r: string)
    ensures |r| == |s|
    ensures forall i :: 0 <= i < |s| ==> r[i] == LowerChar(s[i])
  {
    seq(|s|, i requires 0 <= i < |s| => LowerChar(s[i]))
  }

  /** Lower-casing a piece of a text is taking that piece of the lower-cased text. */
  lemma LowerSlice(s: string, a: nat, b: nat)
    requires a <= b <= |s|
    ensures Lower(s)[a..b] == Lower(s[a..b])
  {
    forall i | 0 <= i < b - a
      ensures Lower(s)[a..b][i] == Lower(s[a..b])[i]
    {
      assert s[a..b][i] == s[a + i];
    }
  }

  /** Lower-casing twice is lower-casing once. */
  lemma LowerIdempotent(s: string)
    ensures Lower(Lower(s)) == Lower(s)
  {
    forall i | 0 <= i < |s|
      ensures Lower(Lower(s))[i] == Lower(s)[i]
    {
      LowerCharIdempotent(s[i]);
    }
  }

  lemma LowerCharIdempotent(c: char)
    ensures LowerChar(LowerChar(c)) == LowerChar(c)
  {
  }

  /** Three-way comparison by code point: `a.localeCompare(b)` with the ordering of
      a locale that sorts by code point. */
  function CompareStrings(a: string, b: string): (r: int)
    ensures -1 <= r <= 1
    ensures r == 0 <==> a == b
  {
    if a == [] && b == [] then 0
    else if a == [] then -1
    else if b == [] then 1
    else if a[0] < b[0] then -1
    else if b[0] < a[0] then 1
    else
      var r := CompareStrings(a[1..], b[1..]);
      assert a == [a[0]] + a[1..] && b == [b[0]] + b[1..];
      r
  }

  /** Swapping the operands of a comparison negates it. */
  lemma {:induction false} CompareAntisymmetric(a: string, b: string)
    ensures CompareStrings(b, a) == -CompareStrings(a, b)
  {
    if a != [] && b != [] && a[0] == b[0] {
      CompareAntisymmetric(a[1..], b[1..]);
    }
  }

  /** The position of the first occurrence of `c` in `s`, if any. */
  function IndexOf(s: string, c: char): (r: Option<nat>)
    ensures r.None? <==> c !in s
    ensures r.Some? ==> r.value < |s| && s[r.value] == c && c !in s[..r.value]
  {
    if s == [] then None
    else if s[0] == c then Some(0)
    else
      var r := IndexOf(s[1..], c);
      assert s == [s[0]] + s[1..];
      if r.None? then None
      else
        assert s[..r.value + 1] == [s[0]] + s[1..][..r.value];
        Some(r.value + 1)
  }

  /** The first occurrence is the only position `IndexOf` can report. */
  lemma IndexOfFirst(s: string, c: char, k: nat)
    requires k < |s| && s[k] == c && c !in s[..k]
    ensures IndexOf(s, c) == Some(k)
  {
  }
}
