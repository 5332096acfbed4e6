/** Helpers shared by the models of the ML service, the API server and the
    browser client: an Option type, the ASCII string operations the sources
    rely on (lower-casing, whitespace stripping, substring search) and the
    "newest first" ordering that every listing query uses. */
module Common {

  datatype Option<+T> = None | Some(value: T) {
    /** The value, or `default` when there is none (Python's `dict.get(k, default)`). */
    function GetOr(default: T): T
    {
      match this
      case Some(v) => v
      case None => default
    }
  }

  // ---------------------------------------------------------------------------
  // Characters and case
  // ---------------------------------------------------------------------------

  predicate IsUpper(c: char) { 'A' <= c <= 'Z' }

  function LowerChar(c: char): char
  {
    if IsUpper(c) then (c as int - 'A' as int + 'a' as int) as char else c
  }

  /** `str.lower()` in Python and `String.prototype.toLowerCase()` in JS,
      restricted to ASCII letters. */
  function Lower(s: string): (r: string)
    ensures |r| == |s|
    ensures forall i :: 0 <= i < |s| ==> r[i] == LowerChar(s[i])
  {
    if s == [] then [] else [LowerChar(s[0])] + Lower(s[1..])
  }

  lemma {:induction false} LowerIsLowerCase(s: string)
    ensures IsLowerCase(Lower(s))
    ensures Lower(Lower(s)) == Lower(s)
  {
    var r := Lower(s);
    var rr := Lower(r);
    assert forall i :: 0 <= i < |s| ==> rr[i] == r[i];
  }

  lemma {:induction false} LowerOfLowerCase(s: string)
    requires IsLowerCase(s)
    ensures Lower(s) == s
  {
    var r := Lower(s);
    assert forall i :: 0 <= i < |s| ==> r[i] == s[i];
  }

  predicate IsLowerCase(s: string)
  {
    forall i :: 0 <= i < |s| ==> !IsUpper(s[i])
  }

  // ---------------------------------------------------------------------------
  // Whitespace
  // ---------------------------------------------------------------------------

  /** ASCII whitespace as JavaScript's `trim` (and so mongoose's `trim: true`) sees it. */
  predicate IsJsSpace(c: char)
  {
    c == ' ' || c == '\t' || c == '\n' || c == '\r' || c == '\U{000B}' || c == '\U{000C}'
  }

  /** ASCII whitespace as Python's `str.strip()` sees it: JavaScript's set plus
      the four separator controls U+001C..U+001F. */
  predicate IsPySpace(c: char)
  {
    IsJsSpace(c) || ('\U{001C}' <= c <= '\U{001F}')
  }

  function TrimStart(s: string, isSpace: char -> bool): (r: string)
    ensures |r| <= |s| && r == s[|s| - |r|..]
    ensures forall i :: 0 <= i < |s| - |r| ==> isSpace(s[i])
    ensures r != [] ==> !isSpace(r[0])
  {
    if s != [] && isSpace(s[0]) then TrimStart(s[1..], isSpace) else s
  }

  function TrimEnd(s: string, isSpace: char -> bool): (r: string)
    ensures |r| <= |s| && r == s[..|r|]
    ensures forall i :: |r| <= i < |s| ==> isSpace(s[i])
    ensures r != [] ==> !isSpace(r[|r| - 1])
  {
    if s != [] && isSpace(s[|s| - 1]) then TrimEnd(s[..|s| - 1], isSpace) else s
  }

  /** `r` occurs in `s` at `k` with only whitespace before and after it. */
  predicate StrippedAt(s: string, r: string, k: int, isSpace: char -> bool)
  {
    && OccursAt(s, r, k)
    && (forall i :: 0 <= i < k ==> isSpace(s[i]))
    && (forall i :: k + |r| <= i < |s| ==> isSpace(s[i]))
  }

  /** Removing whitespace from the start of `s`, giving `t`, and then from the
      end of `t`, giving `r`, removes only whitespace. */
  lemma TrimBothStrippedAt(s: string, isSpace: char -> bool, t: string, r: string)
    requires |t| <= |s| && t == s[|s| - |t|..]
    requires forall i :: 0 <= i < |s| - |t| ==> isSpace(s[i])
    requires |r| <= |t| && r == t[..|r|]
    requires forall i :: |r| <= i < |t| ==> isSpace(t[i])
    ensures StrippedAt(s, r, |s| - |t|, isSpace)
  {
    var k := |s| - |t|;
    forall j | 0 <= j < |r| ensures s[k + j] == r[j] {
      assert r[j] == t[j] == s[k + j];
    }
    assert s[k..k + |r|] == r;
    assert forall i :: 0 <= i < k ==> isSpace(s[i]);
    forall i | k + |r| <= i < |s| ensures isSpace(s[i]) {
      assert s[i] == t[i - k];
    }
  }

  /** Removes leading and trailing whitespace; `isSpace` selects the language's notion. */
  function Strip(s: string, isSpace: char -> bool): (r: string)
    ensures r != [] ==> !isSpace(r[0]) && !isSpace(r[|r| - 1])
    ensures exists k :: StrippedAt(s, r, k, isSpace)
  {
    var t := TrimStart(s, isSpace);
    var r := TrimEnd(t, isSpace);
    TrimBothStrippedAt(s, isSpace, t, r);
    r
  }

  /** JavaScript `s.trim()`. */
  function JsTrim(s: string): (r: string)
    ensures r != [] ==> !IsJsSpace(r[0]) && !IsJsSpace(r[|r| - 1])
  {
    Strip(s, IsJsSpace)
  }

  /** Python `s.strip()`. */
  function PyStrip(s: string): string { Strip(s, IsPySpace) }

  lemma {:induction false} StripOfAllSpace(s: string, isSpace: char -> bool)
    requires forall i :: 0 <= i < |s| ==> isSpace(s[i])
    ensures Strip(s, isSpace) == []
  {
    if s != [] {
      StripOfAllSpace(s[1..], isSpace);
    }
  }

  lemma StripKeepsLowerCase(s: string, isSpace: char -> bool)
    requires IsLowerCase(s)
    ensures IsLowerCase(Strip(s, isSpace))
  {
    var r := Strip(s, isSpace);
    var k :| StrippedAt(s, r, k, isSpace);
    assert forall i :: 0 <= i < |r| ==> r[i] == s[k + i];
  }

  lemma StripKeepsInner(s: string, isSpace: char -> bool)
    requires s != [] && !isSpace(s[0]) && !isSpace(s[|s| - 1])
    ensures Strip(s, isSpace) == s
  {
  }

  /** A string field of a request body that is given and not empty: what
      JavaScript's truthiness tests of a string, and what mongoose's `required`
      demands of a String path. None stands for a missing or null field. */
  predicate Present(v: Option<string>)
  {
    v.Some? && v.value != ""
  }

  // ---------------------------------------------------------------------------
  // Substrings
  // ---------------------------------------------------------------------------

  predicate IsPrefix(p: string, s: string) { |p| <= |s| && s[..|p|] == p }

  predicate IsSuffix(p: string, s: string) { |p| <= |s| && s[|s| - |p|..] == p }

  /** Whether `p` occurs in `s` at some position: a regular expression made of
      literal alternatives matches exactly when one of them occurs. */
  predicate Contains(s: string, p: string)
  {
    exists k | 0 <= k <= |s| - |p| :: OccursAt(s, p, k)
  }

  predicate OccursAt(s: string, p: string, k: int)
  {
    0 <= k <= |s| - |p| && s[k..k + |p|] == p
  }

  /** The position of the last occurrence of `c` in `s`. */
  function LastIndexOf(s: string, c: char): (r: Option<nat>)
    ensures r.None? <==> c !in s
    ensures r.Some? ==> r.value < |s| && s[r.value] == c && c !in s[r.value + 1..]
  {
    if s == [] then None
    else if s[|s| - 1] == c then Some(|s| - 1)
    else
      var r := LastIndexOf(s[..|s| - 1], c);
      assert s == s[..|s| - 1] + [s[|s| - 1]];
      r
  }

  /** Dropping past the whole of `a` in `a + b` drops into `b`. */
  lemma DropAppend<T>(a: seq<T>, b: seq<T>, d: nat)
    requires d <= |b|
    ensures (a + b)[|a| + d..] == b[d..]
  {
  }

  /** A position holding `c` with no `c` after it is the last position of `c`. */
  lemma LastIndexOfUnique(s: string, c: char, k: nat)
    requires k < |s| && s[k] == c && c !in s[k + 1..]
    ensures LastIndexOf(s, c) == Some(k)
  {
    forall j | 0 <= j < k && s[j] == c ensures c in s[j + 1..] {
      assert s[j + 1..][k - j - 1] == s[k];
    }
    forall j | k < j < |s| ensures s[j] != c {
      assert s[j] == s[k + 1..][j - k - 1];
    }
  }

  /** `s` without its trailing slashes: Python's `s.rstrip('/')`, and the
      first step of Node's `path.extname`. */
  function RStripSlash(s: string): (r: string)
    ensures IsPrefix(r, s) && (r == [] || r[|r| - 1] != '/')
    ensures forall i :: |r| <= i < |s| ==> s[i] == '/'
  {
    if s != [] && s[|s| - 1] == '/' then RStripSlash(s[..|s| - 1]) else s
  }

  /** Python `s.replace(a, b)` / JavaScript `s.replace(/a/g, b)` for single characters. */
  function ReplaceChar(s: string, a: char, b: char): (r: string)
    ensures |r| == |s|
    ensures forall i :: 0 <= i < |s| ==> r[i] == (if s[i] == a then b else s[i])
  {
    if s == [] then [] else [if s[0] == a then b else s[0]] + ReplaceChar(s[1..], a, b)
  }

  /** Decimal rendering of a natural number, as `${n}` in JavaScript. */
  function NatToString(n: nat): (r: string)
    ensures |r| >= 1
    ensures forall i :: 0 <= i < |r| ==> '0' <= r[i] <= '9'
  {
    var d := ['0' + (n % 10) as char];
    if n < 10 then d else NatToString(n / 10) + d
  }

  // ---------------------------------------------------------------------------
  // "Newest first": every listing sorts by a timestamp, descending
  // ---------------------------------------------------------------------------

  ghost predicate SortedDesc<T>(s: seq<T>, key: T -> int)
  {
    forall i, j :: 0 <= i < j < |s| ==> key(s[i]) >= key(s[j])
  }

  function InsertDesc<T>(x: T, s: seq<T>, key: T -> int): (r: seq<T>)
    ensures |r| == |s| + 1 && multiset(r) == multiset(s) + multiset{x}
    ensures r[0] == x || (s != [] && r[0] == s[0])
    ensures SortedDesc(s, key) ==> SortedDesc(r, key)
  {
    if s == [] then [x]
    else if key(x) >= key(s[0]) then [x] + s
    else
      var t := InsertDesc(x, s[1..], key);
      assert s == [s[0]] + s[1..];
      [s[0]] + t
  }

  /** The order of a `.sort({ createdAt: -1 })` query: a permutation of the
      input, latest timestamp first. */
  function SortDesc<T>(s: seq<T>, key: T -> int): (r: seq<T>)
    ensures |r| == |s| && multiset(r) == multiset(s)
    ensures SortedDesc(r, key)
  {
    if s == [] then []
    else
      assert s == [s[0]] + s[1..];
      InsertDesc(s[0], SortDesc(s[1..], key), key)
  }

  lemma SortDescMembers<T>(s: seq<T>, key: T -> int, x: T)
    ensures x in SortDesc(s, key) <==> x in s
  {
    var r := SortDesc(s, key);
    assert x in r <==> x in multiset(r);
    assert x in s <==> x in multiset(s);
  }

  function Min(a: int, b: int): int { if a <= b then a else b }

  // ---------------------------------------------------------------------------
  // Lookup by key
  // ---------------------------------------------------------------------------

  /** The position of the first element whose key is `k`: a `findById` over a
      collection held in insertion order. */
  function FindFirst<K(==), T>(s: seq<T>, key: T -> K, k: K): (r: Option<nat>)
    ensures r.None? <==> forall j :: 0 <= j < |s| ==> key(s[j]) != k
    ensures r.Some? ==> r.value < |s| && key(s[r.value]) == k
                        && forall j :: 0 <= j < r.value ==> key(s[j]) != k
  {
    if s == [] then None
    else if key(s[0]) == k then Some(0)
    else
      var r := FindFirst(s[1..], key, k);
      if r.None? then None else Some(r.value + 1)
  }

  /** `s` without its element at position `k`. */
  function RemoveAt<T>(s: seq<T>, k: nat): (r: seq<T>)
    requires k < |s|
    ensures |r| == |s| - 1
    ensures forall j :: 0 <= j < k ==> r[j] == s[j]
    ensures forall j :: k <= j < |r| ==> r[j] == s[j + 1]
    ensures multiset(r) + multiset{s[k]} == multiset(s)
  {
    assert s == s[..k] + [s[k]] + s[k + 1..];
    s[..k] + s[k + 1..]
  }

  /** No two elements share a key. */
  ghost predicate UniqueKeys<K, T>(s: seq<T>, key: T -> K)
  {
    forall i, j :: 0 <= i < j < |s| ==> key(s[i]) != key(s[j])
  }

  /** Appending an element whose key is not yet used keeps the keys unique. */
  lemma AppendFreshKey<K, T>(s: seq<T>, key: T -> K, x: T)
    requires UniqueKeys(s, key) && FindFirst(s, key, key(x)).None?
    ensures UniqueKeys(s + [x], key)
  {
    var r := s + [x];
    forall i, j | 0 <= i < j < |r| ensures key(r[i]) != key(r[j]) {
      if j == |s| {
        assert r[i] == s[i];
      } else {
        assert r[i] == s[i] && r[j] == s[j];
      }
    }
  }

  /** Removing an element from a collection with unique keys keeps the keys
      unique and leaves no element with the removed key. */
  lemma RemoveUniqueKey<K, T>(s: seq<T>, key: T -> K, k: nat)
    requires k < |s| && UniqueKeys(s, key)
    ensures UniqueKeys(RemoveAt(s, k), key)
    ensures FindFirst(RemoveAt(s, k), key, key(s[k])).None?
  {
    var r := RemoveAt(s, k);
    forall j | 0 <= j < |r| ensures key(r[j]) != key(s[k]) {
      if j >= k {
        assert r[j] == s[j + 1];
      }
    }
  }
}
