/** Shared vocabulary of the model: optional values, naive UTC timestamps,
    the Python string operations the backend relies on, and the small
    sequence utilities (filter, stable sort, pagination) that stand in for
    SQL WHERE / ORDER BY / OFFSET / LIMIT. */
module Common {

  datatype Option<T> = None | Some(value: T)

  /** Python truthiness of an optional integer: None and 0 are both false. */
  predicate Truthy(x: Option<int>) { x.Some? && x.value != 0 }

  /** Python truthiness of an optional string: None and "" are both false. */
  predicate TruthyStr(x: Option<String>) { x.Some? && x.value != [] }

  /** A naive UTC timestamp in whole seconds. */
  type Time = int

  const SecondsPerDay: int := 86400

  /** `timedelta.days` of a difference in seconds: the floor of the quotient.
      Dafny's `/` is Euclidean, which agrees with floor for a positive divisor. */
  function DaysOf(seconds: int): (d: int)
    ensures d * SecondsPerDay <= seconds < (d + 1) * SecondsPerDay
  {
    seconds / SecondsPerDay
  }

  function Max(a: int, b: int): (m: int)
    ensures m >= a && m >= b && (m == a || m == b)
  {
    if a >= b then a else b
  }

  function Min(a: int, b: int): (m: int)
    ensures m <= a && m <= b && (m == a || m == b)
  {
    if a <= b then a else b
  }

  // ---------------------------------------------------------------------
  // Characters. Whitespace is Python's full `str.isspace` set; digits,
  // letters and case mapping cover the ASCII range only.
  // ---------------------------------------------------------------------

  /** Python's `str.isspace` (also what `str.strip()`, `str.split()` and `re`'s `\s` use). */
  predicate IsSpace(c: char) {
    ('\t' <= c <= '\r') || ('\U{001C}' <= c <= ' ') || c == '\U{0085}' || c == '\U{00A0}'
    || c == '\U{1680}' || ('\U{2000}' <= c <= '\U{200A}') || c == '\U{2028}' || c == '\U{2029}'
    || c == '\U{202F}' || c == '\U{205F}' || c == '\U{3000}'
  }

  /** `str.isdigit` and friends, on the ASCII range */
  predicate IsDigit(c: char) { '0' <= c <= '9' }
  predicate IsUpper(c: char) { 'A' <= c <= 'Z' }
  predicate IsLowerLetter(c: char) { 'a' <= c <= 'z' }
  predicate IsAlnum(c: char) { IsDigit(c) || IsUpper(c) || IsLowerLetter(c) }

  function LowerChar(c: char): (r: char)
    ensures IsUpper(c) ==> IsLowerLetter(r)
    ensures !IsUpper(c) ==> r == c
  {
    if IsUpper(c) then (c as int + 32) as char else c
  }

  function UpperChar(c: char): (r: char)
    ensures IsLowerLetter(c) ==> IsUpper(r)
    ensures !IsLowerLetter(c) ==> r == c
  {
    if IsLowerLetter(c) then (c as int - 32) as char else c
  }

  // ---------------------------------------------------------------------
  // Strings
  // ---------------------------------------------------------------------

  type String = seq<char>

  /** `str.lower()` on the ASCII range */
  function Lower(s: String): (r: String)
    ensures |r| == |s|
    ensures forall i :: 0 <= i < |s| ==> r[i] == LowerChar(s[i])
  {
    seq(|s|, i requires 0 <= i < |s| => LowerChar(s[i]))
  }

  predicate IsLowered(s: String) {
    forall i :: 0 <= i < |s| ==> !IsUpper(s[i])
  }

  /** `str.upper()` on the ASCII range */
  function Upper(s: String): (r: String)
    ensures |r| == |s|
    ensures forall i :: 0 <= i < |s| ==> r[i] == UpperChar(s[i])
  {
    seq(|s|, i requires 0 <= i < |s| => UpperChar(s[i]))
  }

  lemma LowerIsLowered(s: String)
    ensures IsLowered(Lower(s)) && Lower(Lower(s)) == Lower(s)
  {
  }

  /** `str.lstrip()` */
  function LStrip(s: String): (r: String)
    ensures |r| <= |s|
    ensures r != [] ==> !IsSpace(r[0])
  {
    if s != [] && IsSpace(s[0]) then LStrip(s[1..]) else s
  }

  /** `str.lstrip()` drops a prefix of whitespace. */
  lemma {:induction false} LStripSlice(s: String)
    ensures LStrip(s) == s[|s| - |LStrip(s)|..]
    ensures forall i :: 0 <= i < |s| - |LStrip(s)| ==> IsSpace(s[i])
  {
    if s != [] && IsSpace(s[0]) {
      LStripSlice(s[1..]);
      assert forall i :: 1 <= i < |s| ==> s[i] == s[1..][i - 1];
    }
  }

  /** `str.rstrip()` */
  function RStrip(s: String): (r: String)
    ensures |r| <= |s|
    ensures r != [] ==> !IsSpace(r[|r| - 1])
  {
    if s != [] && IsSpace(s[|s| - 1]) then RStrip(s[..|s| - 1]) else s
  }

  /** `str.rstrip()` drops a suffix of whitespace. */
  lemma {:induction false} RStripSlice(s: String)
    ensures RStrip(s) == s[..|RStrip(s)|]
    ensures forall i :: |RStrip(s)| <= i < |s| ==> IsSpace(s[i])
  {
    if s != [] && IsSpace(s[|s| - 1]) {
      RStripSlice(s[..|s| - 1]);
    }
  }

  /** `str.strip()` */
  function Strip(s: String): (r: String)
    ensures |r| <= |s|
    ensures r != [] ==> !IsSpace(r[0]) && !IsSpace(r[|r| - 1])
  {
    var t := RStrip(s);
    LStripSlice(t);
    LStrip(t)
  }

  /** Lower-casing never creates or removes whitespace. */
  lemma LowerCharSpace(c: char)
    ensures IsSpace(LowerChar(c)) == IsSpace(c)
  {
  }

  lemma {:induction false} LStripLower(s: String)
    ensures LStrip(Lower(s)) == Lower(LStrip(s))
    decreases |s|
  {
    if s != [] {
      LowerCharSpace(s[0]);
      assert Lower(s)[1..] == Lower(s[1..]);
      LStripLower(s[1..]);
    }
  }

  lemma {:induction false} RStripLower(s: String)
    ensures RStrip(Lower(s)) == Lower(RStrip(s))
    decreases |s|
  {
    if s != [] {
      LowerCharSpace(s[|s| - 1]);
      assert Lower(s)[..|s| - 1] == Lower(s[..|s| - 1]);
      RStripLower(s[..|s| - 1]);
    }
  }

  /** `s.lower().strip() == s.strip().lower()` */
  lemma StripLower(s: String)
    ensures Strip(Lower(s)) == Lower(Strip(s))
  {
    RStripLower(s);
    LStripLower(RStrip(s));
  }

  /** True when every character is whitespace (so `s.strip()` is empty). */
  predicate AllSpace(s: String) {
    forall i :: 0 <= i < |s| ==> IsSpace(s[i])
  }

  lemma {:induction false} StripEmptyIffAllSpace(s: String)
    ensures Strip(s) == [] <==> AllSpace(s)
  {
    var t := RStrip(s);
    RStripSlice(s);
    LStripSlice(t);
    if Strip(s) == [] {
      assert forall i :: 0 <= i < |t| ==> IsSpace(t[i]);
      assert forall i :: 0 <= i < |s| ==> IsSpace(s[i]) by {
        forall i | 0 <= i < |s| ensures IsSpace(s[i]) {
          if i < |t| { assert t[i] == s[i]; }
        }
      }
    } else {
      var r := Strip(s);
      assert !IsSpace(r[0]);
      assert r == t[|t| - |r|..];
      assert t[|t| - |r|] == r[0];
      assert s[|t| - |r|] == t[|t| - |r|];
    }
  }

  predicate StartsWith(s: String, prefix: String) {
    |prefix| <= |s| && s[..|prefix|] == prefix
  }

  predicate EndsWith(s: String, suffix: String) {
    |suffix| <= |s| && s[|s| - |suffix|..] == suffix
  }

  /** `sub in s` */
  predicate Contains(s: String, sub: String)
    decreases |s|
  {
    StartsWith(s, sub) || (s != [] && Contains(s[1..], sub))
  }

  /** `c in s` for a single character */
  predicate HasChar(s: String, c: char) {
    exists i :: 0 <= i < |s| && s[i] == c
  }

  /** `s[:n]` for n >= 0 */
  function Take<T>(s: seq<T>, n: nat): (r: seq<T>)
    ensures |r| == Min(n, |s|) && r == s[..|r|]
  {
    if n <= |s| then s[..n] else s
  }

  /** Removes every occurrence of `c` (`s.replace(c, '')`). */
  function RemoveChar(s: String, c: char): (r: String)
    ensures |r| <= |s|
    ensures forall i :: 0 <= i < |r| ==> r[i] != c
    ensures forall x :: x in r <==> x in s && x != c
  {
    if s == [] then []
    else (if s[0] == c then [] else [s[0]]) + RemoveChar(s[1..], c)
  }

  /** `str.isalnum()`: non-empty and every character alphanumeric. */
  predicate IsAlnumStr(s: String) {
    |s| > 0 && forall i :: 0 <= i < |s| ==> IsAlnum(s[i])
  }

  /** Index of the first `sep` in `s`, if any. */
  function FindChar(s: String, sep: char): (r: Option<nat>)
    ensures r.Some? ==> r.value < |s| && s[r.value] == sep && sep !in s[..r.value]
    ensures r.None? ==> sep !in s
  {
    if s == [] then None
    else if s[0] == sep then Some(0)
    else match FindChar(s[1..], sep)
      case None => None
      case Some(k) => Some(k + 1)
  }

  /** `s.split(sep)` for a one-character separator: always at least one piece,
      no piece contains the separator. */
  function Split(s: String, sep: char): (r: seq<String>)
    ensures |r| >= 1
    ensures forall i :: 0 <= i < |r| ==> sep !in r[i]
    decreases |s|
  {
    match FindChar(s, sep)
    case None => [s]
    case Some(k) => [s[..k]] + Split(s[k + 1..], sep)
  }

  /** `sep.join(parts)` */
  function Join(parts: seq<String>, sep: String): (r: String)
  {
    if parts == [] then []
    else if |parts| == 1 then parts[0]
    else parts[0] + sep + Join(parts[1..], sep)
  }

  lemma {:induction false} SplitJoin(s: String, sep: char)
    ensures Join(Split(s, sep), [sep]) == s
    decreases |s|
  {
    match FindChar(s, sep)
    case None =>
    case Some(k) =>
      var rest := Split(s[k + 1..], sep);
      assert Split(s, sep) == [s[..k]] + rest;
      JoinCons(s[..k], rest, [sep]);
      SplitJoin(s[k + 1..], sep);
      assert s == s[..k] + [sep] + s[k + 1..];
  }

  lemma JoinCons(a: String, rest: seq<String>, sep: String)
    requires rest != []
    ensures Join([a] + rest, sep) == a + sep + Join(rest, sep)
  {
    assert ([a] + rest)[1..] == rest;
  }

  /** The first `sep` after a piece without one is found right after that piece. */
  lemma {:induction false} FindCharAfter(a: String, sep: char, b: String)
    requires sep !in a
    ensures FindChar(a + [sep] + b, sep) == Some(|a|)
  {
    if a != [] {
      assert (a + [sep] + b)[1..] == a[1..] + [sep] + b;
      FindCharAfter(a[1..], sep, b);
    }
  }

  /** `sep.join(parts).split(sep) == parts` when no part holds `sep`. */
  lemma {:induction false} JoinSplit(parts: seq<String>, sep: char)
    requires |parts| >= 1
    requires forall k :: 0 <= k < |parts| ==> sep !in parts[k]
    ensures Split(Join(parts, [sep]), sep) == parts
  {
    if |parts| > 1 {
      var rest := Join(parts[1..], [sep]);
      var s := parts[0] + [sep] + rest;
      FindCharAfter(parts[0], sep, rest);
      assert s[..|parts[0]|] == parts[0];
      assert s[|parts[0]| + 1..] == rest;
      JoinSplit(parts[1..], sep);
      assert [parts[0]] + parts[1..] == parts;
    }
  }

  /** `rel` holds between every earlier and every later element. */
  ghost predicate Pairwise<T>(s: seq<T>, rel: (T, T) -> bool) {
    forall i, j :: 0 <= i < j < |s| ==> rel(s[i], s[j])
  }

  lemma PairwiseCons<T>(x: T, u: seq<T>, rel: (T, T) -> bool)
    ensures Pairwise([x] + u, rel) <==> (forall y :: y in u ==> rel(x, y)) && Pairwise(u, rel)
  {
    var s := [x] + u;
    if (forall y :: y in u ==> rel(x, y)) && Pairwise(u, rel) {
      forall i, j | 0 <= i < j < |s| ensures rel(s[i], s[j]) {
        if i == 0 { assert s[j] == u[j - 1]; } else { assert s[i] == u[i - 1] && s[j] == u[j - 1]; }
      }
    }
    if Pairwise(s, rel) {
      forall y | y in u ensures rel(x, y) {
        var k :| 0 <= k < |u| && u[k] == y;
        assert s[0] == x && s[k + 1] == y;
        assert rel(s[0], s[k + 1]);
      }
      forall i, j | 0 <= i < j < |u| ensures rel(u[i], u[j]) {
        assert s[i + 1] == u[i] && s[j + 1] == u[j];
      }
    }
  }

  /** Filtering keeps the order, so a relation between every earlier and
      later element survives it. */
  /** Appending an element related to every earlier one keeps `Pairwise`. */
  lemma PairwiseSnoc<T>(s: seq<T>, x: T, rel: (T, T) -> bool)
    requires Pairwise(s, rel) && forall y :: y in s ==> rel(y, x)
    ensures Pairwise(s + [x], rel)
  {
    var t := s + [x];
    forall i, j | 0 <= i < j < |t| ensures rel(t[i], t[j]) {
      if j == |s| { assert t[i] in s; } else { assert t[i] == s[i] && t[j] == s[j]; }
    }
  }

  lemma {:induction false} FilterPairwise<T>(s: seq<T>, p: T -> bool, rel: (T, T) -> bool)
    requires Pairwise(s, rel)
    ensures Pairwise(Filter(s, p), rel)
  {
    if s != [] {
      var t := s[1..];
      assert s == [s[0]] + t;
      PairwiseCons(s[0], t, rel);
      FilterPairwise(t, p, rel);
      if p(s[0]) {
        PairwiseCons(s[0], Filter(t, p), rel);
      }
    }
  }

  /** `s.split()` with no argument: maximal runs of non-whitespace. */
  function SplitWs(s: String): (r: seq<String>)
    ensures forall i :: 0 <= i < |r| ==> IsWord(r[i])
    decreases |s|
  {
    if s == [] then []
    else if IsSpace(s[0]) then SplitWs(s[1..])
    else
      var n := WordLen(s);
      [FirstWord(s, n)] + SplitWs(s[n..])
  }

  /** The leading run of non-whitespace of a string that starts with one. */
  function FirstWord(s: String, n: nat): (w: String)
    requires s != [] && !IsSpace(s[0]) && n == WordLen(s)
    ensures IsWord(w) && w == s[..n]
  {
    var w := s[..n];
    assert forall j :: 0 <= j < |w| ==> w[j] == s[j];
    w
  }

  /** A piece of `str.split()`: non-empty, without whitespace. */
  predicate IsWord(w: String) {
    w != [] && forall j :: 0 <= j < |w| ==> !IsSpace(w[j])
  }

  /** Length of the leading run of non-whitespace characters. */
  function WordLen(s: String): (n: nat)
    ensures n <= |s|
    ensures forall j :: 0 <= j < n ==> !IsSpace(s[j])
    ensures n < |s| ==> IsSpace(s[n])
    ensures s != [] && !IsSpace(s[0]) ==> n > 0
  {
    if s == [] || IsSpace(s[0]) then 0 else 1 + WordLen(s[1..])
  }

  lemma {:induction false} SplitWsOfSpaces(s: String)
    requires AllSpace(s)
    ensures SplitWs(s) == []
    decreases |s|
  {
    if s != [] {
      SplitWsOfSpaces(s[1..]);
    }
  }

  // ---------------------------------------------------------------------
  // Sequences as tables
  // ---------------------------------------------------------------------

  /** `[x for x in s if p(x)]` / SQL WHERE, keeping the table order. */
  function Filter<T>(s: seq<T>, p: T -> bool): (r: seq<T>)
    ensures |r| <= |s|
    ensures forall i :: 0 <= i < |r| ==> p(r[i])
    ensures forall i :: 0 <= i < |r| ==> r[i] in s
    ensures forall x :: x in s && p(x) ==> x in r
  {
    if s == [] then []
    else (if p(s[0]) then [s[0]] else []) + Filter(s[1..], p)
  }

  lemma {:induction false} FilterCount<T>(s: seq<T>, p: T -> bool)
    ensures |Filter(s, p)| == Count(s, p)
  {
    if s != [] { FilterCount(s[1..], p); }
  }

  /** Filtering a row appended at the end. */
  lemma {:induction false} FilterSnoc<T>(s: seq<T>, x: T, p: T -> bool)
    ensures Filter(s + [x], p) == Filter(s, p) + (if p(x) then [x] else [])
  {
    if s != [] {
      assert (s + [x])[1..] == s[1..] + [x];
      FilterSnoc(s[1..], x, p);
    }
  }

  /** SQL COUNT(*) with a WHERE clause. */
  function Count<T>(s: seq<T>, p: T -> bool): (n: nat)
    ensures n <= |s|
  {
    if s == [] then 0 else (if p(s[0]) then 1 else 0) + Count(s[1..], p)
  }

  /** Counting an element appended at the end. */
  lemma {:induction false} CountSnoc<T>(s: seq<T>, x: T, p: T -> bool)
    ensures Count(s + [x], p) == Count(s, p) + (if p(x) then 1 else 0)
  {
    if s != [] {
      assert (s + [x])[1..] == s[1..] + [x];
      CountSnoc(s[1..], x, p);
    }
  }

  /** A stricter condition counts no more rows. */
  lemma {:induction false} CountMono<T>(s: seq<T>, p: T -> bool, q: T -> bool)
    requires forall x :: p(x) ==> q(x)
    ensures Count(s, p) <= Count(s, q)
  {
    if s != [] { CountMono(s[1..], p, q); }
  }

  /** A condition every row meets counts every row. */
  lemma {:induction false} CountAll<T>(s: seq<T>, p: T -> bool)
    requires forall x :: p(x)
    ensures Count(s, p) == |s|
  {
    if s != [] { CountAll(s[1..], p); }
  }

  /** A condition no row meets counts nothing. */
  lemma {:induction false} CountNone<T>(s: seq<T>, p: T -> bool)
    requires forall k :: 0 <= k < |s| ==> !p(s[k])
    ensures Count(s, p) == 0
  {
    if s != [] { CountNone(s[1..], p); }
  }

  /** A count of zero means no row satisfies the condition. */
  lemma {:induction false} CountZeroNone<T>(s: seq<T>, p: T -> bool)
    requires Count(s, p) == 0
    ensures forall x :: x in s ==> !p(x)
  {
    if s != [] {
      CountZeroNone(s[1..], p);
      assert forall x :: x in s ==> x == s[0] || x in s[1..];
    }
  }

  /** A positive count means some row satisfies the condition. */
  lemma {:induction false} CountPositive<T>(s: seq<T>, p: T -> bool)
    requires Count(s, p) > 0
    ensures exists x :: x in s && p(x)
  {
    if !p(s[0]) {
      CountPositive(s[1..], p);
      var x :| x in s[1..] && p(x);
      assert x in s;
    }
  }

  /** The count is zero exactly when no row satisfies the condition. */
  lemma CountZeroIff<T>(s: seq<T>, p: T -> bool)
    ensures Count(s, p) == 0 <==> forall x :: x in s ==> !p(x)
  {
    if Count(s, p) == 0 { CountZeroNone(s, p); } else { CountPositive(s, p); }
  }

  /** Two tables of the same length whose rows agree on the condition, row
      by row, count the same. */
  lemma {:induction false} CountAgree<T>(s: seq<T>, t: seq<T>, p: T -> bool)
    requires |s| == |t|
    requires forall k :: 0 <= k < |s| ==> p(s[k]) == p(t[k])
    ensures Count(s, p) == Count(t, p)
  {
    if s != [] { CountAgree(s[1..], t[1..], p); }
  }

  /** Index of the first element satisfying `p` (SQLAlchemy's `.first()`). */
  function FindFirst<T>(s: seq<T>, p: T -> bool): (r: Option<nat>)
    ensures r.Some? ==> r.value < |s| && p(s[r.value]) && forall j :: 0 <= j < r.value ==> !p(s[j])
    ensures r.None? ==> forall j :: 0 <= j < |s| ==> !p(s[j])
  {
    if s == [] then None
    else if p(s[0]) then Some(0)
    else match FindFirst(s[1..], p)
      case None => None
      case Some(k) => Some(k + 1)
  }

  /** Removes the element at index `i`. */
  function RemoveAt<T>(s: seq<T>, i: nat): (r: seq<T>)
    requires i < |s|
    ensures |r| == |s| - 1
    ensures forall j :: 0 <= j < i ==> r[j] == s[j]
    ensures forall j :: i <= j < |r| ==> r[j] == s[j + 1]
    ensures forall x :: x in r ==> x in s
  {
    assert forall x :: x in s[..i] + s[i + 1..] ==> x in s[..i] || x in s[i + 1..];
    s[..i] + s[i + 1..]
  }

  /** Replacing the element just appended is appending the replacement. */
  lemma ReplaceLast<T>(s: seq<T>, x: T, y: T)
    ensures (s + [x])[|s| := y] == s + [y]
  {
    assert forall k :: 0 <= k < |s| + 1 ==> (s + [x])[|s| := y][k] == (s + [y])[k];
  }

  /** An element appended after rows that all fail the test is the first hit. */
  lemma {:induction false} FindFirstSnoc<T>(s: seq<T>, x: T, p: T -> bool)
    requires forall j :: 0 <= j < |s| ==> !p(s[j])
    requires p(x)
    ensures FindFirst(s + [x], p) == Some(|s|)
  {
    if s != [] {
      assert (s + [x])[1..] == s[1..] + [x];
      FindFirstSnoc(s[1..], x, p);
    }
  }

  /** `list(reversed(s))` */
  function Reverse<T>(s: seq<T>): (r: seq<T>)
    ensures |r| == |s| && forall k :: 0 <= k < |s| ==> r[k] == s[|s| - 1 - k]
  {
    if s == [] then [] else Reverse(s[1..]) + [s[0]]
  }

  /** OFFSET `offset` LIMIT `limit` */
  function Page<T>(s: seq<T>, offset: nat, limit: nat): (r: seq<T>)
    ensures |r| <= limit
    ensures offset >= |s| ==> r == []
    ensures offset < |s| ==> r == s[offset..Min(offset + limit, |s|)]
  {
    if offset >= |s| then [] else s[offset..Min(offset + limit, |s|)]
  }

  /** A sort key: compared lexicographically. */
  type Key = (int, int)

  predicate KeyGe(a: Key, b: Key) {
    a.0 > b.0 || (a.0 == b.0 && a.1 >= b.1)
  }

  ghost predicate SortedDesc<T>(s: seq<T>, key: T -> Key) {
    forall i, j :: 0 <= i < j < |s| ==> KeyGe(key(s[i]), key(s[j]))
  }

  /** Inserts `x` in front of the first element whose key it reaches. */
  function InsertDesc<T>(x: T, s: seq<T>, key: T -> Key): (r: seq<T>)
    ensures |r| == |s| + 1
  {
    if s == [] then [x]
    else if KeyGe(key(x), key(s[0])) then [x] + s
    else [s[0]] + InsertDesc(x, s[1..], key)
  }

  lemma {:induction false} InsertDescPermutes<T>(x: T, s: seq<T>, key: T -> Key)
    ensures multiset(InsertDesc(x, s, key)) == multiset(s) + multiset{x}
  {
    if s != [] && !KeyGe(key(x), key(s[0])) {
      InsertDescPermutes(x, s[1..], key);
      assert s == [s[0]] + s[1..];
    }
  }

  lemma {:induction false} InsertDescSorted<T>(x: T, s: seq<T>, key: T -> Key)
    requires SortedDesc(s, key)
    ensures SortedDesc(InsertDesc(x, s, key), key)
  {
    if s == [] {
    } else if KeyGe(key(x), key(s[0])) {
      SortedDescCons(x, s, key) by {
        forall y | y in multiset(s) ensures KeyGe(key(x), key(y)) {
          var m :| 0 <= m < |s| && s[m] == y;
          if m > 0 { assert KeyGe(key(s[0]), key(s[m])); }
        }
      }
    } else {
      var tail := s[1..];
      assert SortedDesc(tail, key) by {
        forall i, j | 0 <= i < j < |tail| ensures KeyGe(key(tail[i]), key(tail[j])) {
          assert tail[i] == s[i + 1] && tail[j] == s[j + 1];
        }
      }
      InsertDescSorted(x, tail, key);
      InsertDescPermutes(x, tail, key);
      HeadDominates(x, s, key);
      SortedDescCons(s[0], InsertDesc(x, tail, key), key);
    }
  }

  /** The head of a sorted sequence is at least every later element and
      every element that would sort after it. */
  lemma HeadDominates<T>(x: T, s: seq<T>, key: T -> Key)
    requires s != [] && SortedDesc(s, key) && !KeyGe(key(x), key(s[0]))
    ensures forall y :: y in multiset(s[1..]) + multiset{x} ==> KeyGe(key(s[0]), key(y))
  {
    forall y | y in multiset(s[1..]) + multiset{x} ensures KeyGe(key(s[0]), key(y)) {
      if y in multiset(s[1..]) {
        var m :| 0 <= m < |s[1..]| && s[1..][m] == y;
        assert s[m + 1] == y;
      }
    }
  }

  lemma SortedDescCons<T>(a: T, u: seq<T>, key: T -> Key)
    requires SortedDesc(u, key) && forall y :: y in multiset(u) ==> KeyGe(key(a), key(y))
    ensures SortedDesc([a] + u, key)
  {
    var t := [a] + u;
    forall i, j | 0 <= i < j < |t| ensures KeyGe(key(t[i]), key(t[j])) {
      assert t[j] == u[j - 1] && u[j - 1] in multiset(u);
      if i > 0 { assert t[i] == u[i - 1]; }
    }
  }

  /** ORDER BY key DESC, as an insertion sort (rows with equal keys come in
      no order the database promises). */
  function SortDesc<T>(s: seq<T>, key: T -> Key): (r: seq<T>)
    ensures |r| == |s|
  {
    if s == [] then [] else InsertDesc(s[0], SortDesc(s[1..], key), key)
  }

  /** The sorted rows are in key order and are the input rows, each as
      often as in the input. */
  lemma {:induction false} SortDescFacts<T>(s: seq<T>, key: T -> Key)
    ensures SortedDesc(SortDesc(s, key), key)
    ensures multiset(SortDesc(s, key)) == multiset(s)
    ensures forall x :: x in SortDesc(s, key) <==> x in s
  {
    if s != [] {
      var rest := SortDesc(s[1..], key);
      SortDescFacts(s[1..], key);
      InsertDescSorted(s[0], rest, key);
      InsertDescPermutes(s[0], rest, key);
      assert s == [s[0]] + s[1..];
    }
    var r := SortDesc(s, key);
    forall x ensures x in r <==> x in s {
      assert x in r <==> x in multiset(r);
      assert x in s <==> x in multiset(s);
    }
  }

  /** `from module import a, b, ...` succeeds when every name is defined. */
  predicate ImportsResolve(imports: seq<String>, defined: seq<String>) {
    forall k :: 0 <= k < |imports| ==> imports[k] in defined
  }

  /** An endpoint's answer: a value, or an `HTTPException` with its status
      code and detail. */
  datatype Outcome<T> = Ok(value: T) | HttpError(status: int, detail: String)

  /** The body of the application-wide handler for uncaught exceptions. */
  const InternalError: String := "Internal server error"

  /** A list endpoint's answer: one page of rows and the number of matches. */
  datatype PageResult<T> = PageResult(items: seq<T>, total: nat)

  /** `query.filter(p)`, `total = query.count()`, then `order_by(key desc)
      .offset((page - 1) * limit).limit(limit)`. */
  function ListPage<T>(s: seq<T>, p: T -> bool, key: T -> Key, page: int, limit: int): (r: PageResult<T>)
    requires page >= 1 && limit >= 1
    ensures r.total == Count(s, p)
    ensures |r.items| <= limit
    ensures forall i :: 0 <= i < |r.items| ==> r.items[i] in s && p(r.items[i])
    ensures SortedDesc(r.items, key)
  {
    var matching := Filter(s, p);
    var items := Page(SortDesc(matching, key), (page - 1) * limit, limit);
    ListPageFacts(s, p, key, (page - 1) * limit, limit);
    PageResult(items, |matching|)
  }

  lemma ListPageFacts<T>(s: seq<T>, p: T -> bool, key: T -> Key, offset: nat, limit: nat)
    ensures |Filter(s, p)| == Count(s, p)
    ensures var items := Page(SortDesc(Filter(s, p), key), offset, limit);
            (forall i :: 0 <= i < |items| ==> items[i] in s && p(items[i])) && SortedDesc(items, key)
  {
    var matching := Filter(s, p);
    var sorted := SortDesc(matching, key);
    SortDescFacts(matching, key);
    FilterCount(s, p);
    var items := Page(sorted, offset, limit);
    forall i | 0 <= i < |items| ensures items[i] in s && p(items[i]) {
      assert items[i] == sorted[offset + i];
      assert items[i] in sorted;
    }
    SortedSlice(sorted, key, offset, limit);
  }

  lemma SortedSlice<T>(s: seq<T>, key: T -> Key, offset: nat, limit: nat)
    requires SortedDesc(s, key)
    ensures SortedDesc(Page(s, offset, limit), key)
  {
    if offset < |s| {
      var r := Page(s, offset, limit);
      forall i, j | 0 <= i < j < |r| ensures KeyGe(key(r[i]), key(r[j])) {
        assert r[i] == s[offset + i] && r[j] == s[offset + j];
      }
    }
  }

  /** When the matches fit in `limit`, the first page of the sorted matches holds every one of them. */
  lemma FirstPageComplete<T>(s: seq<T>, p: T -> bool, key: T -> Key, limit: nat)
    requires Count(s, p) <= limit
    ensures Page(SortDesc(Filter(s, p), key), 0, limit) == SortDesc(Filter(s, p), key)
    ensures forall x :: x in s && p(x) ==> x in Page(SortDesc(Filter(s, p), key), 0, limit)
  {
    FilterCount(s, p);
    var sorted := SortDesc(Filter(s, p), key);
    SortDescFacts(Filter(s, p), key);
    if |sorted| > 0 {
      assert Page(sorted, 0, limit) == sorted[0..|sorted|] == sorted;
    }
  }

  /** When one page holds every match, the first page lists all of them. */
  lemma {:induction false} FirstPageHasAll<T>(s: seq<T>, p: T -> bool, key: T -> Key, limit: int)
    requires limit >= Count(s, p) && limit >= 1
    ensures multiset(ListPage(s, p, key, 1, limit).items) == multiset(Filter(s, p))
  {
    FilterCount(s, p);
    var sorted := SortDesc(Filter(s, p), key);
    SortDescFacts(Filter(s, p), key);
    if |sorted| > 0 {
      assert Page(sorted, 0, limit) == sorted[0..|sorted|] == sorted;
    }
  }

  /** `s.split(sep)[-1]`: the text after the last `sep`, or all of `s`. */
  function AfterLast(s: String, sep: char): (r: String)
    ensures |r| <= |s| && r == s[|s| - |r|..]
    ensures sep !in r
    ensures |r| < |s| ==> s[|s| - |r| - 1] == sep
  {
    if s == [] then []
    else if s[|s| - 1] == sep then []
    else AfterLast(s[..|s| - 1], sep) + [s[|s| - 1]]
  }

  /** Without a separator the whole string is the last part. */
  lemma AfterLastNoSep(s: String, sep: char)
    requires sep !in s
    ensures AfterLast(s, sep) == s
  {
  }

  /** The part after the last separator of `a + [sep] + b` is `b`. */
  lemma {:induction false} AfterLastOfJoin(a: String, sep: char, b: String)
    requires sep !in b
    ensures AfterLast(a + [sep] + b, sep) == b
  {
    var s := a + [sep] + b;
    var r := AfterLast(s, sep);
    assert s[|s| - |b| - 1] == sep;
    assert |r| <= |b|;
    assert r == s[|s| - |r|..];
  }

  /** `math.ceil(total / limit)`, as the list endpoints compute page counts
      (`(total + limit - 1) // limit`, or 1 when there is nothing). */
  function Pages(total: nat, limit: nat): (p: nat)
    requires limit > 0
    ensures total == 0 ==> p == 1
    ensures total > 0 ==> (p - 1) * limit < total <= p * limit
  {
    if total == 0 then 1 else (total + limit - 1) / limit
  }

  // ---------------------------------------------------------------------
  // Integers as text: `str(n)` and `int(s)`
  // ---------------------------------------------------------------------

  function DigitChar(d: nat): (c: char)
    requires d < 10
    ensures IsDigit(c) && c as int - '0' as int == d
  {
    ('0' as int + d) as char
  }

  predicate AllDigits(s: String) {
    forall i :: 0 <= i < |s| ==> IsDigit(s[i])
  }

  /** The value of a run of decimal digits. */
  function DigitsValue(s: String): nat
    requires AllDigits(s)
  {
    if s == [] then 0 else DigitsValue(s[..|s| - 1]) * 10 + (s[|s| - 1] as int - '0' as int)
  }

  /** `str(n)` for n >= 0 */
  function NatToString(n: nat): (s: String)
    ensures AllDigits(s) && |s| >= 1
  {
    if n < 10 then [DigitChar(n)] else NatToString(n / 10) + [DigitChar(n % 10)]
  }

  /** `str(i)` */
  function IntToString(i: int): (s: String)
    ensures |s| >= 1 && !IsSpace(s[0]) && !IsSpace(s[|s| - 1])
  {
    if i < 0 then "-" + NatToString(-i) else NatToString(i)
  }

  /** `int(s)` on a decimal literal: surrounding whitespace is ignored, one
      optional sign, then at least one digit; None where Python raises ValueError. */
  function ParseInt(s: String): (r: Option<int>)
  {
    ParseLiteral(Strip(s))
  }

  /** `int(t)` on text without surrounding whitespace. */
  function ParseLiteral(t: String): (r: Option<int>)
  {
    if t == [] then None
    else if t[0] == '-' || t[0] == '+' then
      if |t| >= 2 && AllDigits(t[1..]) then
        var v: int := DigitsValue(t[1..]);
        Some(if t[0] == '-' then -v else v)
      else None
    else if AllDigits(t) then Some(DigitsValue(t))
    else None
  }

  lemma ParseUnsigned(d: String)
    requires AllDigits(d) && d != []
    ensures ParseLiteral(d) == Some(DigitsValue(d))
  {
    assert IsDigit(d[0]);
  }

  lemma ParseNegative(d: String)
    requires AllDigits(d) && d != []
    ensures ParseLiteral("-" + d) == Some(-(DigitsValue(d) as int))
  {
    var t := "-" + d;
    assert t[0] == '-' && t[1..] == d;
  }

  lemma {:induction false} DigitsValueOfNat(n: nat)
    ensures DigitsValue(NatToString(n)) == n
  {
    if n >= 10 {
      DigitsValueOfNat(n / 10);
      var s := NatToString(n);
      assert s[..|s| - 1] == NatToString(n / 10);
    }
  }

  lemma StripUnchanged(s: String)
    requires s != [] && !IsSpace(s[0]) && !IsSpace(s[|s| - 1])
    ensures Strip(s) == s
  {
  }

  /** Stripping twice is stripping once. */
  lemma StripIdempotent(s: String)
    ensures Strip(Strip(s)) == Strip(s)
  {
    if Strip(s) != [] { StripUnchanged(Strip(s)); }
  }

  /** `int(s.strip())`: the text is already stripped, so `int` reads it as is. */
  lemma ParseIntOfStripped(s: String)
    ensures ParseInt(Strip(s)) == ParseLiteral(Strip(s))
  {
    StripIdempotent(s);
  }

  /** `int(str(i)) == i`: printing an integer and parsing it back is the identity. */
  lemma ParseIntToString(i: int)
    ensures ParseInt(IntToString(i)) == Some(i)
  {
    var s := IntToString(i);
    StripUnchanged(s);
    if i < 0 {
      DigitsValueOfNat(-i);
      ParseNegative(NatToString(-i));
    } else {
      DigitsValueOfNat(i);
      ParseUnsigned(NatToString(i));
    }
  }

  /** `column.ilike('%term%')`; a NULL column matches nothing. */
  predicate ILike(field: String, term: String) { Contains(Lower(field), Lower(term)) }

  predicate ILikeOpt(field: Option<String>, term: String) { field.Some? && ILike(field.value, term) }

  /** A service call that either returns a value or raises `ValueError`
      with a message. */
  datatype Result<T> = Success(value: T) | Failure(error: String)

  /** Two WHERE clauses applied one after the other select what their
      conjunction selects, in the same order. */
  lemma {:induction false} FilterConj<T>(s: seq<T>, p: T -> bool, q: T -> bool, pq: T -> bool)
    requires forall x :: pq(x) == (p(x) && q(x))
    ensures Filter(Filter(s, p), q) == Filter(s, pq)
  {
    if s != [] {
      FilterConj(s[1..], p, q, pq);
      var fp := Filter(s, p);
      if p(s[0]) {
        assert fp == [s[0]] + Filter(s[1..], p);
        assert fp[1..] == Filter(s[1..], p);
        assert Filter(fp, q) == (if q(s[0]) then [s[0]] else []) + Filter(Filter(s[1..], p), q);
      } else {
        assert fp == Filter(s[1..], p);
      }
    }
  }

  /** A filter every row passes keeps the whole table. */
  lemma {:induction false} FilterTrue<T>(s: seq<T>, p: T -> bool)
    requires forall x :: p(x)
    ensures Filter(s, p) == s
  {
    if s != [] {
      FilterTrue(s[1..], p);
      assert s == [s[0]] + s[1..];
    }
  }

  /** Filters that agree on every row select the same rows. */
  lemma {:induction false} FilterExt<T>(s: seq<T>, p: T -> bool, q: T -> bool)
    requires forall x :: p(x) == q(x)
    ensures Filter(s, p) == Filter(s, q)
  {
    if s != [] {
      FilterExt(s[1..], p, q);
    }
  }

  // ---------------------------------------------------------------------
  // Strings in ascending order (ORDER BY text ASC, by code point)
  // ---------------------------------------------------------------------

  predicate StrLess(a: String, b: String)
    decreases |a|
  {
    (a == [] && b != []) ||
    (a != [] && b != [] && (a[0] < b[0] || (a[0] == b[0] && StrLess(a[1..], b[1..]))))
  }

  lemma {:induction false} StrLessIrreflexive(a: String)
    ensures !StrLess(a, a)
  {
    if a != [] { StrLessIrreflexive(a[1..]); }
  }

  lemma {:induction false} StrLessTrans(a: String, b: String, c: String)
    requires StrLess(a, b) && StrLess(b, c)
    ensures StrLess(a, c)
  {
    if a != [] && b != [] && c != [] && a[0] == b[0] && b[0] == c[0] {
      StrLessTrans(a[1..], b[1..], c[1..]);
    }
  }

  lemma {:induction false} StrLessTotal(a: String, b: String)
    requires a != b
    ensures StrLess(a, b) || StrLess(b, a)
  {
    if a != [] && b != [] && a[0] == b[0] {
      assert a == [a[0]] + a[1..] && b == [b[0]] + b[1..];
      StrLessTotal(a[1..], b[1..]);
    }
  }

  ghost predicate StrictlyAscending(s: seq<String>) {
    forall i, j :: 0 <= i < j < |s| ==> StrLess(s[i], s[j])
  }

  /** Places `x` into an ascending list without repeating it. */
  function InsertAsc(x: String, s: seq<String>): (r: seq<String>)
    requires StrictlyAscending(s)
    ensures StrictlyAscending(r)
    ensures forall y :: y in r <==> (y == x || y in s)
  {
    if s == [] then [x]
    else if x == s[0] then s
    else if StrLess(x, s[0]) then
      assert forall j :: 0 < j < |s| ==> StrLess(x, s[j]) by {
        forall j | 0 < j < |s| ensures StrLess(x, s[j]) { StrLessTrans(x, s[0], s[j]); }
      }
      [x] + s
    else
      StrLessTotal(x, s[0]);
      var rest := InsertAsc(x, s[1..]);
      assert forall y :: y in s <==> (y == s[0] || y in s[1..]) by {
        assert s == [s[0]] + s[1..];
      }
      assert forall k :: 0 <= k < |rest| ==> StrLess(s[0], rest[k]) by {
        forall k | 0 <= k < |rest| ensures StrLess(s[0], rest[k]) {
          assert rest[k] in rest;
          if rest[k] != x {
            assert rest[k] in s[1..];
            var m :| 0 <= m < |s[1..]| && s[1..][m] == rest[k];
            assert s[m + 1] == rest[k];
          }
        }
      }
      [s[0]] + rest
  }

  /** `SELECT DISTINCT x ... ORDER BY x ASC` over the values in `s`. */
  function DistinctAsc(s: seq<String>): (r: seq<String>)
    ensures StrictlyAscending(r)
    ensures forall y :: y in r <==> y in s
  {
    if s == [] then []
    else
      assert forall y :: y in s <==> (y == s[0] || y in s[1..]) by {
        assert s == [s[0]] + s[1..];
      }
      InsertAsc(s[0], DistinctAsc(s[1..]))
  }

  /** A strictly ascending list has no repeats. */
  lemma AscendingIsDistinct(s: seq<String>, i: int, j: int)
    requires StrictlyAscending(s) && 0 <= i < j < |s|
    ensures s[i] != s[j]
  {
    StrLessIrreflexive(s[i]);
  }

  /** `content[:width] + "..." if len(content) > width else content` */
  function Preview(content: String, width: nat): (r: String)
  {
    if |content| > width then content[..width] + "..." else content
  }

  /** A preview is the content itself when short, else its first `width`
      characters and an ellipsis; it never exceeds `width + 3`. */
  lemma PreviewShape(content: String, width: nat)
    ensures |Preview(content, width)| <= width + 3
    ensures |Preview(content, width)| <= |content| + 3
    ensures |content| <= width ==> Preview(content, width) == content
    ensures |content| > width ==> |Preview(content, width)| == width + 3
    ensures |content| > width ==> Preview(content, width)[..width] == content[..width]
    ensures |content| > width ==> EndsWith(Preview(content, width), "...")
  {
    if |content| > width {
      var r := Preview(content, width);
      assert r[|r| - 3..] == "...";
    }
  }

  /** Every character of a stripped string comes from the string. */
  lemma StripSubseq(s: String)
    ensures forall c :: c in Strip(s) ==> c in s
  {
    RStripSubseq(s);
    LStripSubseq(RStrip(s));
  }

  lemma LStripSubseq(s: String)
    ensures forall c :: c in LStrip(s) ==> c in s
  {
    var u := LStrip(s);
    var d := |s| - |u|;
    LStripSlice(s);
    forall k | 0 <= k < |u| ensures u[k] in s {
      assert u[k] == s[d + k];
    }
  }

  lemma RStripSubseq(s: String)
    ensures forall c :: c in RStrip(s) ==> c in s
  {
    var u := RStrip(s);
    RStripSlice(s);
    forall k | 0 <= k < |u| ensures u[k] in s {
      assert u[k] == s[k];
    }
  }

  /** Two sequences whose elements answer a test alike, position by
      position, have the same first hit: rewriting fields the test does
      not look at never moves `.first()`. */
  lemma {:induction false} FindFirstAgree<T>(s: seq<T>, t: seq<T>, p: T -> bool)
    requires |s| == |t|
    requires forall k :: 0 <= k < |s| ==> p(s[k]) == p(t[k])
    ensures FindFirst(s, p) == FindFirst(t, p)
  {
    if s != [] {
      FindFirstAgree(s[1..], t[1..], p);
    }
  }
}
