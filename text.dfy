/** String operations that the TypeScript and Python sources take from their standard
    libraries: lowercasing, substring tests, whitespace stripping, single-character search,
    lexicographic comparison, joining and negative slicing. */
module Text {

  /** Upper-case letters that both Python's `str.lower` and JavaScript's `toLowerCase`
      map 32 code points up: A-Z and the Latin-1 letters from U+00C0 to U+00DE except
      the multiplication sign U+00D7 (this covers Æ, Ø and Å). */
  predicate IsUpper(c: char) {
    ('A' <= c <= 'Z') || ('\U{C0}' <= c <= '\U{DE}' && c != '\U{D7}')
  }

  function LowerChar(c: char): (r: char)
    ensures !IsUpper(r)
    ensures IsUpper(c) ==> r as int == c as int + 32
    ensures !IsUpper(c) ==> r == c
  {
    if IsUpper(c) then (c as int + 32) as char else c
  }

  /** `s.toLowerCase()` / `s.lower()`, character by character. */
  function Lower(s: string): (r: string)
    ensures |r| == |s|
    ensures forall i :: 0 <= i < |s| ==> r[i] == LowerChar(s[i])
  {
    seq(|s|, i requires 0 <= i < |s| => LowerChar(s[i]))
  }

  lemma LowerIdempotent(s: string)
    ensures Lower(Lower(s)) == Lower(s)
  {
  }

  predicate OccursAt(h: string, n: string, i: int) {
    0 <= i && i + |n| <= |h| && h[i..i + |n|] == n
  }

  /** `h.includes(n)` in TypeScript and `n in h` in Python. */
  predicate Contains(h: string, n: string) {
    exists i | 0 <= i <= |h| - |n| :: OccursAt(h, n, i)
  }

  /** A string in which some adjacent pair of `n` never occurs adjacently does not contain `n`.
      `successors(c)` holds every character that follows `c` in `h`. Used to evaluate
      substring tests on constant texts. */
  predicate PairsWithin(h: string, successors: char -> set<char>) {
    forall i | 0 <= i < |h| - 1 :: h[i + 1] in successors(h[i])
  }

  lemma {:induction false} NotContainsByPair(h: string, n: string, successors: char -> set<char>, j: nat)
    requires PairsWithin(h, successors)
    requires j + 1 < |n| && n[j + 1] !in successors(n[j])
    ensures !Contains(h, n)
  {
    forall i | 0 <= i <= |h| - |n| ensures !OccursAt(h, n, i) {
      assert h[i + j + 1] in successors(h[i + j]);
      assert h[i..i + |n|][j] == h[i + j] && h[i..i + |n|][j + 1] == h[i + j + 1];
    }
  }

  /** A string that never holds the character `n[j]` does not contain `n`. */
  lemma {:induction false} NotContainsByChar(h: string, n: string, j: nat)
    requires j < |n|
    requires forall i | 0 <= i < |h| :: h[i] != n[j]
    ensures !Contains(h, n)
  {
    forall i | 0 <= i <= |h| - |n| ensures !OccursAt(h, n, i) {
      assert h[i..i + |n|][j] == h[i + j];
    }
  }

  /** Whitespace removed by Python's `str.strip()` (the characters for which `str.isspace()` holds). */
  predicate PyIsSpace(c: char) {
    c == ' ' || ('\t' <= c <= '\r') || ('\U{1C}' <= c <= '\U{1F}') || c == '\U{85}' || c == '\U{A0}'
    || c == '\U{1680}' || ('\U{2000}' <= c <= '\U{200A}') || c == '\U{2028}' || c == '\U{2029}'
    || c == '\U{202F}' || c == '\U{205F}' || c == '\U{3000}'
  }

  /** Whitespace and line terminators removed by JavaScript's `String.prototype.trim()`. */
  predicate JsIsSpace(c: char) {
    c == ' ' || ('\t' <= c <= '\r') || c == '\U{A0}' || c == '\U{1680}' || ('\U{2000}' <= c <= '\U{200A}')
    || c == '\U{2028}' || c == '\U{2029}' || c == '\U{202F}' || c == '\U{205F}' || c == '\U{3000}'
    || c == '\U{FEFF}'
  }

  predicate IsBlank(s: string, isSpace: char -> bool) {
    forall k :: 0 <= k < |s| ==> isSpace(s[k])
  }

  function LeadingSpace(s: string, isSpace: char -> bool): (n: nat)
    ensures n <= |s|
    ensures forall k :: 0 <= k < n ==> isSpace(s[k])
    ensures n < |s| ==> !isSpace(s[n])
  {
    if s == [] || !isSpace(s[0]) then 0 else 1 + LeadingSpace(s[1..], isSpace)
  }

  function TrailingSpace(s: string, isSpace: char -> bool): (n: nat)
    ensures n <= |s|
    ensures forall k :: |s| - n <= k < |s| ==> isSpace(s[k])
    ensures n < |s| ==> !isSpace(s[|s| - 1 - n])
  {
    if s == [] || !isSpace(s[|s| - 1]) then 0 else 1 + TrailingSpace(s[..|s| - 1], isSpace)
  }

  /** `strip()` / `trim()`: the longest infix of `s` that neither starts nor ends with whitespace. */
  function Strip(s: string, isSpace: char -> bool): (r: string)
    ensures OccursAt(s, r, LeadingSpace(s, isSpace))
    ensures r == [] || (!isSpace(r[0]) && !isSpace(r[|r| - 1]))
    ensures forall k | LeadingSpace(s, isSpace) + |r| <= k < |s| :: isSpace(s[k])
  {
    var t := s[LeadingSpace(s, isSpace)..];
    t[..|t| - TrailingSpace(t, isSpace)]
  }

  /** Stripping leaves nothing exactly when the string is all whitespace. */
  lemma StripEmptyIffBlank(s: string, isSpace: char -> bool)
    ensures Strip(s, isSpace) == [] <==> IsBlank(s, isSpace)
  {
    var n := LeadingSpace(s, isSpace);
    var t := s[n..];
    if Strip(s, isSpace) == [] {
      assert TrailingSpace(t, isSpace) == |t|;
      assert n == |s|;
    }
  }

  /** A string that neither starts nor ends with whitespace is its own strip. */
  lemma StripUnpadded(s: string, isSpace: char -> bool)
    requires s != [] && !isSpace(s[0]) && !isSpace(s[|s| - 1])
    ensures Strip(s, isSpace) == s
  {
    assert LeadingSpace(s, isSpace) == 0;
    assert s[0..] == s;
    assert TrailingSpace(s, isSpace) == 0;
  }

  lemma StripIdempotent(s: string, isSpace: char -> bool)
    ensures Strip(Strip(s, isSpace), isSpace) == Strip(s, isSpace)
  {
    var r := Strip(s, isSpace);
    assert LeadingSpace(r, isSpace) == 0;
    assert TrailingSpace(r, isSpace) == 0;
  }

  predicate StartsWithChar(s: string, c: char) {
    |s| > 0 && s[0] == c
  }

  predicate EndsWithChar(s: string, c: char) {
    |s| > 0 && s[|s| - 1] == c
  }

  /** `s.find(c)`: the first index holding `c`, or -1. */
  function Find(s: string, c: char): (r: int)
    ensures -1 <= r < |s|
    ensures r == -1 <==> c !in s
    ensures r >= 0 ==> s[r] == c && forall k :: 0 <= k < r ==> s[k] != c
  {
    if s == [] then -1
    else if s[0] == c then 0
    else
      var k := Find(s[1..], c);
      if k == -1 then -1 else k + 1
  }

  /** `s.rfind(c)`: the last index holding `c`, or -1. */
  function RFind(s: string, c: char): (r: int)
    ensures -1 <= r < |s|
    ensures r == -1 <==> c !in s
    ensures r >= 0 ==> s[r] == c && forall k :: r < k < |s| ==> s[k] != c
  {
    if s == [] then -1
    else if s[|s| - 1] == c then |s| - 1
    else RFind(s[..|s| - 1], c)
  }

  /** `s.rstrip(c)` for a one-character argument. */
  function RStripChar(s: string, c: char): (r: string)
    ensures |r| <= |s| && r == s[..|r|]
    ensures r == [] || r[|r| - 1] != c
    ensures forall k :: |r| <= k < |s| ==> s[k] == c
  {
    if s != [] && s[|s| - 1] == c then RStripChar(s[..|s| - 1], c) else s
  }

  /** Lexicographic order on code points, as `a.localeCompare(b) <= 0` orders strings of
      digits and colons in the same positions. */
  predicate StrLe(a: string, b: string)
    decreases |a|
  {
    a == [] || (b != [] && (a[0] < b[0] || (a[0] == b[0] && StrLe(a[1..], b[1..]))))
  }

  lemma {:induction false} StrLeTotal(a: string, b: string)
    ensures StrLe(a, b) || StrLe(b, a)
    decreases |a|
  {
    if a != [] && b != [] && a[0] == b[0] {
      StrLeTotal(a[1..], b[1..]);
    }
  }

  lemma {:induction false} StrLeTransitive(a: string, b: string, c: string)
    requires StrLe(a, b) && StrLe(b, c)
    ensures StrLe(a, c)
    decreases |a|
  {
    if a != [] && a[0] == b[0] && b[0] == c[0] {
      StrLeTransitive(a[1..], b[1..], c[1..]);
    }
  }

  /** `sep.join(parts)`. */
  function Join(parts: seq<string>, sep: string): (r: string)
    ensures parts == [] ==> r == ""
    ensures |parts| == 1 ==> r == parts[0]
    ensures |parts| > 0 ==> |parts[0]| <= |r| && r[..|parts[0]|] == parts[0]
  {
    if |parts| == 0 then ""
    else if |parts| == 1 then parts[0]
    else parts[0] + sep + Join(parts[1..], sep)
  }

  /** Python's `s[-n:]`: the last `n` elements, the whole sequence when it is shorter,
      and (as Python has it) the whole sequence when `n` is 0. */
  function PySuffix<T>(s: seq<T>, n: nat): (r: seq<T>)
    ensures n > 0 ==> |r| == if |s| < n then |s| else n
    ensures n == 0 ==> r == s
    ensures |r| <= |s| && r == s[|s| - |r|..]
  {
    if n == 0 || |s| <= n then s else s[|s| - n..]
  }
}
