/** The pieces of Python's `str` behaviour the application relies on:
    `strip()`, `upper()`, substring search (`in`, `find`, `rfind`), `split(sep)`,
    `sep.join(parts)`, prefix slicing `s[:n]` and `str(n)` for naturals. */
module Text {

  // ---------------------------------------------------------------------------
  // Whitespace and strip()

  /** The characters for which Python 3's `str.isspace()` holds; `strip()` with
      no argument removes exactly these from both ends. */
  predicate IsSpace(c: char) {
    || ('\U{9}' <= c <= '\U{D}')
    || ('\U{1C}' <= c <= '\U{20}')
    || c == '\U{85}' || c == '\U{A0}' || c == '\U{1680}'
    || ('\U{2000}' <= c <= '\U{200A}')
    || c == '\U{2028}' || c == '\U{2029}' || c == '\U{202F}' || c == '\U{205F}'
    || c == '\U{3000}'
  }

  predicate AllSpace(s: string) {
    forall i :: 0 <= i < |s| ==> IsSpace(s[i])
  }

  /** `s.lstrip()`: the suffix left after dropping leading whitespace. */
  function StripStart(s: string): (r: string)
    ensures |r| <= |s| && r == s[|s| - |r|..]
    ensures AllSpace(s[..|s| - |r|])
    ensures r == [] || !IsSpace(r[0])
  {
    if |s| > 0 && IsSpace(s[0]) then
      var rest := StripStart(s[1..]);
      var k := |s| - |rest|;
      assert s[1..][k - 1..] == s[k..];
      assert forall i | 1 <= i < k :: s[i] == s[1..][..k - 1][i - 1];
      rest
    else s
  }

  /** `s.rstrip()`: the prefix left after dropping trailing whitespace. */
  function StripEnd(s: string): (r: string)
    ensures |r| <= |s| && r == s[..|r|]
    ensures AllSpace(s[|r|..])
    ensures r == [] || !IsSpace(r[|r| - 1])
  {
    if |s| > 0 && IsSpace(s[|s| - 1]) then
      var rest := StripEnd(s[..|s| - 1]);
      assert forall i :: |rest| <= i < |s| - 1 ==> s[i] == s[..|s| - 1][i];
      rest
    else s
  }

  /** `s.strip()`: `s` without its leading and trailing whitespace. */
  function Strip(s: string): (r: string) {
    StripEnd(StripStart(s))
  }

  /** The stripped text is a slice of `s` with only whitespace around it, and
      it neither starts nor ends with whitespace. */
  lemma StripSpec(s: string)
    ensures var r := Strip(s);
            (exists i :: 0 <= i <= |s| - |r| && r == s[i..i + |r|] && AllSpace(s[..i]) && AllSpace(s[i + |r|..])) &&
            (r == [] || (!IsSpace(r[0]) && !IsSpace(r[|r| - 1])))
  {
    var t := StripStart(s);
    var r := StripEnd(t);
    var i := |s| - |t|;
    StripSlice(s, t, r, i);
    assert 0 <= i <= |s| - |r| && r == s[i..i + |r|] && AllSpace(s[..i]) && AllSpace(s[i + |r|..]);
    if r != [] {
      assert r[0] == t[0];
    }
  }

  /** The slice arithmetic behind `StripSpec`. */
  lemma StripSlice(s: string, t: string, r: string, i: int)
    requires 0 <= i <= |s| && t == s[i..] && AllSpace(s[..i])
    requires |r| <= |t| && r == t[..|r|] && AllSpace(t[|r|..])
    ensures r == s[i..i + |r|] && AllSpace(s[i + |r|..])
  {
    assert s[i + |r|..] == t[|r|..];
  }

  /** A string strips to nothing exactly when it is all whitespace. */
  lemma StripEmptyIffBlank(s: string)
    ensures Strip(s) == [] <==> AllSpace(s)
  {
    StripSpec(s);
    if Strip(s) == [] {
      var i :| 0 <= i <= |s| && AllSpace(s[..i]) && AllSpace(s[i..]);
      assert s == s[..i] + s[i..];
      AllSpaceConcat(s[..i], s[i..]);
    }
  }

  lemma AllSpaceConcat(a: string, b: string)
    requires AllSpace(a) && AllSpace(b)
    ensures AllSpace(a + b)
  {
    forall k | 0 <= k < |a + b|
      ensures IsSpace((a + b)[k])
    {
      if k < |a| {
        assert (a + b)[k] == a[k];
      } else {
        assert (a + b)[k] == b[k - |a|];
      }
    }
  }

  /** Stripping twice changes nothing. */
  lemma StripIdempotent(s: string)
    ensures Strip(Strip(s)) == Strip(s)
  {
    StripSpec(s);
    var r := Strip(s);
    assert r == [] || !IsSpace(r[0]);
    assert StripStart(r) == r;
    assert r == [] || !IsSpace(r[|r| - 1]);
    assert StripEnd(r) == r;
  }

  // ---------------------------------------------------------------------------
  // upper()

  /** Upper-case mapping of one character; only ASCII letters are mapped. */
  function UpperChar(c: char): char {
    if 'a' <= c <= 'z' then (c as int - 32) as char else c
  }

  /** `s.upper()` restricted to the ASCII case mapping. */
  function Upper(s: string): (r: string)
    ensures |r| == |s|
    ensures forall i :: 0 <= i < |s| ==> r[i] == UpperChar(s[i])
  {
    if s == [] then [] else [UpperChar(s[0])] + Upper(s[1..])
  }

  /** Upper-casing an upper-cased name changes nothing, and no lower-case ASCII letter survives. */
  lemma {:induction false} UpperIdempotent(s: string)
    ensures Upper(Upper(s)) == Upper(s)
    ensures forall i :: 0 <= i < |s| ==> !('a' <= Upper(s)[i] <= 'z')
  {
    var u := Upper(s);
    assert forall i :: 0 <= i < |s| ==> UpperChar(u[i]) == u[i];
  }

  // ---------------------------------------------------------------------------
  // Substring search: `pat in s`, `s.find(pat)`, `s.rfind(pat)`

  /** `pat` occurs in `s` starting at index `i`. */
  predicate OccursAt(s: string, pat: string, i: int) {
    0 <= i && i + |pat| <= |s| && s[i..i + |pat|] == pat
  }

  /** `s.find(pat, i)`: the first occurrence at or after `i`, or -1. */
  function IndexFrom(s: string, pat: string, i: nat): (r: int)
    ensures r == -1 || (i <= r && OccursAt(s, pat, r))
    ensures r == -1 ==> forall j :: i <= j ==> !OccursAt(s, pat, j)
    ensures r != -1 ==> forall j :: i <= j < r ==> !OccursAt(s, pat, j)
    decreases |s| - i
  {
    if i + |pat| > |s| then -1
    else if s[i..i + |pat|] == pat then i
    else IndexFrom(s, pat, i + 1)
  }

  /** `s.find(pat)`. */
  function IndexOf(s: string, pat: string): (r: int)
    ensures r == -1 || OccursAt(s, pat, r)
    ensures r == -1 <==> forall j :: !OccursAt(s, pat, j)
    ensures r != -1 ==> forall j :: j < r ==> !OccursAt(s, pat, j)
  {
    IndexFrom(s, pat, 0)
  }

  /** Python's `pat in s`. */
  predicate Contains(s: string, pat: string) {
    IndexOf(s, pat) != -1
  }

  /** `s.rfind(pat)` searched downwards from start index `i`: the last
      occurrence starting at or before `i`, or -1. */
  function LastIndexFrom(s: string, pat: string, i: int): (r: int)
    ensures r == -1 || (r <= i && OccursAt(s, pat, r))
    ensures r == -1 ==> forall j :: j <= i ==> !OccursAt(s, pat, j)
    ensures r != -1 ==> forall j :: r < j <= i ==> !OccursAt(s, pat, j)
    decreases i + 1
  {
    if i < 0 then -1
    else if OccursAt(s, pat, i) then i
    else LastIndexFrom(s, pat, i - 1)
  }

  /** `s.rfind(pat)`. */
  function LastIndexOf(s: string, pat: string): (r: int)
    ensures r == -1 || OccursAt(s, pat, r)
    ensures r == -1 <==> forall j :: !OccursAt(s, pat, j)
    ensures r != -1 ==> forall j :: r < j ==> !OccursAt(s, pat, j)
  {
    LastIndexFrom(s, pat, |s|)
  }

  /** Searching a prefix finds the first occurrence if it fits inside the prefix, and nothing otherwise. */
  lemma IndexOfPrefix(s: string, pat: string, n: nat)
    requires n <= |s|
    ensures IndexOf(s[..n], pat) ==
              if IndexOf(s, pat) != -1 && IndexOf(s, pat) + |pat| <= n then IndexOf(s, pat) else -1
  {
    var t := s[..n];
    forall p ensures OccursAt(t, pat, p) <==> OccursAt(s, pat, p) && p + |pat| <= n {
      if 0 <= p && p + |pat| <= n {
        assert t[p..p + |pat|] == s[p..p + |pat|];
      }
    }
  }

  /** For a one-character pattern an occurrence is just that character. */
  lemma OccursAtChar(s: string, c: char, i: int)
    ensures OccursAt(s, [c], i) <==> 0 <= i < |s| && s[i] == c
  {
    if 0 <= i < |s| {
      assert s[i..i + 1] == [s[i]];
    }
  }

  /** `s.find(c)` for one character: -1 exactly when `c` is absent, else its first index. */
  lemma FindChar(s: string, c: char)
    ensures IndexOf(s, [c]) == -1 <==> c !in s
    ensures IndexOf(s, [c]) != -1 ==>
              IndexOf(s, [c]) < |s| && s[IndexOf(s, [c])] == c && c !in s[..IndexOf(s, [c])]
  {
    var i := IndexOf(s, [c]);
    forall p | 0 <= p < |s| && s[p] == c ensures i != -1 && i <= p {
      OccursAtChar(s, c, p);
    }
    if i != -1 {
      OccursAtChar(s, c, i);
    }
  }

  /** `s.rfind(c)` for one character: -1 exactly when `c` is absent, else its last index. */
  lemma RFindChar(s: string, c: char)
    ensures LastIndexOf(s, [c]) == -1 <==> c !in s
    ensures LastIndexOf(s, [c]) != -1 ==>
              LastIndexOf(s, [c]) < |s| && s[LastIndexOf(s, [c])] == c && c !in s[LastIndexOf(s, [c]) + 1..]
  {
    var i := LastIndexOf(s, [c]);
    forall p | 0 <= p < |s| && s[p] == c ensures i != -1 && p <= i {
      OccursAtChar(s, c, p);
    }
    if i != -1 {
      OccursAtChar(s, c, i);
      var t := s[i + 1..];
      forall q | 0 <= q < |t| ensures t[q] != c {
        assert t[q] == s[i + 1 + q];
      }
    }
  }

  // ---------------------------------------------------------------------------
  // split() and join()

  /** The text before the first `sep`, or all of `s` when there is none. */
  function Before(s: string, sep: string): (r: string)
    ensures r <= s
  {
    var i := IndexOf(s, sep);
    if i == -1 then s else s[..i]
  }

  /** The text after the first `sep`. */
  function After(s: string, sep: string): string
    requires Contains(s, sep)
  {
    s[IndexOf(s, sep) + |sep|..]
  }

  /** Text cut before the first separator contains no separator. */
  lemma BeforeHasNoSep(s: string, sep: string)
    requires |sep| > 0
    ensures !Contains(Before(s, sep), sep)
  {
    var b := Before(s, sep);
    forall j | OccursAt(b, sep, j) ensures false {
      assert b[j..j + |sep|] == s[j..j + |sep|];
      assert OccursAt(s, sep, j);
    }
  }

  /** `s.split(sep)` for a non-empty separator: the pieces between
      non-overlapping occurrences, found left to right. */
  function Split(s: string, sep: string): (r: seq<string>)
    requires |sep| > 0
    ensures |r| >= 1
    ensures |r| >= 2 <==> Contains(s, sep)
    decreases |s|
  {
    var i := IndexOf(s, sep);
    if i == -1 then [s] else [s[..i]] + Split(s[i + |sep|..], sep)
  }

  /** The first piece is the text before the first `sep`; the second, when
      there is one, the text between the first and the second `sep`. */
  lemma SplitSpec(s: string, sep: string)
    requires |sep| > 0
    ensures Split(s, sep)[0] == Before(s, sep)
    ensures Contains(s, sep) ==> Split(s, sep)[1] == Before(After(s, sep), sep)
  {
    SplitFirst(s, sep);
    var i := IndexOf(s, sep);
    if i != -1 {
      var rest := s[i + |sep|..];
      var t := Split(rest, sep);
      assert Split(s, sep) == [s[..i]] + t;
      assert After(s, sep) == rest;
      SplitFirst(rest, sep);
    }
  }

  /** The first piece alone. */
  lemma SplitFirst(s: string, sep: string)
    requires |sep| > 0
    ensures Split(s, sep)[0] == Before(s, sep)
  {
  }

  /** `sep.join(parts)`. */
  function Join(parts: seq<string>, sep: string): string {
    if |parts| == 0 then ""
    else if |parts| == 1 then parts[0]
    else parts[0] + sep + Join(parts[1..], sep)
  }

  /** Joining after appending one more part puts the separator and the part at the end. */
  lemma {:induction false} JoinSnoc(parts: seq<string>, p: string, sep: string)
    ensures Join(parts + [p], sep) == if parts == [] then p else Join(parts, sep) + sep + p
  {
    if |parts| >= 2 {
      assert (parts + [p])[1..] == parts[1..] + [p];
      JoinSnoc(parts[1..], p, sep);
    } else if |parts| == 1 {
      assert (parts + [p])[1..] == [p];
    }
  }

  /** Splitting and joining again restores the text. */
  lemma {:induction false} SplitJoin(s: string, sep: string)
    requires |sep| > 0
    ensures Join(Split(s, sep), sep) == s
    decreases |s|
  {
    var i := IndexOf(s, sep);
    if i != -1 {
      var rest := s[i + |sep|..];
      var t := Split(rest, sep);
      assert Split(s, sep) == [s[..i]] + t;
      assert ([s[..i]] + t)[1..] == t;
      assert Join([s[..i]] + t, sep) == s[..i] + sep + Join(t, sep);
      SplitJoin(rest, sep);
      assert s == s[..i] + sep + rest by {
        assert s[i..i + |sep|] == sep;
      }
    }
  }

  /** `s[:n]` for a non-negative bound. */
  function Take(s: string, n: nat): (r: string)
    ensures r <= s
    ensures |r| == if |s| <= n then |s| else n
  {
    if |s| <= n then s else s[..n]
  }

  // ---------------------------------------------------------------------------
  // str(n) for naturals, and its inverse

  predicate IsDigit(c: char) { '0' <= c <= '9' }

  function DigitChar(d: nat): char
    requires d < 10
  {
    ('0' as int + d) as char
  }

  /** `str(n)` in decimal, no leading zeros. */
  function NatToString(n: nat): (r: string)
    ensures |r| >= 1 && forall i :: 0 <= i < |r| ==> IsDigit(r[i])
  {
    if n < 10 then [DigitChar(n)] else NatToString(n / 10) + [DigitChar(n % 10)]
  }

  /** `int(s)` for a string of decimal digits. */
  function ParseNat(s: string): nat
    requires forall i :: 0 <= i < |s| ==> IsDigit(s[i])
  {
    if s == [] then 0
    else
      assert IsDigit(s[|s| - 1]);
      10 * ParseNat(s[..|s| - 1]) + (s[|s| - 1] as int - '0' as int)
  }

  /** Reading back the decimal form gives the number. */
  lemma {:induction false} ParseNatToString(n: nat)
    ensures ParseNat(NatToString(n)) == n
  {
    if n >= 10 {
      var t := NatToString(n);
      assert t[..|t| - 1] == NatToString(n / 10);
      ParseNatToString(n / 10);
    }
  }

  /** The longest prefix made of digits. */
  function LeadingDigits(s: string): (r: string)
    ensures r <= s && forall i :: 0 <= i < |r| ==> IsDigit(r[i])
  {
    if s != [] && IsDigit(s[0]) then [s[0]] + LeadingDigits(s[1..]) else []
  }

  /** A run of digits followed by a non-digit is read back exactly. */
  lemma {:induction false} LeadingDigitsOfConcat(d: string, t: string)
    requires forall i :: 0 <= i < |d| ==> IsDigit(d[i])
    requires t == [] || !IsDigit(t[0])
    ensures LeadingDigits(d + t) == d
  {
    if d != [] {
      assert (d + t)[1..] == d[1..] + t;
      LeadingDigitsOfConcat(d[1..], t);
    } else {
      assert d + t == t;
    }
  }
}
