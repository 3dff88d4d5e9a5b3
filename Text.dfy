/** The Python `str` operations the core uses, over `seq<char>`:
    `lower`, `upper`, `strip`, `in` (substring) and `find`.
    Case mapping is ASCII only; `strip` removes the ASCII characters for
    which `str.isspace` holds. */
module Text {
  import opened Wrappers

  predicate IsSpace(c: char)
  {
    c == ' ' || c == '\t' || c == '\n' || c == '\r' || c == '\U{B}' || c == '\U{C}'
    || c == '\U{1C}' || c == '\U{1D}' || c == '\U{1E}' || c == '\U{1F}'
  }

  function LowerChar(c: char): char
  {
    if 'A' <= c <= 'Z' then (c as int + 32) as char else c
  }

  function UpperChar(c: char): char
  {
    if 'a' <= c <= 'z' then (c as int - 32) as char else c
  }

  /** `s.lower()` */
  function Lower(s: string): (r: string)
    ensures |r| == |s|
    ensures forall i :: 0 <= i < |s| ==> r[i] == LowerChar(s[i])
  {
    seq(|s|, i requires 0 <= i < |s| => LowerChar(s[i]))
  }

  /** `s.upper()` */
  function Upper(s: string): (r: string)
    ensures |r| == |s|
    ensures forall i :: 0 <= i < |s| ==> r[i] == UpperChar(s[i])
  {
    seq(|s|, i requires 0 <= i < |s| => UpperChar(s[i]))
  }

  /** Number of leading whitespace characters. */
  function LeadingSpaces(s: string): (n: nat)
    ensures n <= |s|
    ensures forall i :: 0 <= i < n ==> IsSpace(s[i])
    ensures n < |s| ==> !IsSpace(s[n])
  {
    if s != [] && IsSpace(s[0]) then 1 + LeadingSpaces(s[1..]) else 0
  }

  /** Number of trailing whitespace characters. */
  function TrailingSpaces(s: string): (n: nat)
    ensures n <= |s|
    ensures forall i :: |s| - n <= i < |s| ==> IsSpace(s[i])
    ensures n < |s| ==> !IsSpace(s[|s| - 1 - n])
  {
    if s != [] && IsSpace(s[|s| - 1]) then 1 + TrailingSpaces(s[..|s| - 1]) else 0
  }

  /** `s.strip()` */
  function Strip(s: string): (r: string)
    ensures |r| <= |s|
    ensures r != [] ==> !IsSpace(r[0]) && !IsSpace(r[|r| - 1])
  {
    var t := s[LeadingSpaces(s)..];
    t[..|t| - TrailingSpaces(t)]
  }

  /** `pat` occurs in `s` starting at index `i`. */
  predicate OccursAt(s: string, pat: string, i: int)
  {
    0 <= i && i + |pat| <= |s| && s[i..i + |pat|] == pat
  }

  /** Python `pat in s`. */
  predicate Contains(s: string, pat: string)
  {
    exists i :: 0 <= i <= |s| - |pat| && OccursAt(s, pat, i)
  }

  /** Index of the first occurrence of `pat` in `s` at or after `from`
      (`s.find(pat)` when `from` is 0). */
  function FindFrom(s: string, pat: string, from: nat): (r: Option<nat>)
    decreases |s| - from
    ensures r.Some? ==> from <= r.value && OccursAt(s, pat, r.value)
    ensures r.Some? ==> forall j :: from <= j < r.value ==> !OccursAt(s, pat, j)
    ensures r.None? ==> forall j :: from <= j ==> !OccursAt(s, pat, j)
  {
    if from + |pat| > |s| then None
    else if s[from..from + |pat|] == pat then Some(from)
    else FindFrom(s, pat, from + 1)
  }

  function Find(s: string, pat: string): (r: Option<nat>)
  {
    FindFrom(s, pat, 0)
  }

  lemma FindIsContains(s: string, pat: string)
    ensures Find(s, pat).Some? <==> Contains(s, pat)
  {
    if Contains(s, pat) {
      var i :| 0 <= i <= |s| - |pat| && OccursAt(s, pat, i);
      assert Find(s, pat).Some?;
    }
  }

  /** `s.split(sep)[0]`: the text before the first occurrence of `sep`,
      or all of `s`. */
  function SplitHead(s: string, sep: string): (r: string)
    requires sep != []
    ensures |r| <= |s| && r == s[..|r|]
    ensures |r| == |s| || OccursAt(s, sep, |r|)
    ensures !Contains(r, sep)
  {
    match Find(s, sep)
    case None => PrefixOccurrence(s, s, sep); s
    case Some(j) => PrefixOccurrence(s, s[..j], sep); s[..j]
  }

  /** An occurrence inside a prefix is an occurrence in the whole text. */
  lemma PrefixOccurrence(s: string, r: string, sep: string)
    requires |r| <= |s| && r == s[..|r|]
    ensures forall k :: OccursAt(r, sep, k) ==> OccursAt(s, sep, k)
  {
    forall k | OccursAt(r, sep, k)
      ensures OccursAt(s, sep, k)
    {
      assert forall t :: k <= t < k + |sep| ==> r[t] == s[t];
      assert s[k..k + |sep|] == r[k..k + |sep|];
    }
  }

  /** A text without `sep` is its own first piece. */
  lemma SplitHeadWithoutSep(s: string, sep: string)
    requires sep != [] && !Contains(s, sep)
    ensures SplitHead(s, sep) == s
  {
    FindIsContains(s, sep);
  }

  /** `s.split(sep)[1]`: the text between the first occurrence of `sep` and
      the next one (or the end); defined only when `sep` occurs, since the
      index raises otherwise. */
  function SplitSecond(s: string, sep: string): (r: string)
    requires sep != [] && Contains(s, sep)
    ensures !Contains(r, sep)
    ensures var i := Find(s, sep);
            i.Some? && OccursAt(s, sep, i.value) && (forall k :: 0 <= k < i.value ==> !OccursAt(s, sep, k)) &&
            r == SplitHead(s[i.value + |sep|..], sep)
  {
    FindIsContains(s, sep);
    SplitHead(s[Find(s, sep).value + |sep|..], sep)
  }

  /** An occurrence that lies inside the slice `s[a..e]` is an occurrence
      in the slice, shifted by `a`, and conversely. */
  lemma SliceOccurrence(s: string, a: nat, e: nat, pat: string, j: nat)
    requires a <= j && j + |pat| <= e <= |s|
    ensures OccursAt(s[a..e], pat, j - a) <==> OccursAt(s, pat, j)
  {
    var u, v := s[a..e][j - a..j - a + |pat|], s[j..j + |pat|];
    assert |u| == |v|;
    assert forall t :: 0 <= t < |u| ==> u[t] == s[a..e][j - a + t] == s[j + t] == v[t];
  }

  /** `strip` keeps exactly the slice between the leading and the trailing
      whitespace. */
  lemma StripIsSlice(s: string) returns (a: nat, e: nat)
    ensures a <= e <= |s| && Strip(s) == s[a..e]
    ensures forall i :: 0 <= i < a ==> IsSpace(s[i])
    ensures forall i :: e <= i < |s| ==> IsSpace(s[i])
  {
    a := LeadingSpaces(s);
    var t := s[a..];
    var b := TrailingSpaces(t);
    e := |s| - b;
    assert t[..|t| - b] == s[a..e];
    forall i | e <= i < |s|
      ensures IsSpace(s[i])
    {
      assert s[i] == t[i - a];
    }
  }

  /** Whitespace around the text never takes part in an occurrence of a
      pattern that starts and ends with a non-space character, so `strip`
      does not change whether such a pattern occurs. */
  lemma StripKeepsContains(s: string, pat: string)
    requires pat != [] && !IsSpace(pat[0]) && !IsSpace(pat[|pat| - 1])
    ensures Contains(Strip(s), pat) <==> Contains(s, pat)
  {
    var a, e := StripIsSlice(s);
    if Contains(Strip(s), pat) {
      var i :| 0 <= i <= |Strip(s)| - |pat| && OccursAt(Strip(s), pat, i);
      SliceOccurrence(s, a, e, pat, a + i);
      assert OccursAt(s, pat, a + i);
    }
    if Contains(s, pat) {
      var i :| 0 <= i <= |s| - |pat| && OccursAt(s, pat, i);
      assert s[i] == pat[0] by { assert s[i..i + |pat|][0] == s[i]; }
      assert s[i + |pat| - 1] == pat[|pat| - 1] by { assert s[i..i + |pat|][|pat| - 1] == s[i + |pat| - 1]; }
      SliceOccurrence(s, a, e, pat, i);
      assert OccursAt(Strip(s), pat, i - a);
    }
  }

  // ---------------------------------------------------------------------
  // Decimal rendering of naturals (`str(n)`, `f"{n}"`)
  // ---------------------------------------------------------------------

  predicate IsDigit(c: char)
  {
    '0' <= c <= '9'
  }

  function DigitChar(d: nat): (c: char)
    requires d < 10
    ensures IsDigit(c) && (c as int) - ('0' as int) == d
  {
    ('0' as int + d) as char
  }

  function NatToString(n: nat): (s: string)
    ensures |s| >= 1
    ensures forall i :: 0 <= i < |s| ==> IsDigit(s[i])
    ensures n < 10 <==> |s| == 1
  {
    if n < 10 then [DigitChar(n)] else NatToString(n / 10) + [DigitChar(n % 10)]
  }

  /** The number a string of decimal digits denotes (`int(s)`). */
  function DigitsValue(s: string): nat
    requires forall i :: 0 <= i < |s| ==> IsDigit(s[i])
  {
    if s == [] then 0
    else
      var last := s[|s| - 1];
      assert IsDigit(last);
      DigitsValue(s[..|s| - 1]) * 10 + ((last as int) - ('0' as int))
  }

  /** Reading back a rendered natural gives the natural. */
  lemma {:induction false} NatToStringRoundTrip(n: nat)
    ensures DigitsValue(NatToString(n)) == n
  {
    if n >= 10 {
      NatToStringRoundTrip(n / 10);
      var s := NatToString(n);
      assert s[..|s| - 1] == NatToString(n / 10);
    }
  }

  // ---------------------------------------------------------------------
  // Python's string order (code point by code point)
  // ---------------------------------------------------------------------

  predicate StrLe(a: string, b: string)
    decreases |a|
  {
    a == [] || (b != [] && (a[0] < b[0] || (a[0] == b[0] && StrLe(a[1..], b[1..]))))
  }

  /** Strings whose first characters differ are ordered by them. */
  lemma FirstCharOrders(a: string, b: string)
    requires a != [] && b != [] && a[0] < b[0]
    ensures StrLe(a, b) && !StrLe(b, a)
  {
  }

  /** Any two strings are ordered one way or the other. */
  lemma {:induction false} StrLeTotal(a: string, b: string)
    ensures StrLe(a, b) || StrLe(b, a)
    decreases |a|
  {
    if a != [] && b != [] && a[0] == b[0] {
      StrLeTotal(a[1..], b[1..]);
    }
  }
}
