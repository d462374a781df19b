/**
  Character classes and string helpers shared by the script normaliser and the
  headless option picker. Only ASCII is modelled: `IsSpace` is the ASCII part of
  Python's `str.isspace` (which is also what the regex class `\s` matches there),
  `IsLetter` and `IsDigit` are `[A-Za-z]` and `[0-9]`.
*/
module Text {

  predicate IsSpace(c: char) {
    c == ' ' || ('\t' <= c <= '\r') || ('\U{1C}' <= c <= '\U{1F}')
  }

  predicate IsDigit(c: char) {
    '0' <= c <= '9'
  }

  predicate IsLetter(c: char) {
    ('A' <= c <= 'Z') || ('a' <= c <= 'z')
  }

  /** Alphabet position of a letter, ignoring case: `ord(c.upper()) - ord('A')`. */
  function LetterIndex(c: char): (r: nat)
    requires IsLetter(c)
    ensures r < 26
  {
    if c <= 'Z' then c as int - 'A' as int else c as int - 'a' as int
  }

  function DigitValue(c: char): (r: nat)
    requires IsDigit(c)
    ensures r < 10
  {
    c as int - '0' as int
  }

  function DigitChar(d: nat): (c: char)
    requires d < 10
    ensures IsDigit(c) && DigitValue(c) == d
  {
    ('0' as int + d) as char
  }

  predicate AllDigits(s: string) {
    forall k :: 0 <= k < |s| ==> IsDigit(s[k])
  }

  /** Python's `int(s)` on a string of decimal digits. */
  function DigitsValue(s: string): (r: nat)
    requires AllDigits(s)
  {
    if s == [] then 0 else DigitsValue(s[..|s| - 1]) * 10 + DigitValue(s[|s| - 1])
  }

  lemma DigitsValueSingle(c: char)
    requires IsDigit(c)
    ensures DigitsValue([c]) == DigitValue(c)
  {
    assert [c][..0] == [];
  }

  lemma DigitsValuePair(c: char, d: char)
    requires IsDigit(c) && IsDigit(d)
    ensures DigitsValue([c, d]) == DigitValue(c) * 10 + DigitValue(d)
  {
    assert [c, d][..1] == [c];
    DigitsValueSingle(c);
  }

  /** Python's `str(n)` on a non-negative integer. */
  function NatToString(n: nat): (s: string)
    ensures s != [] && AllDigits(s)
    ensures n < 10 ==> |s| == 1
    ensures 10 <= n < 100 ==> |s| == 2
  {
    if n < 10 then [DigitChar(n)] else NatToString(n / 10) + [DigitChar(n % 10)]
  }

  /** Python's `str(n)` on any integer. */
  function IntToString(n: int): (s: string)
    ensures s != []
  {
    if n < 0 then "-" + NatToString(-n) else NatToString(n)
  }

  lemma {:induction false} DigitsOfNatToString(n: nat)
    ensures DigitsValue(NatToString(n)) == n
  {
    if n >= 10 {
      var s := NatToString(n);
      DigitsOfNatToString(n / 10);
      assert s[..|s| - 1] == NatToString(n / 10);
    }
  }

  /** First index at or after `i` that holds a non-space character, or `|s|`. */
  function SkipSpaces(s: string, i: nat): (j: nat)
    requires i <= |s|
    ensures i <= j <= |s|
    ensures forall k :: i <= k < j ==> IsSpace(s[k])
    ensures j < |s| ==> !IsSpace(s[j])
    decreases |s| - i
  {
    if i < |s| && IsSpace(s[i]) then SkipSpaces(s, i + 1) else i
  }

  /** Largest end `j <= hi`, not below `lo`, such that `s[j-1]` is not a space (or `lo`). */
  function SkipSpacesBack(s: string, lo: nat, hi: nat): (j: nat)
    requires lo <= hi <= |s|
    ensures lo <= j <= hi
    ensures forall k :: j <= k < hi ==> IsSpace(s[k])
    ensures j > lo ==> !IsSpace(s[j - 1])
    decreases hi
  {
    if hi > lo && IsSpace(s[hi - 1]) then SkipSpacesBack(s, lo, hi - 1) else hi
  }

  /** A string with no leading and no trailing whitespace. */
  predicate Stripped(s: string) {
    s == [] || (!IsSpace(s[0]) && !IsSpace(s[|s| - 1]))
  }

  /** Python's `s.strip()`. */
  function Strip(s: string): (r: string)
    ensures Stripped(r)
  {
    var i := SkipSpaces(s, 0);
    var j := SkipSpacesBack(s, i, |s|);
    assert i < |s| ==> i < j;
    s[i..j]
  }

  /** Stripping keeps a contiguous part of the string and is empty exactly on blank strings. */
  lemma StripIsSlice(s: string)
    ensures exists i, j :: 0 <= i <= j <= |s| && Strip(s) == s[i..j]
    ensures Strip(s) == [] <==> forall k :: 0 <= k < |s| ==> IsSpace(s[k])
  {
    var i := SkipSpaces(s, 0);
    var j := SkipSpacesBack(s, i, |s|);
    assert Strip(s) == s[i..j];
  }

  lemma StripOfStripped(s: string)
    requires Stripped(s)
    ensures Strip(s) == s
  {
  }

  /** Stripping a stripped string with some prefix removed leaves a suffix of it. */
  lemma StripOfSuffix(s: string, e: nat)
    requires Stripped(s) && e <= |s|
    ensures exists k :: e <= k <= |s| && Strip(s[e..]) == s[k..]
  {
    var t := s[e..];
    var i := SkipSpaces(t, 0);
    var j := SkipSpacesBack(t, i, |t|);
    if i < |t| {
      assert !IsSpace(t[|t| - 1]);
      assert j == |t|;
      assert Strip(t) == s[e + i..];
    } else {
      assert Strip(t) == s[|s|..];
    }
  }

  /** `s` ends with `t`. */
  predicate IsSuffix(t: string, s: string) {
    |t| <= |s| && s[|s| - |t|..] == t
  }

  /** `kw` is the slice of `s` that starts at `p`. */
  predicate OccursAt(kw: string, s: string, p: nat) {
    p + |kw| <= |s| && s[p..p + |kw|] == kw
  }

  /** `kw` occurs in `s` at or after position `i`: Python's `kw in s` for `i == 0`. */
  predicate OccursFrom(kw: string, s: string, i: nat)
    requires i <= |s|
    decreases |s| - i
  {
    OccursAt(kw, s, i) || (i < |s| && OccursFrom(kw, s, i + 1))
  }

  predicate Contains(s: string, kw: string) {
    OccursFrom(kw, s, 0)
  }

  lemma {:induction false} OccursFromBefore(kw: string, s: string, i: nat, p: nat)
    requires i <= p && OccursAt(kw, s, p)
    ensures OccursFrom(kw, s, i)
    decreases p - i
  {
    if i < p {
      OccursFromBefore(kw, s, i + 1, p);
    }
  }

  lemma {:induction false} OccurrenceFrom(kw: string, s: string, i: nat) returns (p: nat)
    requires i <= |s| && OccursFrom(kw, s, i)
    ensures i <= p && OccursAt(kw, s, p)
    decreases |s| - i
  {
    if OccursAt(kw, s, i) {
      p := i;
    } else {
      p := OccurrenceFrom(kw, s, i + 1);
    }
  }

  /** Python's `kw in s` holds exactly when `kw` is a slice of `s`. */
  lemma ContainsIffSlice(s: string, kw: string)
    ensures Contains(s, kw) <==> exists p: nat :: OccursAt(kw, s, p)
  {
    if exists p: nat :: OccursAt(kw, s, p) {
      var p: nat :| OccursAt(kw, s, p);
      OccursFromBefore(kw, s, 0, p);
    }
    if Contains(s, kw) {
      var p := OccurrenceFrom(kw, s, 0);
    }
  }
}
