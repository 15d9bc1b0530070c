/**
 * The string primitives the application relies on: `toLowerCase` (modelled on
 * ASCII letters only), `includes`, `trim`, `split(' ')` and the decimal
 * rendering of a count inside a template string.
 */
module Text {

  predicate IsAsciiUpper(c: char) {
    'A' <= c <= 'Z'
  }

  /** Lower-cases one ASCII letter; every other character, Hangul included, is unchanged. */
  function LowerChar(c: char): (r: char)
    ensures !IsAsciiUpper(r)
  {
    if IsAsciiUpper(c) then (c as int + 32) as char else c
  }

  /** `s.toLowerCase()` restricted to ASCII. */
  function ToLower(s: string): (r: string)
    ensures |r| == |s|
    ensures forall i :: 0 <= i < |s| ==> r[i] == LowerChar(s[i])
  {
    if s == [] then [] else [LowerChar(s[0])] + ToLower(s[1..])
  }

  /** Two strings that differ at most in the case of ASCII letters. */
  predicate SameIgnoringCase(a: string, b: string) {
    |a| == |b| && forall i :: 0 <= i < |a| ==> LowerChar(a[i]) == LowerChar(b[i])
  }

  /** Lower-casing identifies exactly the strings that differ only in ASCII case. */
  lemma ToLowerIdentifiesCase(a: string, b: string)
    ensures ToLower(a) == ToLower(b) <==> SameIgnoringCase(a, b)
  {
    if SameIgnoringCase(a, b) {
      assert forall i :: 0 <= i < |a| ==> ToLower(a)[i] == ToLower(b)[i];
    }
    if ToLower(a) == ToLower(b) {
      assert |a| == |b|;
      forall i | 0 <= i < |a| ensures LowerChar(a[i]) == LowerChar(b[i]) {
        assert ToLower(a)[i] == ToLower(b)[i];
      }
    }
  }

  lemma ToLowerIdempotent(s: string)
    ensures ToLower(ToLower(s)) == ToLower(s)
  {
    var t := ToLower(s);
    forall i | 0 <= i < |t| ensures ToLower(t)[i] == t[i] {
      assert LowerChar(t[i]) == t[i];
    }
  }

  /** True when no character of `s` from position `i` on is an upper-case ASCII letter. */
  predicate NoAsciiUpperFrom(s: string, i: nat)
    decreases |s| - i
  {
    i >= |s| || (!IsAsciiUpper(s[i]) && NoAsciiUpperFrom(s, i + 1))
  }

  /** A string without upper-case ASCII letters is its own lower-case form. */
  lemma ToLowerOfLowerCase(s: string)
    requires NoAsciiUpperFrom(s, 0)
    ensures ToLower(s) == s
  {
    NoAsciiUpperFromAll(s, 0);
  }

  lemma {:induction false} NoAsciiUpperFromAll(s: string, i: nat)
    requires NoAsciiUpperFrom(s, i)
    ensures forall k :: i <= k < |s| ==> !IsAsciiUpper(s[k])
    decreases |s| - i
  {
    if i < |s| {
      NoAsciiUpperFromAll(s, i + 1);
    }
  }

  // ---------------------------------------------------------------------------
  // Substring search (`s.includes(k)`)

  /** `k` occurs in `s` starting at position `p`. */
  predicate OccursAt(s: string, k: string, p: nat) {
    p + |k| <= |s| && s[p..p + |k|] == k
  }

  /** Compares `k[j..]` with the characters of `s` from `i + j` on, one character at a time. */
  function MatchesAt(s: string, k: string, i: nat, j: nat): bool
    requires i + |k| <= |s| && j <= |k|
    decreases |k| - j
  {
    j == |k| || (s[i + j] == k[j] && MatchesAt(s, k, i, j + 1))
  }

  /** Searches `s` for `k` at every start position from `i` on. */
  function IncludesFrom(s: string, k: string, i: nat): bool
    decreases |s| - i
  {
    if i + |k| > |s| then false else MatchesAt(s, k, i, 0) || IncludesFrom(s, k, i + 1)
  }

  /** `s.includes(k)`. */
  function Includes(s: string, k: string): bool {
    IncludesFrom(s, k, 0)
  }

  /** The character comparison agrees with slice equality. */
  lemma {:induction false} MatchesAtIffSlice(s: string, k: string, i: nat, j: nat)
    requires i + |k| <= |s| && j <= |k|
    ensures MatchesAt(s, k, i, j) <==> s[i + j..i + |k|] == k[j..]
    decreases |k| - j
  {
    if j < |k| {
      MatchesAtIffSlice(s, k, i, j + 1);
      assert s[i + j..i + |k|] == [s[i + j]] + s[i + j + 1..i + |k|];
      assert k[j..] == [k[j]] + k[j + 1..];
    }
  }

  /** The search from `i` succeeds exactly when `k` occurs at some position from `i` on. */
  lemma {:induction false} IncludesFromIffOccurs(s: string, k: string, i: nat)
    ensures IncludesFrom(s, k, i) <==> exists p: nat :: i <= p && OccursAt(s, k, p)
    decreases |s| - i
  {
    if i + |k| <= |s| {
      MatchesAtIffSlice(s, k, i, 0);
      IncludesFromIffOccurs(s, k, i + 1);
      assert IncludesFrom(s, k, i) == (MatchesAt(s, k, i, 0) || IncludesFrom(s, k, i + 1));
      assert MatchesAt(s, k, i, 0) <==> OccursAt(s, k, i);
      if IncludesFrom(s, k, i + 1) {
        var p: nat :| i + 1 <= p && OccursAt(s, k, p);
      }
      if exists p: nat :: i <= p && OccursAt(s, k, p) {
        var p: nat :| i <= p && OccursAt(s, k, p);
        if p > i {
          assert i + 1 <= p;
        }
      }
    }
  }

  /** `s.includes(k)` holds exactly when `k` is a contiguous part of `s` (the empty string is part of every string). */
  lemma IncludesIffOccurs(s: string, k: string)
    ensures Includes(s, k) <==> exists p: nat :: OccursAt(s, k, p)
  {
    IncludesFromIffOccurs(s, k, 0);
  }

  /** A keyword holding a character that `s` lacks does not occur in `s`. */
  lemma AbsentCharExcludes(s: string, k: string, j: nat)
    requires j < |k| && k[j] !in s
    ensures !Includes(s, k)
  {
    forall p: nat ensures !OccursAt(s, k, p) {
      if p + |k| <= |s| {
        assert s[p..p + |k|][j] == s[p + j];
      }
    }
    IncludesIffOccurs(s, k);
  }

  // ---------------------------------------------------------------------------
  // `String.prototype.trim`

  /** The characters that ECMAScript's `trim` removes: WhiteSpace and LineTerminator. */
  predicate IsJsWhitespace(c: char) {
    c == '\t' || c == '\n' || c == '\U{000B}' || c == '\U{000C}' || c == '\r' || c == ' ' ||
    c == '\U{00A0}' || c == '\U{1680}' || ('\U{2000}' <= c <= '\U{200A}') ||
    c == '\U{2028}' || c == '\U{2029}' || c == '\U{202F}' || c == '\U{205F}' ||
    c == '\U{3000}' || c == '\U{FEFF}'
  }

  /** Nothing but whitespace (the empty string included). */
  predicate IsBlank(s: string) {
    forall i :: 0 <= i < |s| ==> IsJsWhitespace(s[i])
  }

  /** Drops the leading whitespace. */
  function TrimStart(s: string): string {
    if s != [] && IsJsWhitespace(s[0]) then TrimStart(s[1..]) else s
  }

  /** Drops the trailing whitespace. */
  function TrimEnd(s: string): string {
    if s != [] && IsJsWhitespace(s[|s| - 1]) then TrimEnd(s[..|s| - 1]) else s
  }

  /** `s.trim()`. */
  function Trim(s: string): string {
    TrimEnd(TrimStart(s))
  }

  /** `TrimStart` keeps a suffix, drops only whitespace, and stops at the first non-space. */
  lemma {:induction false} TrimStartSpec(s: string)
    ensures |TrimStart(s)| <= |s| && TrimStart(s) == s[|s| - |TrimStart(s)|..]
    ensures IsBlank(s[..|s| - |TrimStart(s)|])
    ensures TrimStart(s) == [] || !IsJsWhitespace(TrimStart(s)[0])
    decreases |s|
  {
    if s != [] && IsJsWhitespace(s[0]) {
      TrimStartSpec(s[1..]);
      var n := |s| - |TrimStart(s)|;
      assert forall i :: 1 <= i < n ==> s[..n][i] == s[1..][..n - 1][i - 1];
    }
  }

  /** `TrimEnd` keeps a prefix, drops only whitespace, and stops at the last non-space. */
  lemma {:induction false} TrimEndSpec(s: string)
    ensures |TrimEnd(s)| <= |s| && TrimEnd(s) == s[..|TrimEnd(s)|]
    ensures IsBlank(s[|TrimEnd(s)|..])
    ensures TrimEnd(s) == [] || !IsJsWhitespace(TrimEnd(s)[|TrimEnd(s)| - 1])
    decreases |s|
  {
    if s != [] && IsJsWhitespace(s[|s| - 1]) {
      var r := TrimEnd(s[..|s| - 1]);
      TrimEndSpec(s[..|s| - 1]);
      assert s[|r|..] == s[..|s| - 1][|r|..] + [s[|s| - 1]];
    }
  }

  /** `!s.trim()` holds exactly for the blank strings; otherwise the trimmed text starts and ends with a non-space. */
  lemma TrimEmptyIffBlank(s: string)
    ensures Trim(s) == "" <==> IsBlank(s)
    ensures Trim(s) != "" ==> !IsJsWhitespace(Trim(s)[0]) && !IsJsWhitespace(Trim(s)[|Trim(s)| - 1])
  {
    var t := TrimStart(s);
    var n := |s| - |t|;
    TrimStartSpec(s);
    TrimEndSpec(t);
    if Trim(s) == "" {
      assert IsBlank(t) by {
        assert t[|Trim(s)|..] == t;
      }
      assert t == [];
      assert s[..n] == s;
    }
    if Trim(s) != "" {
      assert Trim(s)[0] == t[0];
    }
  }

  /** Trimming is idempotent. */
  lemma TrimIdempotent(s: string)
    ensures Trim(Trim(s)) == Trim(s)
  {
    var t := Trim(s);
    if t != "" {
      TrimEmptyIffBlank(s);
      assert TrimStart(t) == t;
      assert TrimEnd(t) == t;
    }
  }

  // ---------------------------------------------------------------------------
  // `s.split(' ')`

  /**
   * The space-separated fields of `s`, empty ones included: `"a  b"` has the
   * fields `"a"`, `""` and `"b"`, and a string without spaces is one field.
   */
  function SplitOnSpace(s: string): (fields: seq<string>)
    ensures |fields| >= 1
    ensures forall f :: f in fields ==> ' ' !in f
    decreases |s|
  {
    if ' ' !in s then [s]
    else
      var i := FirstSpace(s);
      [s[..i]] + SplitOnSpace(s[i + 1..])
  }

  /** Position of the first space of `s`. */
  function FirstSpace(s: string): (i: nat)
    requires ' ' in s
    ensures i < |s| && s[i] == ' ' && ' ' !in s[..i]
  {
    if s[0] == ' ' then 0 else 1 + FirstSpace(s[1..])
  }

  /** `fields.join(' ')`. */
  function JoinWithSpace(fields: seq<string>): string
    requires |fields| >= 1
  {
    if |fields| == 1 then fields[0] else fields[0] + " " + JoinWithSpace(fields[1..])
  }

  /** Splitting on spaces loses nothing: joining the fields gives the string back. */
  lemma {:induction false} SplitJoinRoundTrip(s: string)
    ensures JoinWithSpace(SplitOnSpace(s)) == s
    decreases |s|
  {
    if ' ' in s {
      var i := FirstSpace(s);
      SplitJoinRoundTrip(s[i + 1..]);
      assert s == s[..i] + " " + s[i + 1..];
    }
  }

  /** The part before the first space is the first field. */
  lemma {:induction false} FirstSpaceAfter(a: string, b: string)
    requires ' ' !in a
    ensures ' ' in a + " " + b && FirstSpace(a + " " + b) == |a|
    decreases |a|
  {
    var s := a + " " + b;
    assert s[|a|] == ' ';
    if a != [] {
      assert s[1..] == a[1..] + " " + b;
      FirstSpaceAfter(a[1..], b);
    }
  }

  /** Splitting `a + " " + b`, where `a` has no space, gives `a` and then the fields of `b`. */
  lemma SplitOnSpaceCons(a: string, b: string)
    requires ' ' !in a
    ensures SplitOnSpace(a + " " + b) == [a] + SplitOnSpace(b)
  {
    var s := a + " " + b;
    FirstSpaceAfter(a, b);
    assert s[..|a|] == a;
    assert s[|a| + 1..] == b;
  }

  // ---------------------------------------------------------------------------
  // Decimal rendering of a natural number (`${n}` in a template string)

  predicate IsDigit(c: char) {
    '0' <= c <= '9'
  }

  function DigitChar(d: nat): (c: char)
    requires d < 10
    ensures IsDigit(c)
  {
    ('0' as int + d) as char
  }

  function DigitValue(c: char): (d: nat)
    requires IsDigit(c)
    ensures d < 10
  {
    c as int - '0' as int
  }

  /** The shortest decimal numeral of `n`. */
  function Decimal(n: nat): (r: string)
    ensures |r| >= 1
    ensures forall i :: 0 <= i < |r| ==> IsDigit(r[i])
    ensures r[0] == '0' ==> n == 0
  {
    if n < 10 then [DigitChar(n)] else Decimal(n / 10) + [DigitChar(n % 10)]
  }

  /** The value of a numeral. */
  function DecimalValue(s: string): nat
    requires forall i :: 0 <= i < |s| ==> IsDigit(s[i])
  {
    if s == [] then 0 else 10 * DecimalValue(s[..|s| - 1]) + DigitValue(s[|s| - 1])
  }

  /** Reading back the numeral gives the number. */
  lemma {:induction false} DecimalRoundTrip(n: nat)
    ensures DecimalValue(Decimal(n)) == n
  {
    if n >= 10 {
      DecimalRoundTrip(n / 10);
      var r := Decimal(n);
      assert r[..|r| - 1] == Decimal(n / 10);
    }
  }
}
