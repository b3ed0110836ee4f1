/** The slice of Python's `str` and `int` behaviour that the lead-collection code
    relies on: `strip()`, `lower()`, `title()`, `startswith`, the `in` substring
    test, `str(int)` and `int(str)`. Strings are sequences of Unicode scalar values. */
module Text {

  datatype Option<T> = None | Some(value: T)

  // ---------------------------------------------------------------------------
  // Whitespace and strip()

  /** The characters for which Python's `str.isspace()` holds; `str.strip()` with
      no argument removes exactly these from both ends. */
  predicate IsSpace(c: char) {
    || 0x09 <= c as int <= 0x0D
    || 0x1C <= c as int <= 0x20
    || c as int == 0x85 || c as int == 0xA0 || c as int == 0x1680
    || 0x2000 <= c as int <= 0x200A
    || c as int == 0x2028 || c as int == 0x2029 || c as int == 0x202F
    || c as int == 0x205F || c as int == 0x3000
  }

  /** `s.lstrip()`: the suffix of `s` left after dropping leading whitespace. */
  function LStrip(s: string): (r: string)
    ensures |r| <= |s| && r == s[|s| - |r|..]
    ensures r == [] || !IsSpace(r[0])
    ensures forall i :: 0 <= i < |s| - |r| ==> IsSpace(s[i])
  {
    if s != [] && IsSpace(s[0]) then LStrip(s[1..]) else s
  }

  /** `s.rstrip()`: the prefix of `s` left after dropping trailing whitespace. */
  function RStrip(s: string): (r: string)
    ensures |r| <= |s| && r == s[..|r|]
    ensures r == [] || !IsSpace(r[|r| - 1])
    ensures forall i :: |r| <= i < |s| ==> IsSpace(s[i])
  {
    if s != [] && IsSpace(s[|s| - 1]) then RStrip(s[..|s| - 1]) else s
  }

  /** `s.strip()`: what is left between the leading and the trailing whitespace. */
  function Strip(s: string): (r: string)
    ensures |r| <= |s|
    ensures r == [] || (!IsSpace(r[0]) && !IsSpace(r[|r| - 1]))
  {
    RStrip(LStrip(s))
  }

  /** `strip()` removes whitespace and nothing else: its result is a slice of
      the input with only whitespace before and after it. */
  lemma StripRemovesOnlyWhitespace(s: string)
    ensures exists i :: 0 <= i <= |s| - |Strip(s)| && Strip(s) == s[i..][..|Strip(s)|]
                        && (forall k :: 0 <= k < i ==> IsSpace(s[k]))
                        && (forall k :: i + |Strip(s)| <= k < |s| ==> IsSpace(s[k]))
  {
    var l := LStrip(s);
    var r := RStrip(l);
    assert r == Strip(s);
    var i := |s| - |l|;
    assert l == s[i..];
    assert r == l[..|r|];
    assert forall k :: 0 <= k < i ==> IsSpace(s[k]);
    assert forall k :: i + |r| <= k < |s| ==> IsSpace(s[k]) by {
      forall k | i + |r| <= k < |s|
        ensures IsSpace(s[k])
      {
        assert s[k] == l[k - i];
      }
    }
    assert 0 <= i <= |s| - |r| && r == s[i..][..|r|];
  }

  /** A string with no whitespace at either end is its own `strip()`. */
  lemma StripTrimmed(s: string)
    requires s == [] || (!IsSpace(s[0]) && !IsSpace(s[|s| - 1]))
    ensures Strip(s) == s
  {
  }

  /** `strip()` is idempotent. */
  lemma StripIdempotent(s: string)
    ensures Strip(Strip(s)) == Strip(s)
  {
    StripTrimmed(Strip(s));
  }

  // ---------------------------------------------------------------------------
  // Case mapping, lower() and title()

  /** Upper-case letters: ASCII A-Z, Cyrillic U+0400-U+042F and U+0490 (Ґ). */
  predicate IsUpper(c: char) {
    ('A' <= c <= 'Z') || (0x400 <= c as int <= 0x42F) || c as int == 0x490
  }

  /** Lower-case letters: ASCII a-z, Cyrillic U+0430-U+045F and U+0491 (ґ). */
  predicate IsLower(c: char) {
    ('a' <= c <= 'z') || (0x430 <= c as int <= 0x45F) || c as int == 0x491
  }

  /** Python's "cased" characters, restricted to the letters above. */
  predicate IsCased(c: char) {
    IsUpper(c) || IsLower(c)
  }

  /** `c.lower()` for one character. */
  function ToLower(c: char): (r: char)
    ensures IsUpper(c) ==> IsLower(r)
    ensures !IsUpper(c) ==> r == c
  {
    if 'A' <= c <= 'Z' then (c as int + 0x20) as char
    else if 0x400 <= c as int <= 0x40F then (c as int + 0x50) as char
    else if 0x410 <= c as int <= 0x42F then (c as int + 0x20) as char
    else if c as int == 0x490 then 0x491 as char
    else c
  }

  /** `c.upper()` (also its title case) for one character. */
  function ToUpper(c: char): (r: char)
    ensures IsLower(c) ==> IsUpper(r)
    ensures !IsLower(c) ==> r == c
  {
    if 'a' <= c <= 'z' then (c as int - 0x20) as char
    else if 0x450 <= c as int <= 0x45F then (c as int - 0x50) as char
    else if 0x430 <= c as int <= 0x44F then (c as int - 0x20) as char
    else if c as int == 0x491 then 0x490 as char
    else c
  }

  /** Upper and lower case are inverse to each other on the cased letters. */
  lemma CaseRoundTrip(c: char)
    ensures IsUpper(c) ==> ToUpper(ToLower(c)) == c
    ensures IsLower(c) ==> ToLower(ToUpper(c)) == c
  {
  }

  /** `s.lower()`: no upper-case letter is left; every other character is
      kept, and each upper-case letter becomes the lower-case letter whose
      upper case it is. */
  function Lower(s: string): (r: string)
    ensures |r| == |s|
    ensures forall i :: 0 <= i < |r| ==> !IsUpper(r[i])
    ensures forall i :: 0 <= i < |s| && !IsUpper(s[i]) ==> r[i] == s[i]
    ensures forall i :: 0 <= i < |s| && IsUpper(s[i]) ==> IsLower(r[i]) && ToUpper(r[i]) == s[i]
  {
    seq(|s|, i requires 0 <= i < |s| => ToLower(s[i]))
  }

  /** `s.lower().lower() == s.lower()`. */
  lemma LowerIdempotent(s: string)
    ensures Lower(Lower(s)) == Lower(s)
  {
    var t := Lower(s);
    assert forall i :: 0 <= i < |t| ==> Lower(t)[i] == t[i];
  }

  /** `s.title()` when the character before `s` was cased (`prevCased`) or not:
      each character is lower-cased after a cased one and title-cased otherwise,
      and whether the next one counts as following a cased character depends on
      the ORIGINAL character. */
  function TitleFrom(s: string, prevCased: bool): (r: string)
    ensures |r| == |s|
  {
    if s == [] then []
    else [if prevCased then ToLower(s[0]) else ToUpper(s[0])] + TitleFrom(s[1..], IsCased(s[0]))
  }

  /** `s.title()`. */
  function Title(s: string): string {
    TitleFrom(s, false)
  }

  lemma {:induction false} TitleFromIdempotent(s: string, prevCased: bool)
    ensures TitleFrom(TitleFrom(s, prevCased), prevCased) == TitleFrom(s, prevCased)
  {
    if s != [] {
      var t := TitleFrom(s, prevCased);
      var c := s[0];
      assert t[0] == (if prevCased then ToLower(c) else ToUpper(c));
      assert IsCased(t[0]) == IsCased(c);
      assert t[1..] == TitleFrom(s[1..], IsCased(c));
      TitleFromIdempotent(s[1..], IsCased(c));
    }
  }

  /** Character `i` of `TitleFrom(s, prevCased)` is lower-cased when the
      original character before it is cased, and upper-cased otherwise. */
  lemma {:induction false} TitleFromAt(s: string, prevCased: bool, i: nat)
    requires i < |s|
    ensures TitleFrom(s, prevCased)[i]
            == if (if i == 0 then prevCased else IsCased(s[i - 1])) then ToLower(s[i]) else ToUpper(s[i])
  {
    if i > 0 {
      TitleFromAt(s[1..], IsCased(s[0]), i - 1);
      assert TitleFrom(s, prevCased)[i] == TitleFrom(s[1..], IsCased(s[0]))[i - 1];
    }
  }

  /** `s.title()` word by word: a character that starts a word (nothing cased
      just before it) is upper-cased, one inside a word is lower-cased, and an
      uncased character is kept. */
  lemma TitleShape(s: string, i: nat)
    requires i < |s|
    ensures |Title(s)| == |s|
    ensures i == 0 || !IsCased(s[i - 1]) ==> Title(s)[i] == ToUpper(s[i])
    ensures i > 0 && IsCased(s[i - 1]) ==> Title(s)[i] == ToLower(s[i])
    ensures !IsCased(s[i]) ==> Title(s)[i] == s[i]
  {
    TitleFromAt(s, false, i);
  }

  /** `title()` is idempotent: a title-cased string is left as it is. */
  lemma TitleIdempotent(s: string)
    ensures Title(Title(s)) == Title(s)
  {
    TitleFromIdempotent(s, false);
  }

  /** After a cased character, a run of lower-case letters is left as it is. */
  lemma {:induction false} TitleFromLowerRun(s: string)
    requires forall i :: 0 <= i < |s| ==> IsLower(s[i])
    ensures TitleFrom(s, true) == s
  {
    if s != [] {
      TitleFromLowerRun(s[1..]);
      assert TitleFrom(s, true) == [s[0]] + s[1..];
    }
  }

  /** A capitalised word (an upper-case letter followed by lower-case letters)
      is its own `title()`. */
  lemma TitleCapitalised(s: string)
    requires s != [] && IsUpper(s[0])
    requires forall i :: 1 <= i < |s| ==> IsLower(s[i])
    ensures Title(s) == s
  {
    TitleFromLowerRun(s[1..]);
    assert Title(s) == [s[0]] + s[1..];
  }

  // ---------------------------------------------------------------------------
  // startswith and substring search

  /** `s.startswith(p)`. */
  predicate StartsWith(s: string, p: string) {
    |p| <= |s| && s[..|p|] == p
  }

  /** `sub in s` for strings. */
  predicate Contains(s: string, sub: string) {
    exists i :: 0 <= i <= |s| - |sub| && StartsWith(s[i..], sub)
  }

  /** `s.startswith(p)` holds exactly when `s` is `p` followed by something. */
  lemma StartsWithSplit(s: string, p: string)
    ensures StartsWith(s, p) <==> exists t :: s == p + t
  {
    if StartsWith(s, p) {
      assert s == p + s[|p|..];
    }
    if exists t :: s == p + t {
      var t :| s == p + t;
      assert s[..|p|] == p;
    }
  }

  /** `sub in s` holds exactly when `s` is something, then `sub`, then something. */
  lemma ContainsSplit(s: string, sub: string)
    ensures Contains(s, sub) <==> exists a, b :: s == a + sub + b
  {
    if Contains(s, sub) {
      var i :| 0 <= i <= |s| - |sub| && StartsWith(s[i..], sub);
      assert s == s[..i] + sub + s[i + |sub|..];
    }
    if exists a, b :: s == a + sub + b {
      var a, b :| s == a + sub + b;
      assert s[|a|..] == sub + b;
      assert StartsWith(s[|a|..], sub);
    }
  }

  // ---------------------------------------------------------------------------
  // str(int) and int(str)

  predicate IsDigit(c: char) {
    '0' <= c <= '9'
  }

  function DigitChar(d: nat): (c: char)
    requires d < 10
    ensures IsDigit(c)
  {
    ('0' as int + d) as char
  }

  function DigitValue(c: char): (d: nat)
    requires IsDigit(c)
    ensures d < 10 && DigitChar(d) == c
  {
    c as int - '0' as int
  }

  /** The decimal digits of `n`, most significant first, without leading zeros. */
  function NatToString(n: nat): (s: string)
    ensures s != [] && forall i :: 0 <= i < |s| ==> IsDigit(s[i])
  {
    if n < 10 then [DigitChar(n)] else NatToString(n / 10) + [DigitChar(n % 10)]
  }

  /** `str(n)` for an `int`. */
  function IntToString(n: int): (s: string)
    ensures s != [] && !IsSpace(s[0]) && !IsSpace(s[|s| - 1])
    ensures s[0] == '-' || IsDigit(s[0])
  {
    if n < 0 then "-" + NatToString(-n) else NatToString(n)
  }

  /** The digit string accepted by `int()` after the sign: digits, with single
      underscores allowed between two digits. */
  predicate DigitRun(b: string) {
    && b != []
    && IsDigit(b[0]) && IsDigit(b[|b| - 1])
    && (forall i :: 0 <= i < |b| ==> IsDigit(b[i]) || b[i] == '_')
    && (forall i, j :: 0 <= i < |b| && j == i + 1 && j < |b| ==> b[i] == '_' ==> b[j] != '_')
  }

  /** The value of a run of digits and underscores, underscores ignored. */
  function RunValue(b: string): nat
    requires forall i :: 0 <= i < |b| ==> IsDigit(b[i]) || b[i] == '_'
  {
    if b == [] then 0
    else if b[|b| - 1] == '_' then RunValue(b[..|b| - 1])
    else RunValue(b[..|b| - 1]) * 10 + DigitValue(b[|b| - 1])
  }

  /** `int(s)` for a `str`: surrounding whitespace, an optional sign and a
      `DigitRun`; `None` is the `ValueError` Python raises otherwise. */
  function ParseInt(s: string): (r: Option<int>)
    ensures r.Some? ==> Strip(s) != []
  {
    ParseTrimmed(Strip(s))
  }

  /** `int()` on text whose surrounding whitespace is already gone. */
  function ParseTrimmed(t: string): Option<int> {
    if t == [] then None
    else
      var neg := t[0] == '-';
      var body := if t[0] == '-' || t[0] == '+' then t[1..] else t;
      if DigitRun(body) then
        var v: int := RunValue(body);
        Some(if neg then -v else v)
      else None
  }

  /** `int()` strips its argument first, so surrounding whitespace never
      matters. */
  lemma ParseIntStrips(s: string)
    ensures ParseInt(Strip(s)) == ParseInt(s)
  {
    StripIdempotent(s);
  }

  /** `int()` raises on a text holding, after stripping, a character that is
      not a digit, not `_`, and not a leading sign (a `.`, a letter, an inner
      space, a second sign). */
  lemma ParseIntRejects(s: string, i: nat)
    requires i < |Strip(s)|
    requires !IsDigit(Strip(s)[i]) && Strip(s)[i] != '_'
    requires i > 0 || (Strip(s)[0] != '+' && Strip(s)[0] != '-')
    ensures ParseInt(s) == None
  {
    var t := Strip(s);
    if t[0] == '-' || t[0] == '+' {
      assert t[1..][i - 1] == t[i];
    }
  }

  /** `int()` raises on a decimal fraction, on a word, and on blank text. */
  lemma ParseIntRejectsExamples()
    ensures ParseInt("12.5") == None
    ensures ParseInt("abc") == None
    ensures ParseInt(" ") == None
  {
    StripTrimmed("12.5");
    ParseIntRejects("12.5", 2);
    StripTrimmed("abc");
    ParseIntRejects("abc", 0);
  }

  /** `int()` reads a run of digits as its value. */
  lemma ParseIntDigits(b: string)
    requires DigitRun(b)
    ensures ParseInt(b) == Some(RunValue(b))
  {
    assert IsDigit(b[0]) && IsDigit(b[|b| - 1]);
    StripTrimmed(b);
    ParseTrimmedDigits(b);
  }

  lemma ParseTrimmedDigits(b: string)
    requires DigitRun(b)
    ensures ParseTrimmed(b) == Some(RunValue(b))
  {
    assert b[0] != '-' && b[0] != '+';
  }

  /** A sign followed by a run of digits has no surrounding whitespace. */
  lemma SignedTrimmed(t: string)
    requires |t| >= 2 && (t[0] == '+' || t[0] == '-') && DigitRun(t[1..])
    ensures Strip(t) == t
  {
    assert IsDigit(t[|t| - 1]);
    StripTrimmed(t);
  }

  /** `int()` reads a leading `+` or `-` before a run of digits as the sign. */
  lemma ParseIntSigned(t: string)
    requires |t| >= 2 && (t[0] == '+' || t[0] == '-') && DigitRun(t[1..])
    ensures ParseInt(t) == Some(if t[0] == '-' then -(RunValue(t[1..]) as int) else RunValue(t[1..]))
  {
    SignedTrimmed(t);
    ParseTrimmedSigned(t);
  }

  lemma ParseTrimmedSigned(t: string)
    requires |t| >= 2 && (t[0] == '+' || t[0] == '-') && DigitRun(t[1..])
    ensures ParseTrimmed(t) == Some(if t[0] == '-' then -(RunValue(t[1..]) as int) else RunValue(t[1..]))
  {
  }

  lemma {:induction false} NatToStringRun(n: nat)
    ensures DigitRun(NatToString(n)) && RunValue(NatToString(n)) == n
  {
    var s := NatToString(n);
    if n >= 10 {
      NatToStringRun(n / 10);
      assert s[..|s| - 1] == NatToString(n / 10);
      assert s[|s| - 1] == DigitChar(n % 10);
    }
  }

  /** `int(str(n)) == n`: the two conversions are inverse to each other. */
  lemma IntRoundTrip(n: int)
    ensures ParseInt(IntToString(n)) == Some(n)
  {
    var s := IntToString(n);
    StripTrimmed(s);
    if n < 0 {
      NatToStringRun(-n);
      assert s[1..] == NatToString(-n);
    } else {
      NatToStringRun(n);
    }
  }
}
