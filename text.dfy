/** String helpers that both halves of the system rely on: the whitespace
    classes of JavaScript and Rust, trimming, splitting on one character,
    prefix and substring tests, and decimal rendering and parsing of integers. */
module Text {
  import opened Wrappers

  /** JavaScript's `\s` and `String.prototype.trim` class: WhiteSpace and
      LineTerminator code points of ECMAScript. */
  predicate IsJsSpace(c: char) {
    ('\t' <= c <= '\r') || c == ' ' || c == '\U{00A0}' || c == '\U{1680}'
    || ('\U{2000}' <= c <= '\U{200A}') || c == '\U{2028}' || c == '\U{2029}'
    || c == '\U{202F}' || c == '\U{205F}' || c == '\U{3000}' || c == '\U{FEFF}'
  }

  /** Rust's `char::is_whitespace` (the Unicode White_Space property), used by `str::trim`. */
  predicate IsRustSpace(c: char) {
    ('\t' <= c <= '\r') || c == ' ' || c == '\U{0085}' || c == '\U{00A0}' || c == '\U{1680}'
    || ('\U{2000}' <= c <= '\U{200A}') || c == '\U{2028}' || c == '\U{2029}'
    || c == '\U{202F}' || c == '\U{205F}' || c == '\U{3000}'
  }

  /** Drops the leading characters that `space` accepts. */
  function TrimStart(s: string, space: char -> bool): string {
    if |s| > 0 && space(s[0]) then TrimStart(s[1..], space) else s
  }

  /** `TrimStart` keeps a suffix, whose first character is not a space, and
      everything it dropped was a space. */
  lemma {:induction false} TrimStartFacts(s: string, space: char -> bool)
    ensures var r := TrimStart(s, space);
      && |r| <= |s| && r == s[|s| - |r|..]
      && (r == [] || !space(r[0]))
      && forall i :: 0 <= i < |s| - |r| ==> space(s[i])
  {
    if |s| > 0 && space(s[0]) {
      TrimStartFacts(s[1..], space);
      assert forall i :: 1 <= i < |s| ==> s[i] == s[1..][i - 1];
    }
  }

  /** Drops the trailing characters that `space` accepts. */
  function TrimEnd(s: string, space: char -> bool): string {
    if |s| > 0 && space(s[|s| - 1]) then TrimEnd(s[..|s| - 1], space) else s
  }

  /** `TrimEnd` keeps a prefix, whose last character is not a space, and
      everything it dropped was a space. */
  lemma {:induction false} TrimEndFacts(s: string, space: char -> bool)
    ensures var r := TrimEnd(s, space);
      && |r| <= |s| && r == s[..|r|]
      && (r == [] || !space(r[|r| - 1]))
      && forall i :: |r| <= i < |s| ==> space(s[i])
  {
    if |s| > 0 && space(s[|s| - 1]) {
      TrimEndFacts(s[..|s| - 1], space);
    }
  }

  /** `trim()`: both ends. */
  function Trim(s: string, space: char -> bool): string {
    TrimEnd(TrimStart(s, space), space)
  }

  /** A string trims to nothing exactly when every character is a space. */
  lemma TrimEmptyIff(s: string, space: char -> bool)
    ensures Trim(s, space) == [] <==> forall i :: 0 <= i < |s| ==> space(s[i])
  {
    var t := TrimStart(s, space);
    TrimStartFacts(s, space);
    TrimEndFacts(t, space);
    if Trim(s, space) == [] {
      assert t == [];
    } else {
      var r := Trim(s, space);
      assert r[0] == t[0] == s[|s| - |t|];
    }
  }

  /** A string without white space is its own trim. */
  lemma TrimNoSpace(s: string, space: char -> bool)
    requires forall i :: 0 <= i < |s| ==> !space(s[i])
    ensures Trim(s, space) == s
  {
    var t := TrimStart(s, space);
    TrimStartFacts(s, space);
    assert t == s;
    TrimEndFacts(t, space);
  }

  /** Splits on every occurrence of `sep`, keeping empty pieces, as Rust's
      `str::split(char)` and JavaScript's `String.prototype.split(string)` do. */
  function Split(s: string, sep: char): (r: seq<string>)
    ensures |r| >= 1
    ensures forall i :: 0 <= i < |r| ==> sep !in r[i]
  {
    if s == [] then [""]
    else
      var rest := Split(s[1..], sep);
      if s[0] == sep then [""] + rest
      else [[s[0]] + rest[0]] + rest[1..]
  }

  /** The inverse of `Split`: the pieces glued back with the separator. */
  function Join(parts: seq<string>, sep: char): string
    requires |parts| >= 1
  {
    if |parts| == 1 then parts[0] else parts[0] + [sep] + Join(parts[1..], sep)
  }

  /** Splitting loses nothing: joining the pieces gives the input back. */
  lemma {:induction false} SplitJoin(s: string, sep: char)
    ensures Join(Split(s, sep), sep) == s
  {
    if s != [] {
      var rest := Split(s[1..], sep);
      SplitJoin(s[1..], sep);
      if s[0] == sep {
        assert Split(s, sep)[1..] == rest;
        assert s == [sep] + s[1..];
      } else {
        var r := Split(s, sep);
        if |rest| == 1 {
          assert r == [[s[0]] + rest[0]];
        } else {
          assert r[1..] == rest[1..];
          assert Join(r, sep) == [s[0]] + rest[0] + [sep] + Join(rest[1..], sep);
          assert Join(rest, sep) == rest[0] + [sep] + Join(rest[1..], sep);
        }
      }
    }
  }

  /** A string without the separator is a single piece. */
  lemma SplitNoSep(s: string, sep: char)
    requires sep !in s
    ensures Split(s, sep) == [s]
  {
    if s != [] {
      SplitNoSep(s[1..], sep);
      assert [s[0]] + s[1..] == s;
    }
  }

  /** A separator between two strings splits them apart and nothing else. */
  lemma {:induction false} SplitAround(a: string, b: string, sep: char)
    ensures Split(a + [sep] + b, sep) == Split(a, sep) + Split(b, sep)
  {
    var s := a + [sep] + b;
    if a == [] {
      assert s[0] == sep && s[1..] == b;
    } else {
      var tail := a[1..] + [sep] + b;
      assert s[0] == a[0] && s[1..] == tail;
      SplitAround(a[1..], b, sep);
      var rest := Split(a[1..], sep);
      var whole := Split(tail, sep);
      assert whole == rest + Split(b, sep);
      if a[0] == sep {
        assert Split(s, sep) == [""] + whole;
        assert Split(a, sep) == [""] + rest;
      } else {
        assert Split(s, sep) == [[a[0]] + whole[0]] + whole[1..];
        assert Split(a, sep) == [[a[0]] + rest[0]] + rest[1..];
        assert whole[0] == rest[0];
        assert whole[1..] == rest[1..] + Split(b, sep);
      }
    }
  }

  /** The first piece is the text before the first separator. */
  lemma {:induction false} SplitFirst(s: string, sep: char)
    ensures var first := Split(s, sep)[0];
      && |first| <= |s| && first == s[..|first|]
      && (|first| < |s| ==> s[|first|] == sep)
  {
    if s != [] {
      SplitFirst(s[1..], sep);
    }
  }

  /** `s.starts_with(p)` / `s.startsWith(p)`. */
  predicate StartsWith(s: string, p: string) {
    |p| <= |s| && s[..|p|] == p
  }

  /** `s.contains(sub)`, as a scan from the left. */
  function Contains(s: string, sub: string): (r: bool)
    ensures r <==> exists i :: 0 <= i && i + |sub| <= |s| && StartsWith(s[i..], sub)
    decreases |s|
  {
    if StartsWith(s, sub) then
      assert StartsWith(s[0..], sub);
      true
    else if |s| == 0 then false
    else
      var r := Contains(s[1..], sub);
      if r then
        var i :| 0 <= i && i + |sub| <= |s| - 1 && StartsWith(s[1..][i..], sub);
        assert s[1..][i..] == s[i + 1..];
        true
      else
        assert forall i :: 1 <= i && i + |sub| <= |s| ==> s[i..] == s[1..][i - 1..];
        false
  }

  /** An occurrence at a known position. */
  lemma ContainsAt(s: string, sub: string, i: nat)
    requires i + |sub| <= |s| && s[i..i + |sub|] == sub
    ensures Contains(s, sub)
  {
    assert s[i..][..|sub|] == s[i..i + |sub|];
    assert StartsWith(s[i..], sub);
  }

  predicate IsDigit(c: char) {
    '0' <= c <= '9'
  }

  predicate AllDigits(s: string) {
    forall i :: 0 <= i < |s| ==> IsDigit(s[i])
  }

  function DigitChar(d: nat): (c: char)
    requires d < 10
    ensures IsDigit(c) && c as int - '0' as int == d
  {
    (d + '0' as int) as char
  }

  /** Number-to-string for a non-negative integer: decimal, no leading zeros. */
  function NatToString(n: nat): (r: string)
    ensures |r| >= 1 && AllDigits(r)
    ensures r[0] == '0' ==> n == 0
  {
    if n < 10 then [DigitChar(n)] else NatToString(n / 10) + [DigitChar(n % 10)]
  }

  /** Number-to-string for any integer: a minus sign before the magnitude. */
  function IntToString(n: int): string {
    if n < 0 then "-" + NatToString(-n) else NatToString(n)
  }

  /** The value of a string of decimal digits (the empty string is 0). */
  function DigitsValue(s: string): nat
    requires AllDigits(s)
  {
    if s == [] then 0 else DigitsValue(s[..|s| - 1]) * 10 + (s[|s| - 1] as int - '0' as int)
  }

  /** Reading back what `NatToString` wrote gives the number. */
  lemma {:induction false} NatToStringValue(n: nat)
    ensures DigitsValue(NatToString(n)) == n
  {
    if n >= 10 {
      NatToStringValue(n / 10);
      var s := NatToString(n);
      assert s[..|s| - 1] == NatToString(n / 10);
    }
  }

  /** Rust's `str::parse` for an unsigned integer type whose largest value is
      `max`: an optional `+`, then at least one ASCII digit and nothing else,
      and a value that fits. */
  function ParseUnsigned(s: string, max: nat): (r: Option<nat>)
    ensures r.Some? ==> r.value <= max
  {
    var digits := if |s| > 0 && s[0] == '+' then s[1..] else s;
    if |digits| == 0 || !AllDigits(digits) || DigitsValue(digits) > max then None
    else Some(DigitsValue(digits))
  }

  /** Every value that fits is read back from its decimal form. */
  lemma ParseUnsignedRoundTrip(n: nat, max: nat)
    requires n <= max
    ensures ParseUnsigned(NatToString(n), max) == Some(n)
  {
    NatToStringValue(n);
  }

  /** Rust's `str::parse::<bool>`: exactly `true` or `false`. */
  function ParseBool(s: string): (r: Option<bool>)
    ensures r == Some(true) <==> s == "true"
    ensures r == Some(false) <==> s == "false"
  {
    if s == "true" then Some(true) else if s == "false" then Some(false) else None
  }

  function Repeat(c: char, n: nat): (r: string)
    ensures |r| == n && forall i :: 0 <= i < n ==> r[i] == c
  {
    if n == 0 then [] else [c] + Repeat(c, n - 1)
  }

  /** JavaScript's `padStart(len, c)` with a one-character pad string. */
  function PadStart(s: string, len: nat, c: char): (r: string)
    ensures |r| == if |s| >= len then |s| else len
    ensures r[|r| - |s|..] == s
    ensures forall i :: 0 <= i < |r| - |s| ==> r[i] == c
  {
    if |s| >= len then s else Repeat(c, len - |s|) + s
  }
}
