/**
 * String primitives of the JavaScript runtime that the converter relies on:
 * character classes of regular expressions, `trim`, `join`, `split`, `parseInt`,
 * number-to-string conversion, and the array flattening of `flattener`.
 * Strings are sequences of characters.
 */
module Text {
  import opened Wrappers

  predicate IsDigit(c: char) { '0' <= c <= '9' }
  predicate IsUpper(c: char) { 'A' <= c <= 'Z' }
  predicate IsLower(c: char) { 'a' <= c <= 'z' }

  /** `\w` of a regular expression. */
  predicate IsWordChar(c: char) { IsDigit(c) || IsUpper(c) || IsLower(c) || c == '_' }

  predicate AllWordChars(s: string) {
    forall i :: 0 <= i < |s| ==> IsWordChar(s[i])
  }

  /** The characters that `.` of a regular expression does not match. */
  predicate IsLineTerminator(c: char) {
    c == '\n' || c == '\r' || c == '\U{2028}' || c == '\U{2029}'
  }

  /** No line terminator: the text a `.` run can cover. */
  predicate NoLineBreak(s: string) {
    forall i :: 0 <= i < |s| ==> !IsLineTerminator(s[i])
  }

  /** `\s` of a regular expression; also the set that `trim` strips. */
  predicate IsSpace(c: char) {
    || c == '\t' || c == '\n' || c == '\U{000B}' || c == '\U{000C}' || c == '\r' || c == ' '
    || c == '\U{00A0}' || c == '\U{1680}' || ('\U{2000}' <= c <= '\U{200A}')
    || c == '\U{2028}' || c == '\U{2029}' || c == '\U{202F}' || c == '\U{205F}'
    || c == '\U{3000}' || c == '\U{FEFF}'
  }

  /** ASCII lower-casing: the folding a case-insensitive regular expression applies to ASCII letters. */
  function LowerAscii(c: char): char {
    if IsUpper(c) then (c as int + 32) as char else c
  }

  /** `s` starts with the ASCII literal `lit`, letters compared case-insensitively (the `i` flag). */
  predicate StartsWithIgnoreCase(s: string, lit: string) {
    |lit| <= |s| && forall i :: 0 <= i < |lit| ==> LowerAscii(s[i]) == LowerAscii(lit[i])
  }

  function DigitValue(c: char): nat
    requires IsDigit(c)
  {
    c as int - '0' as int
  }

  function DigitChar(d: nat): (c: char)
    requires d < 10
    ensures IsDigit(c) && DigitValue(c) == d
  {
    ('0' as int + d) as char
  }

  predicate AllDigits(s: string) {
    forall i :: 0 <= i < |s| ==> IsDigit(s[i])
  }

  /** Length of the longest run of decimal digits at the start of `s`. */
  function DigitRun(s: string): (n: nat)
    ensures n <= |s|
    ensures n < |s| ==> !IsDigit(s[n])
  {
    if s != [] && IsDigit(s[0]) then 1 + DigitRun(s[1..]) else 0
  }

  /** A text with a non-empty digit run starts with a digit. */
  lemma DigitRunStartsWithDigit(s: string)
    requires DigitRun(s) > 0
    ensures s != [] && IsDigit(s[0])
  {
  }

  lemma {:induction false} DigitRunDigits(s: string)
    ensures AllDigits(s[..DigitRun(s)])
  {
    if s != [] && IsDigit(s[0]) {
      DigitRunDigits(s[1..]);
      assert s[..DigitRun(s)] == [s[0]] + s[1..][..DigitRun(s[1..])];
    }
  }

  /** The number that a string of decimal digits denotes, most significant digit first. */
  function DigitsValue(s: string): nat
    requires AllDigits(s)
  {
    if s == [] then 0 else 10 * DigitsValue(s[..|s| - 1]) + DigitValue(s[|s| - 1])
  }

  /** Decimal rendering of a natural number, as template literals render numbers. */
  function NatToString(n: nat): (s: string)
    ensures |s| > 0 && AllDigits(s)
  {
    if n < 10 then [DigitChar(n)] else NatToString(n / 10) + [DigitChar(n % 10)]
  }

  function IntToString(i: int): string {
    if i < 0 then "-" + NatToString(-i) else NatToString(i)
  }

  /** A positive number is rendered without a leading zero. */
  lemma {:induction false} NatToStringLeadingDigit(n: nat)
    requires n > 0
    ensures NatToString(n)[0] != '0'
  {
    if n >= 10 {
      NatToStringLeadingDigit(n / 10);
    }
  }

  lemma {:induction false} DigitsValueOfNatToString(n: nat)
    ensures DigitsValue(NatToString(n)) == n
  {
    if n >= 10 {
      DigitsValueOfNatToString(n / 10);
      var s := NatToString(n);
      assert s[..|s| - 1] == NatToString(n / 10);
    }
  }

  /** `trimStart`. */
  function TrimStart(s: string): (r: string)
    ensures |r| <= |s| && r == s[|s| - |r|..]
    ensures r != [] ==> !IsSpace(r[0])
  {
    if s != [] && IsSpace(s[0]) then TrimStart(s[1..]) else s
  }

  /** `trimEnd`. */
  function TrimEnd(s: string): (r: string)
    ensures |r| <= |s| && r == s[..|r|]
    ensures r != [] ==> !IsSpace(r[|r| - 1])
  {
    if s != [] && IsSpace(s[|s| - 1]) then TrimEnd(s[..|s| - 1]) else s
  }

  /** `trim`: strips white space and line terminators at both ends. */
  function Trim(s: string): string {
    TrimEnd(TrimStart(s))
  }

  /** The number that the run of digits at the start of `s` denotes (0 for no digits). */
  function LeadingNumber(s: string): nat {
    DigitRunDigits(s);
    DigitsValue(s[..DigitRun(s)])
  }

  /**
   * `parseInt(s, 10)`: leading white space, an optional sign, then the longest run of digits;
   * None stands for NaN (no digit where one is needed).
   */
  function ParseInt(s: string): Option<int> {
    var t := TrimStart(s);
    var signed := t != [] && (t[0] == '-' || t[0] == '+');
    var u := if signed then t[1..] else t;
    if DigitRun(u) == 0 then None
    else if signed && t[0] == '-' then Some(-(LeadingNumber(u) as int))
    else Some(LeadingNumber(u))
  }

  /** A lone digit at the front reads as that digit. */
  lemma LeadingNumberOneDigit(s: string)
    requires s != [] && IsDigit(s[0]) && (|s| > 1 ==> !IsDigit(s[1]))
    ensures LeadingNumber(s) == DigitValue(s[0])
  {
    DigitRunAt(s, 1);
    assert s[..1] == [s[0]];
    assert [s[0]][..0] == [];
    assert DigitsValue([s[0]]) == 10 * DigitsValue([]) + DigitValue(s[0]);
  }

  /** `parseInt` of text that starts with a digit reads the leading digit run. */
  lemma ParseIntOfDigitStart(s: string)
    requires s != [] && IsDigit(s[0])
    ensures ParseInt(s).Some? && ParseInt(s).value == LeadingNumber(s) as int
  {
    assert !IsSpace(s[0]);
    assert TrimStart(s) == s;
  }

  /** A rendered natural number is read back, whatever non-digit text follows it. */
  lemma LeadingNumberOfNatToString(n: nat, rest: string)
    requires rest == [] || !IsDigit(rest[0])
    ensures LeadingNumber(NatToString(n) + rest) == n
  {
    var d := NatToString(n);
    var s := d + rest;
    DigitRunOfPrefix(d, rest);
    assert s[..|d|] == d;
    DigitsValueOfNatToString(n);
  }

  /** `parseInt` reads back a rendered natural number, whatever non-digit text follows it. */
  lemma ParseIntOfNatToString(n: nat, rest: string)
    requires rest == [] || !IsDigit(rest[0])
    ensures ParseInt(NatToString(n) + rest) == Some(n)
  {
    var d := NatToString(n);
    assert (d + rest)[0] == d[0];
    ParseIntOfDigitStart(d + rest);
    LeadingNumberOfNatToString(n, rest);
  }

  predicate IsHexDigit(c: char) { IsDigit(c) || 'a' <= c <= 'f' || 'A' <= c <= 'F' }

  predicate AllHexDigits(s: string) {
    forall i :: 0 <= i < |s| ==> IsHexDigit(s[i])
  }

  function HexDigitValue(c: char): (v: nat)
    requires IsHexDigit(c)
    ensures v < 16
  {
    if IsDigit(c) then DigitValue(c)
    else if 'a' <= c <= 'f' then c as int - 'a' as int + 10
    else c as int - 'A' as int + 10
  }

  /** Length of the longest run of hexadecimal digits at the start of `s`. */
  function HexRun(s: string): (n: nat)
    ensures n <= |s|
    ensures n < |s| ==> !IsHexDigit(s[n])
  {
    if s != [] && IsHexDigit(s[0]) then 1 + HexRun(s[1..]) else 0
  }

  lemma {:induction false} HexRunDigits(s: string)
    ensures AllHexDigits(s[..HexRun(s)])
  {
    if s != [] && IsHexDigit(s[0]) {
      HexRunDigits(s[1..]);
      assert s[..HexRun(s)] == [s[0]] + s[1..][..HexRun(s[1..])];
    }
  }

  /** The number that a string of hexadecimal digits denotes, most significant digit first. */
  function HexValue(s: string): nat
    requires AllHexDigits(s)
  {
    if s == [] then 0 else 16 * HexValue(s[..|s| - 1]) + HexDigitValue(s[|s| - 1])
  }

  /** The number that the run of hexadecimal digits at the start of `s` denotes (0 for none). */
  function LeadingHex(s: string): nat {
    HexRunDigits(s);
    HexValue(s[..HexRun(s)])
  }

  /** The prefix "0x" or "0X", which `parseInt` without a radix reads as base 16. */
  predicate HexPrefixed(u: string) {
    |u| >= 2 && u[0] == '0' && (u[1] == 'x' || u[1] == 'X')
  }

  /**
   * `parseInt(s)` without a radix: leading white space and an optional sign as for
   * `parseInt(s, 10)`, then the digits after a "0x" or "0X" prefix are read in base 16 and any
   * other text is read in base 10. None stands for NaN.
   */
  function ParseIntAnyRadix(s: string): Option<int> {
    var t := TrimStart(s);
    var signed := t != [] && (t[0] == '-' || t[0] == '+');
    var u := if signed then t[1..] else t;
    if !HexPrefixed(u) then ParseInt(s)
    else if HexRun(u[2..]) == 0 then None
    else if signed && t[0] == '-' then Some(-(LeadingHex(u[2..]) as int))
    else Some(LeadingHex(u[2..]))
  }

  /**
   * Without a radix, a rendered natural number is read back in base 10, whatever non-digit text
   * follows it, unless the number is 0 and an "x" or "X" follows.
   */
  lemma ParseIntAnyRadixOfNatToString(n: nat, rest: string)
    requires rest == [] || !IsDigit(rest[0])
    requires n == 0 ==> rest == [] || (rest[0] != 'x' && rest[0] != 'X')
    ensures ParseIntAnyRadix(NatToString(n) + rest) == Some(n)
  {
    var d := NatToString(n);
    var s := d + rest;
    assert s[0] == d[0] && !IsSpace(s[0]);
    assert TrimStart(s) == s;
    if n > 0 {
      NatToStringLeadingDigit(n);
    } else {
      assert d == "0";
      assert rest != [] ==> s[1] == rest[0];
    }
    assert !HexPrefixed(s);
    ParseIntOfNatToString(n, rest);
  }

  /** Without a radix, "0x" and a run of hexadecimal digits read as that run in base 16. */
  lemma ParseIntAnyRadixHex(digits: string, rest: string)
    requires digits != [] && AllHexDigits(digits)
    requires rest == [] || !IsHexDigit(rest[0])
    ensures ParseIntAnyRadix("0x" + digits + rest) == Some(HexValue(digits))
  {
    var s := "0x" + digits + rest;
    assert s[0] == '0' && !IsSpace(s[0]);
    assert TrimStart(s) == s;
    var u := s[2..];
    assert u == digits + rest;
    HexRunAt(u, |digits|);
    assert u[..|digits|] == digits;
  }

  /**
   * Text that starts with "0x" and a hexadecimal digit reads in base 16 without a radix, and as 0
   * with radix 10, where the "x" ends the digits.
   */
  lemma ParseIntRadixDiffers(t: string)
    requires HexPrefixed(t) && HexRun(t[2..]) > 0
    ensures ParseIntAnyRadix(t) == Some(LeadingHex(t[2..]))
    ensures ParseInt(t) == Some(0)
  {
    assert !IsSpace(t[0]) && TrimStart(t) == t;
    DigitRunAt(t, 1);
    assert t[..1] == [t[0]] && [t[0]][..0] == [];
    assert LeadingNumber(t) == DigitsValue([t[0]]) == 10 * DigitsValue([]) + DigitValue('0');
  }

  lemma {:induction false} HexRunAt(s: string, n: nat)
    requires n <= |s| && AllHexDigits(s[..n]) && (n < |s| ==> !IsHexDigit(s[n]))
    ensures HexRun(s) == n
    decreases n
  {
    if n > 0 {
      assert IsHexDigit(s[..n][0]);
      assert s[1..][..n - 1] == s[..n][1..];
      HexRunAt(s[1..], n - 1);
    }
  }

  /** Leading zeros do not change the value of a digit string. */
  lemma {:induction false} DigitsValueLeadingZero(d: string)
    requires AllDigits(d)
    ensures AllDigits("0" + d) && DigitsValue("0" + d) == DigitsValue(d)
    decreases |d|
  {
    if d != [] {
      var z := "0" + d;
      assert z[..|z| - 1] == "0" + d[..|d| - 1];
      assert z[|z| - 1] == d[|d| - 1];
      DigitsValueLeadingZero(d[..|d| - 1]);
    }
  }

  predicate NoDigits(s: string) {
    forall i :: 0 <= i < |s| ==> !IsDigit(s[i])
  }

  lemma {:induction false} DigitRunOfPrefix(d: string, rest: string)
    requires AllDigits(d)
    requires rest == [] || !IsDigit(rest[0])
    ensures DigitRun(d + rest) == |d|
  {
    if d != [] {
      assert (d + rest)[1..] == d[1..] + rest;
      DigitRunOfPrefix(d[1..], rest);
    } else {
      assert d + rest == rest;
    }
  }

  /** Splitting a slice after its first element. */
  lemma SliceAfterFirst<T>(s: seq<T>, k: nat)
    requires 0 < k <= |s|
    ensures s[..k] == [s[0]] + s[1..][..k - 1] && s[1..][k - 1..] == s[k..]
  {
  }

  lemma ConsAssoc<T>(x: T, a: seq<T>, b: seq<T>)
    ensures [x] + (a + b) == ([x] + a) + b
  {
  }

  lemma Assoc<T>(a: seq<T>, b: seq<T>, c: seq<T>)
    ensures a + (b + c) == (a + b) + c
  {
  }

  /** `Array.prototype.join`. */
  function Join(xs: seq<string>, sep: string): string {
    if |xs| == 0 then ""
    else if |xs| == 1 then xs[0]
    else Join(xs[..|xs| - 1], sep) + sep + xs[|xs| - 1]
  }

  lemma JoinAppend(xs: seq<string>, x: string, sep: string)
    requires xs != []
    ensures Join(xs + [x], sep) == Join(xs, sep) + sep + x
  {
    assert (xs + [x])[..|xs + [x]| - 1] == xs;
  }

  /** A join starts with its first element. */
  lemma {:induction false} JoinFirst(xs: seq<string>, sep: string)
    requires xs != []
    ensures xs[0] <= Join(xs, sep)
    decreases |xs|
  {
    if |xs| > 1 {
      var init := xs[..|xs| - 1];
      JoinFirst(init, sep);
      assert init[0] == xs[0];
      var j := Join(init, sep);
      assert Join(xs, sep) == j + (sep + xs[|xs| - 1]);
      assert Join(xs, sep)[..|j|] == j;
    }
  }

  /** A join ends with its last element. */
  lemma JoinLast(xs: seq<string>, sep: string)
    requires xs != []
    ensures EndsWith(Join(xs, sep), xs[|xs| - 1])
  {
    var x := xs[|xs| - 1];
    if |xs| > 1 {
      var j := Join(xs[..|xs| - 1], sep) + sep;
      assert Join(xs, sep) == j + x;
      assert (j + x)[|j + x| - |x|..] == x;
    }
  }

  /** Index of the first `c` in `s`, or `|s|` when there is none. */
  function IndexOf(s: string, c: char): (i: nat)
    ensures i <= |s|
    ensures i < |s| ==> s[i] == c
  {
    if s == [] then 0
    else if s[0] == c then 0
    else 1 + IndexOf(s[1..], c)
  }

  lemma {:induction false} IndexOfBefore(s: string, c: char)
    ensures c !in s[..IndexOf(s, c)]
  {
    if s != [] && s[0] != c {
      IndexOfBefore(s[1..], c);
      assert s[..IndexOf(s, c)] == [s[0]] + s[1..][..IndexOf(s[1..], c)];
    }
  }

  /** The first `c` is at `n` when `s[..n]` has none and `s[n]` is one. */
  lemma {:induction false} IndexOfAt(s: string, c: char, n: nat)
    requires n <= |s| && c !in s[..n] && (n < |s| ==> s[n] == c)
    ensures IndexOf(s, c) == n
    decreases n
  {
    if n > 0 {
      assert s[0] == s[..n][0];
      assert s[1..][..n - 1] == s[..n][1..];
      IndexOfAt(s[1..], c, n - 1);
    }
  }

  /** The run of digits ends at `n` when `s[..n]` is all digits and `s[n]` is not one. */
  lemma {:induction false} DigitRunAt(s: string, n: nat)
    requires n <= |s| && AllDigits(s[..n]) && (n < |s| ==> !IsDigit(s[n]))
    ensures DigitRun(s) == n
    decreases n
  {
    if n > 0 {
      assert IsDigit(s[..n][0]);
      assert s[1..][..n - 1] == s[..n][1..];
      DigitRunAt(s[1..], n - 1);
    }
  }

  /** `split(c)` with a one-character separator: the pieces between occurrences of `c`. */
  function Split(s: string, c: char): (r: seq<string>)
    ensures |r| > 0
    decreases |s|
  {
    var i := IndexOf(s, c);
    if i == |s| then [s] else [s[..i]] + Split(s[i + 1..], c)
  }

  /** `s.includes(sub)` and an unanchored regular-expression search for a literal. */
  predicate Contains(s: string, sub: string) {
    sub <= s || (s != [] && Contains(s[1..], sub))
  }

  predicate EndsWith(s: string, suffix: string) {
    |suffix| <= |s| && s[|s| - |suffix|..] == suffix
  }

  /** Looks a key up in an object given as its key/value pairs in property order. */
  function Lookup<V>(fields: seq<(string, V)>, key: string): (r: Option<V>)
    ensures r.Some? <==> exists i :: 0 <= i < |fields| && fields[i].0 == key
  {
    if fields == [] then None
    else if fields[0].0 == key then Some(fields[0].1)
    else
      var r := Lookup(fields[1..], key);
      assert forall i :: 1 <= i < |fields| ==> fields[i] == fields[1..][i - 1];
      r
  }

  /** A key that no earlier property has is found, with its own value. */
  lemma {:induction false} LookupAt<V>(fields: seq<(string, V)>, i: nat)
    requires i < |fields| && forall j :: 0 <= j < i ==> fields[j].0 != fields[i].0
    ensures Lookup(fields, fields[i].0).Some? && Lookup(fields, fields[i].0).value == fields[i].1
    decreases i
  {
    if i > 0 {
      assert fields[0].0 != fields[i].0;
      assert fields[1..][i - 1] == fields[i];
      forall j | 0 <= j < i - 1 ensures fields[1..][j].0 != fields[i].0 {
        assert fields[1..][j] == fields[j + 1];
      }
      LookupAt(fields[1..], i - 1);
    }
  }
}
