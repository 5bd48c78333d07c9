/**
 * String helpers with the semantics of the JavaScript built-ins and of the `string.js` helpers the
 * repository uses: `String.prototype.split` on a one-character separator, `Array.prototype.join`,
 * the regular-expression classes `\d`, `\s`, `\w` and `.`, `parseInt`/`parseFloat` on digit strings,
 * number-to-string conversion and `ensureLeft`/`ensureRight`/`chompLeft`/`chompRight`.
 */
module Text {
  import opened Wrappers

  // ---------------------------------------------------------------------------------------------
  // Character classes of JavaScript regular expressions

  /** `\d` */
  predicate IsDigit(c: char) { '0' <= c <= '9' }

  predicate IsUpper(c: char) { 'A' <= c <= 'Z' }

  predicate IsLower(c: char) { 'a' <= c <= 'z' }

  /** `\w` */
  predicate IsWordChar(c: char) { IsDigit(c) || IsUpper(c) || IsLower(c) || c == '_' }

  /** `\s`: the ECMAScript white-space and line-terminator characters. */
  predicate IsSpace(c: char) {
    c == '\t' || c == '\n' || c == '\U{B}' || c == '\U{C}' || c == '\r' || c == ' ' ||
    c == '\U{A0}' || c == '\U{1680}' || ('\U{2000}' <= c <= '\U{200A}') ||
    c == '\U{2028}' || c == '\U{2029}' || c == '\U{202F}' || c == '\U{205F}' ||
    c == '\U{3000}' || c == '\U{FEFF}'
  }

  /** The characters that `.` does not match. */
  predicate IsLineTerminator(c: char) {
    c == '\n' || c == '\r' || c == '\U{2028}' || c == '\U{2029}'
  }

  predicate AllDigits(s: string) { forall i :: 0 <= i < |s| ==> IsDigit(s[i]) }

  /** `^\d+$` */
  predicate IsDigits(s: string) { |s| > 0 && AllDigits(s) }

  lemma AllDigitsConcat(a: string, b: string)
    ensures AllDigits(a + b) <==> AllDigits(a) && AllDigits(b)
  {
    if AllDigits(a) && AllDigits(b) {
      forall i | 0 <= i < |a + b| ensures IsDigit((a + b)[i]) {
        if i >= |a| { assert (a + b)[i] == b[i - |a|]; }
      }
    }
    if AllDigits(a + b) {
      forall i | 0 <= i < |a| ensures IsDigit(a[i]) { assert a[i] == (a + b)[i]; }
      forall i | 0 <= i < |b| ensures IsDigit(b[i]) { assert b[i] == (a + b)[|a| + i]; }
    }
  }

  predicate AllWordChars(s: string) { forall i :: 0 <= i < |s| ==> IsWordChar(s[i]) }

  // ---------------------------------------------------------------------------------------------
  // Numbers written in decimal

  function DigitValue(c: char): nat
    requires IsDigit(c)
  {
    c as int - '0' as int
  }

  /** The number a string of decimal digits denotes (`parseInt(s, 10)` on such a string). */
  function DigitsValue(s: string): nat
    requires AllDigits(s)
    decreases |s|
  {
    if s == [] then 0 else 10 * DigitsValue(s[..|s| - 1]) + DigitValue(s[|s| - 1])
  }

  function Pow10(n: nat): (r: nat)
    ensures r >= 1
  {
    if n == 0 then 1 else 10 * Pow10(n - 1)
  }

  function Pow2(n: nat): (r: nat)
    ensures r >= 1
  {
    if n == 0 then 1 else 2 * Pow2(n - 1)
  }

  /** Powers of two multiply by adding exponents. */
  lemma {:induction false} Pow2Add(a: nat, b: nat)
    ensures Pow2(a + b) == Pow2(a) * Pow2(b)
    decreases b
  {
    if b > 0 {
      Pow2Add(a, b - 1);
      assert Pow2(a + b) == 2 * Pow2(a + b - 1);
    }
  }

  /** Ten more doublings multiply by 1024. */
  lemma Pow2Ten(n: nat)
    ensures Pow2(n + 10) == 1024 * Pow2(n)
  {
    Pow2Add(n, 10);
    assert Pow2(10) == 1024;
  }

  /** The value of the decimal numeral `whole.fraction`. */
  function DecimalOf(whole: string, fraction: string): real
    requires AllDigits(whole) && AllDigits(fraction)
  {
    DigitsValue(whole) as real + DigitsValue(fraction) as real / Pow10(|fraction|) as real
  }

  /** Length of the run of digits at the start of `s`. */
  function LeadingDigits(s: string): (n: nat)
    ensures n <= |s| && AllDigits(s[..n])
    ensures n < |s| ==> !IsDigit(s[n])
  {
    if s == [] || !IsDigit(s[0]) then 0
    else
      var n := 1 + LeadingDigits(s[1..]);
      assert s[..n] == [s[0]] + s[1..][..n - 1];
      n
  }

  /** Length of the run of `\s` characters at the start of `s`. */
  function LeadingSpaces(s: string): (n: nat)
    ensures n <= |s|
  {
    if s == [] || !IsSpace(s[0]) then 0 else 1 + LeadingSpaces(s[1..])
  }

  /** The leading run holds only white space, and the character after it, if any, is not white space. */
  lemma {:induction false} LeadingSpacesShape(s: string)
    ensures forall i :: 0 <= i < LeadingSpaces(s) ==> IsSpace(s[i])
    ensures LeadingSpaces(s) < |s| ==> !IsSpace(s[LeadingSpaces(s)])
    decreases |s|
  {
    if s != [] && IsSpace(s[0]) {
      LeadingSpacesShape(s[1..]);
      assert forall i :: 1 <= i < |s| ==> s[i] == s[1..][i - 1];
    }
  }

  /** `^\d+(\.\d+)?$` */
  predicate IsDecimal(s: string) {
    var w := LeadingDigits(s);
    w > 0 && (w == |s| || (s[w] == '.' && IsDigits(s[w + 1..])))
  }

  /**
   * `parseFloat(s)` for strings that start with a digit: the longest prefix of the form
   * `\d+(\.\d*)?` read as a decimal. `None` stands for `NaN`.
   */
  function ParseFloat(s: string): (r: Option<real>)
    ensures r.Some? <==> LeadingDigits(s) > 0
  {
    var w := LeadingDigits(s);
    if w == 0 then None
    else if w < |s| && s[w] == '.' then
      var rest := s[w + 1..];
      Some(DecimalOf(s[..w], rest[..LeadingDigits(rest)]))
    else Some(DigitsValue(s[..w]) as real)
  }

  /** `parseInt(s, 10)` for strings that start with a digit; `None` stands for `NaN`. */
  function ParseInt(s: string): (r: Option<nat>)
    ensures r.Some? <==> LeadingDigits(s) > 0
  {
    var w := LeadingDigits(s);
    if w == 0 then None else Some(DigitsValue(s[..w]))
  }

  /** `Math.round`: halves are rounded towards positive infinity. */
  function Round(x: real): (r: int)
    ensures r as real - 0.5 <= x < r as real + 0.5
  {
    (x + 0.5).Floor
  }

  /** `String(n)` for a non-negative integer. */
  function NatToString(n: nat): (s: string)
    ensures IsDigits(s)
  {
    if n < 10 then ['0' + n as char]
    else NatToString(n / 10) + ['0' + (n % 10) as char]
  }

  /** `String(i)` for an integer. */
  function IntToString(i: int): string {
    if i < 0 then "-" + NatToString(-i) else NatToString(i)
  }

  lemma {:induction false} NatToStringValue(n: nat)
    ensures DigitsValue(NatToString(n)) == n
  {
    if n >= 10 {
      var s := NatToString(n);
      var p := NatToString(n / 10);
      assert s[..|s| - 1] == p;
      NatToStringValue(n / 10);
    }
  }

  /** The digits of `a` followed by those of `b` denote `a`'s value shifted by `|b|` places, plus `b`'s. */
  lemma {:induction false} DigitsValueConcat(a: string, b: string)
    requires AllDigits(a) && AllDigits(b)
    ensures AllDigits(a + b)
    ensures DigitsValue(a + b) == DigitsValue(a) * Pow10(|b|) + DigitsValue(b)
    decreases |b|
  {
    AllDigitsConcat(a, b);
    if b == [] {
      assert a + b == a;
    } else {
      var ab := a + b;
      var init := b[..|b| - 1];
      var d := DigitValue(b[|b| - 1]);
      assert ab[..|ab| - 1] == a + init && ab[|ab| - 1] == b[|b| - 1];
      DigitsValueConcat(a, init);
      var va, vi, p := DigitsValue(a), DigitsValue(init), Pow10(|init|);
      var vai := DigitsValue(a + init);
      assert DigitsValue(ab) == 10 * vai + d;
      assert DigitsValue(b) == 10 * vi + d;
      assert Pow10(|b|) == 10 * p;
      ShiftStep(va, p, vi, d, vai);
    }
  }

  lemma ShiftStep(va: nat, p: nat, vi: nat, d: nat, vai: nat)
    requires vai == va * p + vi
    ensures 10 * vai + d == va * (10 * p) + (10 * vi + d)
  {
  }

  /** On an all-digit string `parseInt` reads the whole string. */
  lemma {:induction false} ParseIntDigits(s: string)
    requires IsDigits(s)
    ensures ParseInt(s) == Some(DigitsValue(s))
  {
    assert s[..LeadingDigits(s)] == s by { LeadingDigitsAll(s); }
  }

  lemma {:induction false} LeadingDigitsAll(s: string)
    requires AllDigits(s)
    ensures LeadingDigits(s) == |s|
  {
    if s != [] { LeadingDigitsAll(s[1..]); }
  }

  lemma ParseFloatDigits(s: string)
    requires IsDigits(s)
    ensures ParseFloat(s) == Some(DigitsValue(s) as real)
  {
    LeadingDigitsAll(s);
    assert s[..|s|] == s;
  }

  /** On `^\d+(\.\d+)?$`, `parseFloat` reads the whole string. */
  lemma ParseFloatDecimal(whole: string, fraction: string)
    requires IsDigits(whole) && (fraction == [] || IsDigits(fraction))
    ensures IsDecimal(if fraction == [] then whole else whole + "." + fraction)
    ensures ParseFloat(if fraction == [] then whole else whole + "." + fraction)
         == Some(if fraction == [] then DigitsValue(whole) as real else DecimalOf(whole, fraction))
  {
    if fraction == [] {
      LeadingDigitsAll(whole);
      assert whole[..|whole|] == whole;
    } else {
      var s := whole + "." + fraction;
      LeadingDigitsPrefix(whole, "." + fraction);
      assert s[..|whole|] == whole;
      assert s[|whole|] == '.';
      assert s[|whole| + 1..] == fraction;
      LeadingDigitsAll(fraction);
      assert fraction[..|fraction|] == fraction;
      assert ParseFloat(s) == Some(DecimalOf(whole, fraction));
    }
  }

  /** The digit run of `a + b` is that of `a` when `a` is all digits and `b` starts with a non-digit. */
  lemma {:induction false} LeadingDigitsPrefix(a: string, b: string)
    requires AllDigits(a)
    requires b != [] && !IsDigit(b[0])
    ensures LeadingDigits(a + b) == |a|
  {
    if a != [] {
      assert (a + b)[1..] == a[1..] + b;
      LeadingDigitsPrefix(a[1..], b);
    } else {
      assert a + b == b;
    }
  }

  // ---------------------------------------------------------------------------------------------
  // split / join

  /** `s.split(c)` for a one-character separator: always at least one part, separators dropped. */
  function Split(s: string, c: char): (parts: seq<string>)
    ensures |parts| >= 1
    decreases |s|
  {
    if s == [] then [""]
    else
      var rest := Split(s[1..], c);
      if s[0] == c then [""] + rest else [[s[0]] + rest[0]] + rest[1..]
  }

  /** `parts.join(sep)`. */
  function Join(parts: seq<string>, sep: string): string
    decreases |parts|
  {
    if |parts| == 0 then ""
    else if |parts| == 1 then parts[0]
    else parts[0] + sep + Join(parts[1..], sep)
  }

  /** Joining one more part appends the separator and the part. */
  lemma {:induction false} JoinSnoc(parts: seq<string>, part: string, sep: string)
    requires parts != []
    ensures Join(parts + [part], sep) == Join(parts, sep) + sep + part
    decreases |parts|
  {
    if |parts| > 1 {
      assert (parts + [part])[1..] == parts[1..] + [part];
      JoinSnoc(parts[1..], part, sep);
    }
  }

  /** No part of a split contains the separator. */
  lemma {:induction false} SplitParts(s: string, c: char)
    ensures forall i :: 0 <= i < |Split(s, c)| ==> c !in Split(s, c)[i]
  {
    if s != [] {
      SplitParts(s[1..], c);
    }
  }

  /** Joining the parts with the separator gives the string back. */
  lemma {:induction false} JoinSplit(s: string, c: char)
    ensures Join(Split(s, c), [c]) == s
  {
    if s != [] {
      var rest := Split(s[1..], c);
      JoinSplit(s[1..], c);
      if s[0] == c {
        assert ([""] + rest)[1..] == rest;
      } else if |rest| > 1 {
        var parts := [[s[0]] + rest[0]] + rest[1..];
        assert parts[1..] == rest[1..];
        assert Join(rest, [c]) == rest[0] + [c] + Join(rest[1..], [c]);
      }
    }
  }

  /** The first part of a split is the text before the first separator. */
  lemma {:induction false} SplitHead(s: string, c: char)
    ensures Split(s, c)[0] <= s
    ensures |Split(s, c)[0]| < |s| ==> s[|Split(s, c)[0]|] == c
  {
    if s != [] && s[0] != c {
      SplitHead(s[1..], c);
    }
  }

  lemma {:induction false} SplitNoSeparator(a: string, c: char)
    requires c !in a
    ensures Split(a, c) == [a]
  {
    if a != [] {
      SplitNoSeparator(a[1..], c);
      assert [a[0]] + a[1..] == a;
    }
  }

  lemma {:induction false} SplitAtSeparator(a: string, c: char, r: string)
    requires c !in a
    ensures Split(a + [c] + r, c) == [a] + Split(r, c)
  {
    var s := a + [c] + r;
    if a == [] {
      assert s[1..] == r;
    } else {
      assert s[1..] == a[1..] + [c] + r;
      SplitAtSeparator(a[1..], c, r);
      assert [a[0]] + a[1..] == a;
    }
  }

  /** Splitting a join of separator-free parts gives the parts back. */
  lemma {:induction false} SplitJoin(parts: seq<string>, c: char)
    requires |parts| >= 1
    requires forall i :: 0 <= i < |parts| ==> c !in parts[i]
    ensures Split(Join(parts, [c]), c) == parts
  {
    if |parts| == 1 {
      SplitNoSeparator(parts[0], c);
    } else {
      SplitJoin(parts[1..], c);
      SplitAtSeparator(parts[0], c, Join(parts[1..], [c]));
      assert parts[0] + [c] + Join(parts[1..], [c]) == Join(parts, [c]);
      assert [parts[0]] + parts[1..] == parts;
    }
  }

  /** The concatenation of all-digit strings is all digits. */
  lemma {:induction false} JoinDigits(parts: seq<string>)
    requires forall i :: 0 <= i < |parts| ==> AllDigits(parts[i])
    ensures AllDigits(Join(parts, ""))
  {
    if |parts| > 1 {
      JoinDigits(parts[1..]);
    }
  }

  // ---------------------------------------------------------------------------------------------
  // replace and the string.js helpers

  /** `s.replace(/c/g, '')` for one literal character. */
  function RemoveChar(s: string, c: char): (r: string)
    ensures c !in r
    ensures c !in s ==> r == s
  {
    if s == [] then []
    else (if s[0] == c then [] else [s[0]]) + RemoveChar(s[1..], c)
  }

  /** `s.replace(/\s/g, '')`. */
  function RemoveSpaces(s: string): (r: string)
    ensures forall i :: 0 <= i < |r| ==> !IsSpace(r[i])
  {
    if s == [] then []
    else (if IsSpace(s[0]) then [] else [s[0]]) + RemoveSpaces(s[1..])
  }

  lemma {:induction false} RemoveSpacesConcat(a: string, b: string)
    ensures RemoveSpaces(a + b) == RemoveSpaces(a) + RemoveSpaces(b)
  {
    if a != [] {
      assert (a + b)[1..] == a[1..] + b;
      RemoveSpacesConcat(a[1..], b);
    } else {
      assert a + b == b;
    }
  }

  lemma {:induction false} RemoveSpacesDigits(d: string)
    requires AllDigits(d)
    ensures RemoveSpaces(d) == d
  {
    if d != [] { RemoveSpacesDigits(d[1..]); }
  }

  /** String concatenation regroups freely. */
  lemma ConcatAssoc(a: string, b: string, c: string)
    ensures a + (b + c) == a + b + c
  {
  }

  /** `/^\.{1,2}$/.test(name)`: the entries `.` and `..`. */
  predicate IsDots(name: string) {
    name == "." || name == ".."
  }

  /** The last element of a non-empty sequence (`parts[parts.length - 1]`, lodash `_.last`). */
  function Last<T>(xs: seq<T>): T
    requires |xs| > 0
  {
    xs[|xs| - 1]
  }

  predicate EndsWith(s: string, suffix: string) {
    |suffix| <= |s| && s[|s| - |suffix|..] == suffix
  }

  /** `S(s).ensureLeft(prefix).s` */
  function EnsureLeft(s: string, prefix: string): (r: string)
    ensures prefix <= r
    ensures prefix <= s ==> r == s
  {
    if prefix <= s then s else prefix + s
  }

  /** `S(s).ensureRight(suffix).s` */
  function EnsureRight(s: string, suffix: string): (r: string)
    ensures EndsWith(r, suffix)
    ensures EndsWith(s, suffix) ==> r == s
  {
    if EndsWith(s, suffix) then s else s + suffix
  }

  /** `S(s).chompLeft(prefix).s` */
  function ChompLeft(s: string, prefix: string): (r: string)
    ensures prefix <= s ==> prefix + r == s
    ensures !(prefix <= s) ==> r == s
  {
    if prefix <= s then s[|prefix|..] else s
  }

  /** `S(s).chompRight(suffix).s` */
  function ChompRight(s: string, suffix: string): (r: string)
    ensures EndsWith(s, suffix) ==> r + suffix == s
    ensures !EndsWith(s, suffix) ==> r == s
  {
    if EndsWith(s, suffix) then s[..|s| - |suffix|] else s
  }
}
