/**
 * The regular expressions both normaliser revisions test their inputs against, written as
 * predicates and match functions over strings.
 */
module Patterns {
  import opened Wrappers
  import opened Text

  // ---------------------------------------------------------------------------------------------
  // Decimal numbers

  /** `\.\d+` */
  predicate IsFraction(t: string) {
    |t| >= 2 && t[0] == '.' && IsDigits(t[1..])
  }

  /** `(\s\d{3})*(\.\d+)?` up to the end of the string. */
  predicate SpacedGroupsThenFraction(t: string)
    decreases |t|
  {
    t == [] || IsFraction(t) ||
    (|t| >= 4 && IsSpace(t[0]) && AllDigits(t[1..4]) && SpacedGroupsThenFraction(t[4..]))
  }

  /**
   * `^\d+(\s\d{3})*(\.\d+)?$`, the bit-rate value pattern. `\d+` has to take the whole leading
   * run of digits, since what may follow it starts with white space or a point.
   */
  predicate IsGroupedDecimal(s: string) {
    var w := LeadingDigits(s);
    w > 0 && SpacedGroupsThenFraction(s[w..])
  }

  /** `^\d+\.\d+$` */
  predicate IsFixedPoint(n: string) {
    var w := LeadingDigits(n);
    w > 0 && IsFraction(n[w..])
  }

  /** A plain run of digits, with or without a fraction, is a bit-rate value. */
  lemma GroupedDecimalOfDecimal(s: string)
    requires IsDecimal(s)
    ensures IsGroupedDecimal(s)
  {
  }

  // ---------------------------------------------------------------------------------------------
  // Integers with thousands groups

  /** `(?:\s\d{3})*` (`(?:\d{3})*` when not `separated`) up to the end of the string. */
  predicate DigitGroups(t: string, separated: bool)
    decreases |t|
  {
    t == [] ||
    if separated then |t| >= 4 && IsSpace(t[0]) && AllDigits(t[1..4]) && DigitGroups(t[4..], separated)
    else |t| >= 3 && AllDigits(t[..3]) && DigitGroups(t[3..], separated)
  }

  /** `\d{1,3}(?:\s\d{3})*`, or `\d{1,3}(?:\d{3})*` when not `separated`. */
  predicate IsGroupedInt(n: string, separated: bool) {
    (|n| >= 1 && AllDigits(n[..1]) && DigitGroups(n[1..], separated)) ||
    (|n| >= 2 && AllDigits(n[..2]) && DigitGroups(n[2..], separated)) ||
    (|n| >= 3 && AllDigits(n[..3]) && DigitGroups(n[3..], separated))
  }

  lemma {:induction false} UnseparatedGroupsAreDigits(t: string)
    requires DigitGroups(t, false)
    ensures AllDigits(t) && |t| % 3 == 0
  {
    if t != [] {
      UnseparatedGroupsAreDigits(t[3..]);
      AllDigitsConcat(t[..3], t[3..]);
      assert t == t[..3] + t[3..];
    }
  }

  lemma {:induction false} DigitsAreGroups(t: string)
    requires AllDigits(t) && |t| % 3 == 0
    ensures DigitGroups(t, false)
  {
    if t != [] {
      assert t == t[..3] + t[3..];
      AllDigitsConcat(t[..3], t[3..]);
      DigitsAreGroups(t[3..]);
    }
  }

  /** Without a separator the pattern `\d{1,3}(?:\d{3})*` is just `\d+`. */
  lemma GroupedIntUnseparated(n: string)
    ensures IsGroupedInt(n, false) <==> IsDigits(n)
  {
    if IsGroupedInt(n, false) {
      var k :| 1 <= k <= 3 && k <= |n| && AllDigits(n[..k]) && DigitGroups(n[k..], false);
      UnseparatedGroupsAreDigits(n[k..]);
      AllDigitsConcat(n[..k], n[k..]);
      assert n == n[..k] + n[k..];
    }
    if IsDigits(n) {
      var k := (|n| - 1) % 3 + 1;
      assert n == n[..k] + n[k..];
      AllDigitsConcat(n[..k], n[k..]);
      DigitsAreGroups(n[k..]);
    }
  }

  /**
   * A plain digit string matches the number part without a separator, but with one only when it
   * has at most three digits: every further group must then be led by white space.
   */
  lemma DigitsAreGroupedInt(n: string, separated: bool)
    requires IsDigits(n)
    ensures IsGroupedInt(n, separated) <==> !separated || |n| <= 3
  {
    GroupedIntUnseparated(n);
    if separated {
      if |n| <= 3 {
        assert n[..|n|] == n && n[|n|..] == [];
      } else {
        forall k | 1 <= k <= 3 ensures !DigitGroups(n[k..], true) {
          assert n[k..][0] == n[k];
        }
      }
    }
  }

  lemma {:induction false} GroupsWithoutSpaces(t: string, separated: bool)
    requires DigitGroups(t, separated)
    ensures AllDigits(RemoveSpaces(t))
  {
    if t != [] {
      if !separated {
        assert t == t[..3] + t[3..];
        RemoveSpacesConcat(t[..3], t[3..]);
        RemoveSpacesDigits(t[..3]);
        GroupsWithoutSpaces(t[3..], separated);
        AllDigitsConcat(t[..3], RemoveSpaces(t[3..]));
      } else {
        assert t == t[..1] + t[1..4] + t[4..];
        RemoveSpacesConcat(t[..1] + t[1..4], t[4..]);
        RemoveSpacesConcat(t[..1], t[1..4]);
        assert RemoveSpaces(t[..1]) == [];
        RemoveSpacesDigits(t[1..4]);
        GroupsWithoutSpaces(t[4..], separated);
        AllDigitsConcat(t[1..4], RemoveSpaces(t[4..]));
      }
    }
  }

  /** Once its separators are removed, a matched number part is a plain digit string. */
  lemma GroupedIntWithoutSpaces(n: string, separated: bool)
    requires IsGroupedInt(n, separated)
    ensures IsDigits(RemoveSpaces(n))
  {
    var k :| 1 <= k <= 3 && k <= |n| && AllDigits(n[..k]) && DigitGroups(n[k..], separated);
    assert n == n[..k] + n[k..];
    RemoveSpacesConcat(n[..k], n[k..]);
    RemoveSpacesDigits(n[..k]);
    GroupsWithoutSpaces(n[k..], separated);
    AllDigitsConcat(n[..k], RemoveSpaces(n[k..]));
  }

  // ---------------------------------------------------------------------------------------------
  // `^(<number>) <unit>$`

  /**
   * The number part of `^(\d{1,3}(?:\s\d{3})*) <unit>$`, trying the spellings of the unit in
   * order (`channels?` is the pair "channels", "channel").
   */
  function MatchIntUnit(s: string, units: seq<string>, separated: bool): (r: Option<string>)
    ensures r.Some? ==> IsGroupedInt(r.value, separated)
    ensures r.Some? ==> exists j :: 0 <= j < |units| && r.value + " " + units[j] == s
    ensures r.None? ==> forall j :: 0 <= j < |units| && EndsWith(s, " " + units[j])
                          ==> !IsGroupedInt(s[..|s| - |units[j]| - 1], separated)
  {
    if units == [] then None
    else
      var u := " " + units[0];
      if EndsWith(s, u) && IsGroupedInt(s[..|s| - |u|], separated) then
        assert s[..|s| - |u|] + u == s;
        Some(s[..|s| - |u|])
      else
        var r := MatchIntUnit(s, units[1..], separated);
        assert forall j :: 1 <= j < |units| ==> units[j] == units[1..][j - 1];
        if r.None? then NoSpellingMatches(s, units, separated); r else r
  }

  /** If neither the first spelling nor any later one matches, no spelling matches. */
  lemma NoSpellingMatches(s: string, units: seq<string>, separated: bool)
    requires units != []
    requires EndsWith(s, " " + units[0]) ==> !IsGroupedInt(s[..|s| - |" " + units[0]|], separated)
    requires forall j :: 0 <= j < |units[1..]| && EndsWith(s, " " + units[1..][j])
               ==> !IsGroupedInt(s[..|s| - |units[1..][j]| - 1], separated)
    ensures forall j :: 0 <= j < |units| && EndsWith(s, " " + units[j])
              ==> !IsGroupedInt(s[..|s| - |units[j]| - 1], separated)
  {
    forall j | 0 <= j < |units| && EndsWith(s, " " + units[j])
      ensures !IsGroupedInt(s[..|s| - |units[j]| - 1], separated)
    {
      if j > 0 {
        assert units[j] == units[1..][j - 1];
      }
    }
  }

  /** The number part of `^(\d+\.\d+) <unit>$`. */
  function MatchFloatUnit(s: string, unit: string): (r: Option<string>)
    ensures r.Some? <==> EndsWith(s, " " + unit) && IsFixedPoint(s[..|s| - |unit| - 1])
    ensures r.Some? ==> r.value + " " + unit == s
  {
    var u := " " + unit;
    if EndsWith(s, u) && IsFixedPoint(s[..|s| - |u|]) then
      assert s[..|s| - |u|] + u == s;
      Some(s[..|s| - |u|])
    else None
  }

  /** When no spelling of a unit holds a space, a string ends in at most one spelling. */
  lemma SuffixUnique(d: string, u: string, w: string)
    requires ' ' !in u && ' ' !in w
    requires EndsWith(d + " " + u, " " + w)
    ensures w == u
  {
    SuffixSpace(d, u, w);
    var s := d + " " + u;
    assert s[|d| + 1..] == u;
    assert s[|d| + 1..] == (" " + w)[1..];
  }

  /** A space-led suffix shorter than the unit puts a space in the unit; a longer one puts a space in the suffix. */
  lemma SuffixSpace(d: string, u: string, w: string)
    requires EndsWith(d + " " + u, " " + w)
    ensures |w| < |u| ==> ' ' in u
    ensures |w| > |u| ==> ' ' in w
  {
    var s := d + " " + u;
    var start := |s| - |w| - 1;
    assert s[start..] == " " + w;
    if |w| < |u| {
      assert u[|u| - |w| - 1] == s[start] == ' ';
    } else if |w| > |u| {
      assert s[|d|] == ' ' && (" " + w)[|d| - start] == s[|d|];
      assert w[|d| - start - 1] == ' ';
    }
  }

  /** A number followed by a space and one spelling of the unit matches with that number. */
  lemma {:induction false} MatchIntUnitOf(d: string, units: seq<string>, separated: bool, u: string)
    requires IsGroupedInt(d, separated)
    requires u in units && forall j :: 0 <= j < |units| ==> ' ' !in units[j]
    ensures MatchIntUnit(d + " " + u, units, separated) == Some(d)
  {
    var s := d + " " + u;
    if units[0] == u {
      assert s[..|s| - |" " + u|] == d;
      assert s[|s| - |" " + u|..] == " " + u;
    } else {
      if EndsWith(s, " " + units[0]) {
        SuffixUnique(d, u, units[0]);
      }
      assert forall j :: 0 <= j < |units[1..]| ==> units[1..][j] == units[j + 1];
      MatchIntUnitOf(d, units[1..], separated, u);
    }
  }

  // ---------------------------------------------------------------------------------------------
  // Duration tokens

  /** The two capture groups of `^(\d+)(\w+)$`. */
  datatype TimeToken = TimeToken(amount: string, unit: string)

  /**
   * `part.match(/^(\d+)(\w+)$/)`: since `\w` includes the digits, the greedy `\d+` takes every
   * leading digit but the last character of the string.
   */
  function MatchTimeToken(part: string): Option<TimeToken> {
    if |part| < 2 || !IsDigit(part[0]) || !AllWordChars(part) then None
    else
      var d := LeadingDigits(part);
      var k := if d == |part| then d - 1 else d;
      Some(TimeToken(part[..k], part[k..]))
  }

  /**
   * A token matches when it is at least two word characters starting with a digit; the groups
   * then split it into a non-empty run of digits and a non-empty unit that does not start with a
   * digit unless it is the single last character.
   */
  lemma MatchTimeTokenShape(part: string)
    ensures var r := MatchTimeToken(part);
      && (r.Some? <==> |part| >= 2 && IsDigit(part[0]) && AllWordChars(part))
      && (r.Some? ==> r.value.amount + r.value.unit == part)
      && (r.Some? ==> IsDigits(r.value.amount) && r.value.unit != [])
      && (r.Some? ==> |r.value.unit| == 1 || !IsDigit(r.value.unit[0]))
  {
    if MatchTimeToken(part).Some? {
      var d := LeadingDigits(part);
      var k := if d == |part| then d - 1 else d;
      assert part[..k] + part[k..] == part;
    }
  }

  /** A run of digits followed by a unit that starts with a letter or `_`. */
  lemma MatchTimeTokenOf(amount: string, unit: string)
    requires IsDigits(amount)
    requires unit != [] && !IsDigit(unit[0]) && AllWordChars(unit)
    ensures MatchTimeToken(amount + unit) == Some(TimeToken(amount, unit))
  {
    var p := amount + unit;
    LeadingDigitsPrefix(amount, unit);
    assert p[..|amount|] == amount && p[|amount|..] == unit;
    forall i | 0 <= i < |p| ensures IsWordChar(p[i]) {
      if i >= |amount| { assert p[i] == unit[i - |amount|]; } else { assert p[i] == amount[i]; }
    }
  }

  // ---------------------------------------------------------------------------------------------
  // Property names

  /** `^_\d{2}_\d{2}_\d{5}$`: the names `mediainfo` gives chapter markers. */
  predicate IsReservedKey(k: string) {
    |k| == 12 && k[0] == '_' && k[3] == '_' && k[6] == '_' &&
    AllDigits(k[1..3]) && AllDigits(k[4..6]) && AllDigits(k[7..])
  }
}
