/**
 * What the parsers and the passes of the current normaliser compute, stated against independent
 * descriptions of their inputs: numbers written out in decimal, lists of tokens, and a pointwise
 * account of what a pass over a bag leaves behind.
 */
module NormalizerFacts {
  import opened Wrappers
  import opened Text
  import opened Patterns
  import opened Media
  import opened Normalizer

  // ---------------------------------------------------------------------------------------------
  // Booleans

  /** The spelling `mediainfo` uses for a flag. */
  function YesNo(b: bool): string {
    if b then "Yes" else "No"
  }

  /** `_parseBool` reads back both spellings, and without `bail` it never throws. */
  lemma {:induction false} ParseBoolYesNo(bail: bool, b: bool, s: string)
    ensures ParseBool(bail, YesNo(b)) == Return(Flag(b))
    ensures ParseBool(bail, s).Return? && ParseBool(bail, s).value.Flag? ==> s == YesNo(ParseBool(bail, s).value.b)
    ensures ParseBool(bail, s).Throw? <==> bail && s != "Yes" && s != "No"
  {
  }

  /** A warning is never the message of the TypeError a malformed duration token raises. */
  lemma {:induction false} WarningsAreNotNullMatch()
    ensures forall what, detail :: Unparsable(what, detail) != NullMatchError
  {
    forall what, detail ensures Unparsable(what, detail) != NullMatchError {
      assert Unparsable(what, detail)[0] == 'u' && NullMatchError[0] == 'C';
    }
  }

  // ---------------------------------------------------------------------------------------------
  // Tokens

  /** The tokens of a string built from space-free tokens, and the ones before the last. */
  lemma {:induction false} TokensOf(tokens: seq<string>, unit: string)
    requires forall i :: 0 <= i < |tokens| ==> ' ' !in tokens[i]
    requires ' ' !in unit
    ensures Split(Join(tokens + [unit], " "), ' ') == tokens + [unit]
  {
    var all := tokens + [unit];
    assert forall i :: 0 <= i < |all| ==> ' ' !in all[i] by {
      forall i | 0 <= i < |all| ensures ' ' !in all[i] {
        if i < |tokens| { assert all[i] == tokens[i]; } else { assert all[i] == unit; }
      }
    }
    SplitJoin(all, ' ');
  }

  /** A number and a unit, each without spaces, separated by one space. */
  lemma {:induction false} TwoTokens(n: string, unit: string)
    requires ' ' !in n && ' ' !in unit
    ensures Split(n + " " + unit, ' ') == [n, unit]
  {
    TokensOf([n], unit);
    assert [n] + [unit] == [n, unit];
    assert Join([n, unit], " ") == n + " " + Join([unit], " ");
  }

  /** The space-free tokens of a split, joined with nothing, hold no space either. */
  lemma {:induction false} JoinSpaceFree(ps: seq<string>)
    requires forall i :: 0 <= i < |ps| ==> ' ' !in ps[i]
    ensures ' ' !in Join(ps, "")
  {
    if |ps| > 1 {
      JoinSpaceFree(ps[1..]);
    }
  }

  /** A numeral holds only digits and at most one point. */
  lemma {:induction false} DecimalChars(s: string)
    requires IsDecimal(s)
    ensures forall i :: 0 <= i < |s| ==> IsDigit(s[i]) || s[i] == '.'
  {
    var w := LeadingDigits(s);
    forall i | 0 <= i < |s| ensures IsDigit(s[i]) || s[i] == '.' {
      if i < w { assert s[i] == s[..w][i]; }
      else if i > w { assert s[i] == s[w + 1..][i - w - 1]; }
    }
  }

  /** `parseFloat` reads a numeral in full: `1.5` is one and a half. */
  lemma {:induction false} OnePointFive()
    ensures IsDecimal("1.5") && ParseFloat("1.5") == Some(1.5)
  {
    ParseFloatDecimal("1", "5");
    assert "1" + "." + "5" == "1.5";
    assert DigitsValue("1") == 1 && DigitsValue("5") == 5 && Pow10(1) == 10;
  }

  // ---------------------------------------------------------------------------------------------
  // Bit rates

  /** A bit-rate value that passes the pattern is read with its spaces removed, times the unit's multiplier. */
  lemma {:induction false} BitrateOfValue(bail: bool, s: string, v: string, unit: string, x: real)
    requires Last(Split(s, ' ')) == unit && Join(Split(s, ' ')[..|Split(s, ' ')| - 1], "") == v
    requires unit in BitrateFactor
    requires IsGroupedDecimal(v) && ParseFloat(v) == Some(x) && RemoveChar(v, ' ') == v
    ensures ParseBitrate(bail, s) == Return(Number(BitrateFactor[unit] * x))
  {
  }

  /**
   * When the tokens before a known unit join into a bit-rate numeral, the result is that numeral
   * times the unit's multiplier.
   */
  lemma {:induction false} BitrateOf(bail: bool, s: string, tokens: seq<string>, unit: string, x: real)
    requires Split(s, ' ') == tokens + [unit] && unit in BitrateFactor
    requires IsGroupedDecimal(Join(tokens, "")) && ParseFloat(Join(tokens, "")) == Some(x)
    ensures ParseBitrate(bail, s) == Return(Number(BitrateFactor[unit] * x))
  {
    LeadingTokens(s, tokens, unit);
    BitrateOfValue(bail, s, Join(tokens, ""), unit, x);
  }

  /** The leading tokens of a split hold no space, so joining them needs no space removal. */
  lemma {:induction false} LeadingTokens(s: string, tokens: seq<string>, unit: string)
    requires Split(s, ' ') == tokens + [unit]
    ensures Last(Split(s, ' ')) == unit && Split(s, ' ')[..|Split(s, ' ')| - 1] == tokens
    ensures RemoveChar(Join(tokens, ""), ' ') == Join(tokens, "")
  {
    var parts := Split(s, ' ');
    assert parts[..|parts| - 1] == tokens;
    SplitParts(s, ' ');
    assert forall i :: 0 <= i < |tokens| ==> tokens[i] == parts[i];
    JoinSpaceFree(tokens);
  }

  /** With a known unit, tokens that do not join into a numeral are reported as the value. */
  lemma {:induction false} BitrateBadValue(bail: bool, s: string, tokens: seq<string>, unit: string)
    requires Split(s, ' ') == tokens + [unit] && unit in BitrateFactor
    requires !IsGroupedDecimal(Join(tokens, ""))
    ensures ParseBitrate(bail, s) == Warn(bail, Unparsable("bitrate value", Join(tokens, "")))
  {
    assert (tokens + [unit])[..|tokens|] == tokens;
  }

  /** `"1 234 Kbps"`: the leading tokens are joined with no separator, and `Kbps` is `10e3`. */
  lemma {:induction false} BitrateExample(bail: bool)
    ensures ParseBitrate(bail, "1 234 Kbps") == Return(Number(12340000.0))
  {
    var tokens := ["1", "234"];
    assert Join(tokens, "") == "1234" by { assert tokens[1..] == ["234"]; }
    assert Split("1 234 Kbps", ' ') == tokens + ["Kbps"] by {
      var all := ["1", "234", "Kbps"];
      assert all[1..] == ["234", "Kbps"] && all[1..][1..] == ["Kbps"];
      assert Join(["234", "Kbps"], " ") == "234 Kbps";
      assert Join(all, " ") == "1 234 Kbps";
      assert forall i :: 0 <= i < |tokens| ==> ' ' !in tokens[i];
      TokensOf(tokens, "Kbps");
    }
    IsDigitsExample();
    LeadingDigitsAll("1234");
    GroupedDecimalOfDecimal("1234");
    ParseFloatDigits("1234");
    BitrateOf(bail, "1 234 Kbps", tokens, "Kbps", 1234.0);
  }

  lemma {:induction false} IsDigitsExample()
    ensures IsDigits("1234") && DigitsValue("1234") == 1234
  {
    assert "1234"[..3] == "123" && "123"[..2] == "12" && "12"[..1] == "1";
  }

  // ---------------------------------------------------------------------------------------------
  // File sizes

  /** The file-size units are single words holding a `B`. */
  lemma {:induction false} FileSizeUnitShape(u: string)
    requires u in FileSizeFactor
    ensures ' ' !in u && 'B' in u
  {
    if u == "Bytes" {
      assert u[0] == 'B';
    } else {
      assert u == "PiB" || u == "TiB" || u == "GiB" || u == "MiB" || u == "KiB";
      assert u[2] == 'B';
    }
  }

  /** `"<n> <unit>"` with a decimal `n` and a known unit is `n` times the unit, rounded. */
  lemma {:induction false} FileSizeOf(bail: bool, s: string, n: string, unit: string, x: real)
    requires Split(s, ' ') == [n, unit] && IsDecimal(n) && unit in FileSizeFactor && ParseFloat(n) == Some(x)
    ensures ParseFileSize(bail, s) == Return(Number(Round(FileSizeFactor[unit] as real * x) as real))
  {
    assert Split(s, ' ')[..1] == [n];
    assert Join([n], "") == n;
  }

  /**
   * A decimal followed by anything that is not a unit is reported as a bad unit, naming the second
   * token (`parts[1]`).
   */
  lemma {:induction false} FileSizeBadUnit(bail: bool, s: string)
    requires IsDecimal(Join(Split(s, ' ')[..|Split(s, ' ')| - 1], ""))
    requires Last(Split(s, ' ')) !in FileSizeFactor
    ensures |Split(s, ' ')| >= 2
    ensures ParseFileSize(bail, s) == Warn(bail, Unparsable("filesize unit", Split(s, ' ')[1]))
  {
  }

  /** `"1.5 KiB"` is 1536 bytes. */
  lemma {:induction false} FileSizeExample(bail: bool)
    ensures ParseFileSize(bail, "1.5 KiB") == Return(Number(1536.0))
  {
    OnePointFive();
    DecimalChars("1.5");
    assert ' ' !in "1.5";
    TwoTokens("1.5", "KiB");
    assert "1.5" + " " + "KiB" == "1.5 KiB";
    FileSizeOf(bail, "1.5 KiB", "1.5", "KiB", 1.5);
    assert FileSizeFactor["KiB"] as real * 1.5 == 1536.0;
    assert Round(1536.0) == 1536;
  }

  lemma {:induction false} JoinHolds(ps: seq<string>, k: nat, c: char)
    requires k < |ps| && c in ps[k]
    ensures c in Join(ps, "")
  {
    if k > 0 {
      JoinHolds(ps[1..], k - 1, c);
      assert ps[1..][k - 1] == ps[k];
    }
  }

  /**
   * Only the two-token form yields a number: with three tokens or more, the unit the result reads
   * (`parts[1]`) is part of the joined number, which holds no letter once it passed the check.
   */
  lemma {:induction false} FileSizeExtraTokens(bail: bool, s: string)
    requires |Split(s, ' ')| >= 3
    ensures !(ParseFileSize(bail, s).Return? && ParseFileSize(bail, s).value.Number?)
  {
    var parts := Split(s, ' ');
    var number := Join(parts[..|parts| - 1], "");
    if IsDecimal(number) && Last(parts) in FileSizeFactor && parts[1] in FileSizeFactor {
      FileSizeUnitShape(parts[1]);
      assert parts[..|parts| - 1][1] == parts[1];
      JoinHolds(parts[..|parts| - 1], 1, 'B');
      DecimalChars(number);
      assert false;
    }
  }

  // ---------------------------------------------------------------------------------------------
  // Sampling rates

  /** `"<n> <unit>"` with a decimal `n` and a known unit is `n` times the unit. */
  lemma {:induction false} SamplingRateOf(bail: bool, s: string, n: string, unit: string, x: real)
    requires Split(s, ' ') == [n, unit] && IsDecimal(n) && unit in SamplingRateFactor && ParseFloat(n) == Some(x)
    ensures ParseSamplingRate(bail, s) == Return(Number(SamplingRateFactor[unit] * x))
  {
  }

  /** `"1.5 KHz"` is 15000: `KHz` is `10e3`. */
  lemma {:induction false} SamplingRateExample(bail: bool)
    ensures ParseSamplingRate(bail, "1.5 KHz") == Return(Number(15000.0))
  {
    OnePointFive();
    DecimalChars("1.5");
    assert ' ' !in "1.5";
    TwoTokens("1.5", "KHz");
    assert "1.5" + " " + "KHz" == "1.5 KHz";
    SamplingRateOf(bail, "1.5 KHz", "1.5", "KHz", 1.5);
  }

  // ---------------------------------------------------------------------------------------------
  // Durations

  /** A well-formed duration token: digits and a known unit. */
  predicate KnownToken(t: TimeToken) {
    IsDigits(t.amount) && t.unit in TimeFactor
  }

  /** The text of the tokens, `<amount><unit>` each. */
  function TokenTexts(ts: seq<TimeToken>): (r: seq<string>)
    ensures |r| == |ts|
  {
    if ts == [] then [] else [ts[0].amount + ts[0].unit] + TokenTexts(ts[1..])
  }

  lemma {:induction false} TokenTextsAt(ts: seq<TimeToken>, i: nat)
    requires i < |ts|
    ensures TokenTexts(ts)[i] == ts[i].amount + ts[i].unit
  {
    if i > 0 {
      TokenTextsAt(ts[1..], i - 1);
    }
  }

  /** The weighted sum the tokens stand for; a token that is not well-formed counts for nothing. */
  function TotalSeconds(ts: seq<TimeToken>): real {
    if ts == [] then 0.0
    else (if KnownToken(ts[0]) then Seconds(ts[0]) else 0.0) + TotalSeconds(ts[1..])
  }

  lemma {:induction false} TimeUnitShape(u: string)
    requires u in TimeFactor
    ensures u != [] && !IsDigit(u[0]) && AllWordChars(u) && ' ' !in u
  {
    assert u == "h" || u == "mn" || u == "s" || u == "ms";
  }

  /** Every token is well-formed. */
  predicate AllKnown(ts: seq<TimeToken>) {
    ts == [] || (KnownToken(ts[0]) && AllKnown(ts[1..]))
  }

  /** Reading the texts of well-formed tokens adds up their seconds. */
  lemma {:induction false} DurationFromTokens(bail: bool, ts: seq<TimeToken>, acc: real)
    requires AllKnown(ts)
    ensures DurationFrom(bail, TokenTexts(ts), acc) == Return(Number(acc + TotalSeconds(ts)))
    decreases |ts|
  {
    if ts != [] {
      DurationFromTokens(bail, ts[1..], acc + Seconds(ts[0]));
      DurationCons(bail, ts, acc);
    }
  }

  /** The step of the induction: a well-formed first token in front of tokens that add up. */
  lemma DurationCons(bail: bool, ts: seq<TimeToken>, acc: real)
    requires ts != [] && KnownToken(ts[0])
    requires DurationFrom(bail, TokenTexts(ts[1..]), acc + Seconds(ts[0]))
          == Return(Number(acc + Seconds(ts[0]) + TotalSeconds(ts[1..])))
    ensures DurationFrom(bail, TokenTexts(ts), acc) == Return(Number(acc + TotalSeconds(ts)))
  {
    DurationHead(bail, ts, acc);
    TotalSecondsStep(ts, acc);
  }

  lemma TotalSecondsStep(ts: seq<TimeToken>, acc: real)
    requires ts != [] && KnownToken(ts[0])
    ensures acc + TotalSeconds(ts) == acc + Seconds(ts[0]) + TotalSeconds(ts[1..])
  {
  }

  /** A well-formed first token adds its seconds and the rest is read on. */
  lemma DurationHead(bail: bool, ts: seq<TimeToken>, acc: real)
    requires ts != [] && KnownToken(ts[0])
    ensures DurationFrom(bail, TokenTexts(ts), acc) == DurationFrom(bail, TokenTexts(ts[1..]), acc + Seconds(ts[0]))
  {
    var parts, t := TokenTexts(ts), ts[0];
    assert parts[0] == t.amount + t.unit && parts[1..] == TokenTexts(ts[1..]);
    TimeUnitShape(t.unit);
    MatchTimeTokenOf(t.amount, t.unit);
  }

  lemma {:induction false} AllKnownOf(ts: seq<TimeToken>)
    requires forall i :: 0 <= i < |ts| ==> KnownToken(ts[i])
    ensures AllKnown(ts)
    decreases |ts|
  {
    if ts != [] {
      assert forall i :: 0 <= i < |ts[1..]| ==> ts[1..][i] == ts[i + 1];
      AllKnownOf(ts[1..]);
    }
  }

  /**
   * A duration written as space-separated `<amount><unit>` tokens with known units is the sum of
   * every amount times its unit's factor, whether or not `bail` is set.
   */
  lemma {:induction false} DurationOf(bail: bool, ts: seq<TimeToken>, s: string)
    requires forall i :: 0 <= i < |ts| ==> KnownToken(ts[i])
    requires Split(s, ' ') == TokenTexts(ts)
    ensures Duration(bail, s) == Return(Number(TotalSeconds(ts)))
  {
    assert Duration(bail, s) == DurationFrom(bail, TokenTexts(ts), 0.0);
    AllKnownOf(ts);
    DurationFromTokens(bail, ts, 0.0);
    assert 0.0 + TotalSeconds(ts) == TotalSeconds(ts);
  }

  /** The tokens joined with single spaces, as `mediainfo` prints a duration. */
  lemma {:induction false} DurationOfJoin(bail: bool, ts: seq<TimeToken>)
    requires ts != [] && forall i :: 0 <= i < |ts| ==> KnownToken(ts[i])
    ensures Duration(bail, Join(TokenTexts(ts), " ")) == Return(Number(TotalSeconds(ts)))
  {
    TokenTextsSpaceFree(ts);
    SplitJoin(TokenTexts(ts), ' ');
    DurationOf(bail, ts, Join(TokenTexts(ts), " "));
  }

  lemma {:induction false} TokenTextsSpaceFree(ts: seq<TimeToken>)
    requires forall i :: 0 <= i < |ts| ==> KnownToken(ts[i])
    ensures |TokenTexts(ts)| >= |ts| && forall i :: 0 <= i < |TokenTexts(ts)| ==> ' ' !in TokenTexts(ts)[i]
  {
    var parts := TokenTexts(ts);
    forall i | 0 <= i < |parts| ensures ' ' !in parts[i] {
      TokenTextsAt(ts, i);
      TimeUnitShape(ts[i].unit);
      var d := ts[i].amount;
      forall k | 0 <= k < |parts[i]| ensures parts[i][k] != ' ' {
        if k < |d| { assert parts[i][k] == d[k]; } else { assert parts[i][k] == ts[i].unit[k - |d|]; }
      }
    }
  }

  /** `"1h 30mn"` is 5400 seconds. */
  lemma {:induction false} DurationExample(bail: bool)
    ensures Duration(bail, "1h 30mn") == Return(Number(5400.0))
  {
    var ts := [TimeToken("1", "h"), TimeToken("30", "mn")];
    ExampleTokens();
    assert Join(TokenTexts(ts), " ") == "1h 30mn" by {
      assert ["1h", "30mn"][1..] == ["30mn"];
    }
    DurationOfJoin(bail, ts);
  }

  /** The tokens of `"1h 30mn"` and the seconds they stand for. */
  lemma {:induction false} ExampleTokens()
    ensures KnownToken(TimeToken("1", "h")) && KnownToken(TimeToken("30", "mn"))
    ensures TokenTexts([TimeToken("1", "h"), TimeToken("30", "mn")]) == ["1h", "30mn"]
    ensures TotalSeconds([TimeToken("1", "h"), TimeToken("30", "mn")]) == 5400.0
  {
    var ts := [TimeToken("1", "h"), TimeToken("30", "mn")];
    assert DigitsValue("1") == 1 && DigitsValue("30") == 30 by { assert "30"[..1] == "3"; }
    assert ts[1..] == [TimeToken("30", "mn")] && ts[1..][1..] == [];
    assert TokenTexts(ts) == ["1h", "30mn"] by {
      assert "1" + "h" == "1h" && "30" + "mn" == "30mn";
      assert TokenTexts(ts[1..]) == ["30mn"] + TokenTexts([]);
    }
    assert TotalSeconds(ts[1..]) == 1800.0;
  }

  /** Splitting the empty string gives one empty token, which does not match: a TypeError. */
  lemma {:induction false} DurationEmpty(bail: bool)
    ensures Duration(bail, "") == Throw(NullMatchError)
  {
    assert Split("", ' ') == [""];
  }

  /**
   * Everything `_parseDuration` can end with: a number, the TypeError of a token that does not
   * match, or the warning for the first unknown unit.
   */
  lemma {:induction false} DurationFromOutcomes(bail: bool, parts: seq<string>, acc: real)
    ensures var r := DurationFrom(bail, parts, acc);
            || (r.Return? && r.value.Number?)
            || r == Throw(NullMatchError)
            || exists u :: u !in TimeFactor && r == Warn(bail, Unparsable("time unit", u))
  {
    if parts != [] {
      var r := DurationFrom(bail, parts, acc);
      assert parts[0..] == parts && parts[0 + 1..] == parts[1..];
      DurationAdvance(bail, parts, 0, acc, r);
      var m := MatchTimeToken(parts[0]);
      if m.Some? {
        var u := m.value.unit;
        if u in TimeFactor {
          DurationFromOutcomes(bail, parts[1..], acc + Seconds(m.value));
        } else {
          assert r == Warn(bail, Unparsable("time unit", u));
        }
      }
    }
  }

  // ---------------------------------------------------------------------------------------------
  // Numbers with a unit

  /**
   * A number part that matches the pattern, followed by a space and one spelling of the unit, is
   * read with its white space removed.
   */
  lemma {:induction false} IntUnitOfGroups(bail: bool, d: string, units: seq<string>, separated: bool, u: string)
    requires IsGroupedInt(d, separated)
    requires u in units && forall j :: 0 <= j < |units| ==> ' ' !in units[j]
    ensures IsDigits(RemoveSpaces(d))
    ensures ParseIntUnit(bail, d + " " + u, units, separated) == Return(Number(DigitsValue(RemoveSpaces(d)) as real))
  {
    MatchIntUnitOf(d, units, separated, u);
    GroupedIntWithoutSpaces(d, separated);
    if separated {
      ParseIntDigits(RemoveSpaces(d));
    } else {
      GroupedIntUnseparated(d);
      RemoveSpacesDigits(d);
      ParseIntDigits(d);
    }
  }

  /**
   * A plain number followed by a unit is read back without a separator. With one, only numbers of
   * at most three digits are: a longer digit run lacks the white space before each group.
   */
  lemma {:induction false} IntUnitOf(bail: bool, v: nat, units: seq<string>, separated: bool, u: string)
    requires u in units && forall j :: 0 <= j < |units| ==> ' ' !in units[j]
    ensures !separated || v < 1000 ==>
      ParseIntUnit(bail, NatToString(v) + " " + u, units, separated) == Return(Number(v as real))
    ensures separated && v >= 1000 ==>
      ParseIntUnit(bail, NatToString(v) + " " + u, units, separated) == Warn(bail, Unparsable("int value", NatToString(v) + " " + u))
  {
    var d := NatToString(v);
    var s := d + " " + u;
    NatToStringShort(v);
    DigitsAreGroupedInt(d, separated);
    if !separated || v < 1000 {
      IntUnitOfGroups(bail, d, units, separated, u);
      RemoveSpacesDigits(d);
      NatToStringValue(v);
    } else {
      forall x, j | 0 <= j < |units| && x + " " + units[j] == s ensures x == d {
        assert EndsWith(s, " " + units[j]) by {
          assert s[|s| - |" " + units[j]|..] == (x + " " + units[j])[|x|..];
        }
        SuffixUnique(d, u, units[j]);
        assert x == s[..|x|];
      }
      assert MatchIntUnit(s, units, separated).None?;
    }
  }

  /** The decimal digits of a number have at most three characters exactly when it is below 1000. */
  lemma NatToStringShort(v: nat)
    ensures |NatToString(v)| <= 3 <==> v < 1000
  {
    if v >= 10 {
      assert |NatToString(v)| == |NatToString(v / 10)| + 1;
      if v >= 100 {
        assert |NatToString(v / 10)| == |NatToString(v / 100)| + 1;
        if v >= 1000 {
          assert v / 10 / 10 == v / 100 && v / 100 / 10 == v / 1000;
          assert |NatToString(v / 100)| == |NatToString(v / 1000)| + 1;
        } else {
          assert v / 10 / 10 == v / 100 < 10;
        }
      } else {
        assert v / 10 < 10;
      }
    }
  }

  /** Three decimal digits, with leading zeros. */
  function Pad3(x: nat): (r: string)
    requires x < 1000
    ensures |r| == 3 && AllDigits(r) && DigitsValue(r) == x
  {
    var h, t, o := x / 100, x / 10 % 10, x % 10;
    var r := ['0' + h as char, '0' + t as char, '0' + o as char];
    assert DigitsValue(r[..1]) == h by { assert r[..1][..0] == []; }
    assert DigitsValue(r[..2]) == 10 * h + t by { assert r[..2][..1] == r[..1]; }
    assert x == 10 * (x / 10) + o && x / 10 == 10 * h + t;
    r
  }

  /** A natural number printed with white space before each group of three digits: `1 920`, `1 500 000`. */
  function Grouped(v: nat): string
    decreases v
  {
    if v < 1000 then NatToString(v) else Grouped(v / 1000) + " " + Pad3(v % 1000)
  }

  /** Another group at the end keeps a separated number part a number part. */
  lemma {:induction false} GroupsSnoc(t: string, g: string)
    requires DigitGroups(t, true) && |g| == 3 && AllDigits(g)
    ensures DigitGroups(t + " " + g, true)
    decreases |t|
  {
    var n := t + " " + g;
    if t == [] {
      assert n[1..4] == g && n[4..] == [];
    } else {
      GroupsSnoc(t[4..], g);
      assert n[1..4] == t[1..4] && n[4..] == t[4..] + " " + g;
    }
  }

  /** The printing with separators matches the separated pattern. */
  lemma {:induction false} GroupedShape(v: nat)
    ensures IsGroupedInt(Grouped(v), true)
    decreases v
  {
    if v < 1000 {
      NatToStringShort(v);
      DigitsAreGroupedInt(NatToString(v), true);
    } else {
      var h := Grouped(v / 1000);
      var g := Pad3(v % 1000);
      var n := h + " " + g;
      GroupedShape(v / 1000);
      var k :| 1 <= k <= 3 && k <= |h| && AllDigits(h[..k]) && DigitGroups(h[k..], true);
      GroupsSnoc(h[k..], g);
      assert n[..k] == h[..k] && n[k..] == h[k..] + " " + g;
    }
  }

  /** With its separators removed, the printing with separators reads back as the number. */
  lemma {:induction false} GroupedValue(v: nat)
    ensures AllDigits(RemoveSpaces(Grouped(v))) && DigitsValue(RemoveSpaces(Grouped(v))) == v
    decreases v
  {
    if v < 1000 {
      RemoveSpacesDigits(NatToString(v));
      NatToStringValue(v);
    } else {
      var h := Grouped(v / 1000);
      var g := Pad3(v % 1000);
      GroupedValue(v / 1000);
      RemoveSpacesConcat(h + " ", g);
      RemoveSpacesConcat(h, " ");
      assert RemoveSpaces(" ") == [];
      RemoveSpacesDigits(g);
      assert RemoveSpaces(Grouped(v)) == RemoveSpaces(h) + g;
      DigitsValueConcat(RemoveSpaces(h), g);
      assert Pow10(3) == 1000;
    }
  }

  /** A number printed with separated groups, then a space and a unit, is read back with `spaceSep`. */
  lemma {:induction false} GroupedIntUnitOf(bail: bool, v: nat, units: seq<string>, u: string)
    requires u in units && forall j :: 0 <= j < |units| ==> ' ' !in units[j]
    ensures ParseIntUnit(bail, Grouped(v) + " " + u, units, true) == Return(Number(v as real))
  {
    GroupedShape(v);
    GroupedValue(v);
    IntUnitOfGroups(bail, Grouped(v), units, true, u);
  }

  /** `"1920 pixels"` is not a number of pixels once the groups must be separated. */
  lemma {:induction false} IntUnitUngroupedExample(bail: bool)
    ensures ParseIntUnit(bail, "1920 pixels", ["pixels"], true) == Warn(bail, Unparsable("int value", "1920 pixels"))
  {
    IntUnitOf(bail, 1920, ["pixels"], true, "pixels");
    assert NatToString(1920) == "1920";
  }

  /** `"1 920"` matches the separated pattern and reads as 1920. */
  lemma {:induction false} SeparatedGroupsExample()
    ensures IsGroupedInt("1 920", true) && RemoveSpaces("1 920") == "1920"
    ensures IsDigits("1920") && DigitsValue("1920") == 1920
  {
    GroupedExample();
    SpacesRemovedExample();
    DigitsExample();
  }

  lemma {:induction false} GroupedExample()
    ensures IsGroupedInt("1 920", true)
  {
    var d := "1 920";
    assert d[..1] == "1" && AllDigits(d[..1]);
    var t := d[1..];
    assert t[1..4] == "920" && IsSpace(t[0]) && AllDigits(t[1..4]);
    assert t[4..] == [] && DigitGroups(t[4..], true);
  }

  lemma {:induction false} SpacesRemovedExample()
    ensures RemoveSpaces("1 920") == "1920"
  {
    assert "1 920" == "1" + " " + "920";
    RemoveSpacesConcat("1" + " ", "920");
    RemoveSpacesConcat("1", " ");
    RemoveSpacesDigits("920");
    RemoveSpacesDigits("1");
    assert RemoveSpaces(" ") == [];
  }

  lemma {:induction false} DigitsExample()
    ensures IsDigits("1920") && DigitsValue("1920") == 1920
  {
    assert "1920"[..3] == "192" && "192"[..2] == "19" && "19"[..1] == "1" && "1"[..0] == "";
  }

  /** `"1 920 pixels"` is 1920 when each group must be led by white space. */
  lemma {:induction false} IntUnitSeparatedExample(bail: bool)
    ensures ParseIntUnit(bail, "1 920 pixels", ["pixels"], true) == Return(Number(1920.0))
  {
    SeparatedGroupsExample();
    IntUnitOfGroups(bail, "1 920", ["pixels"], true, "pixels");
    assert "1 920" + " " + "pixels" == "1 920 pixels";
  }

  /** Without separated groups the same text is not a number of pixels. */
  lemma {:induction false} IntUnitUnseparatedExample(bail: bool)
    ensures ParseIntUnit(bail, "1 920 pixels", ["pixels"], false) == Warn(bail, Unparsable("int value", "1 920 pixels"))
  {
    var d := "1 920";
    var s := "1 920 pixels";
    assert EndsWith(s, " pixels") && s[..|s| - |" pixels"|] == d;
    GroupedIntUnseparated(d);
    assert !IsDigit(d[1]);
  }

  /** A fixed-point number followed by a space and the unit. */
  lemma {:induction false} FloatUnitOf(bail: bool, whole: string, fraction: string, unit: string)
    requires IsDigits(whole) && IsDigits(fraction)
    ensures ParseFloatUnit(bail, whole + "." + fraction + " " + unit, unit) == Return(Number(DecimalOf(whole, fraction)))
  {
    var n := whole + "." + fraction;
    FixedPointOf(whole, fraction);
    FloatUnitSuffix(n, unit);
    ParseFloatDecimal(whole, fraction);
  }

  lemma FixedPointOf(whole: string, fraction: string)
    requires IsDigits(whole) && IsDigits(fraction)
    ensures IsFixedPoint(whole + "." + fraction)
  {
    var n := whole + "." + fraction;
    LeadingDigitsPrefix(whole, "." + fraction);
    assert n[|whole|..] == "." + fraction;
    assert ("." + fraction)[1..] == fraction;
  }

  lemma FloatUnitSuffix(n: string, unit: string)
    requires IsFixedPoint(n)
    ensures MatchFloatUnit(n + " " + unit, unit) == Some(n)
  {
    var s := n + " " + unit;
    assert s[..|s| - |" " + unit|] == n;
    assert s[|s| - |" " + unit|..] == " " + unit;
  }

  /** A whole number is not a frame rate: `^\d+\.\d+ fps$` needs the fraction. */
  lemma {:induction false} FloatUnitNeedsFraction(bail: bool, v: nat, unit: string)
    ensures ParseFloatUnit(bail, NatToString(v) + " " + unit, unit)
         == Warn(bail, Unparsable("float value", NatToString(v) + " " + unit))
  {
    var d := NatToString(v);
    var s := d + " " + unit;
    assert s[..|s| - |" " + unit|] == d;
    LeadingDigitsAll(d);
  }
}
