/**
 * How the first normaliser relates to the current one: wherever the current parser produces a
 * value, the older one produces the same value, except for the units the older tables lack; the
 * older parsers go on computing where the current ones reject the input.
 */
module LegacyFacts {
  import opened Wrappers
  import opened Text
  import opened Patterns
  import opened Media
  import opened LegacyNormalizer
  import N = Normalizer
  import NF = NormalizerFacts

  // ---------------------------------------------------------------------------------------------
  // Parser by parser

  /**
   * The current revision's result is one the older revision agrees with: a value other than
   * `null`, or the TypeError of a malformed duration token.
   */
  predicate Comparable(o: Outcome<Value>) {
    (o.Return? && o.value != Null) || o == Throw(NullMatchError)
  }

  /** `parseBool` is `_parseBool` without `bail`, and agrees with it wherever that one returns. */
  lemma {:induction false} BoolAgrees(bail: bool, s: string)
    ensures N.ParseBool(false, s) == Return(ParseBool(s))
    ensures Comparable(N.ParseBool(bail, s)) ==> N.ParseBool(bail, s) == Return(ParseBool(s))
  {
    NF.WarningsAreNotNullMatch();
  }

  /** The bit-rate parsers on the split of `s`, named. */
  lemma {:induction false} BitrateAgreesAt(bail: bool, s: string, unit: string, v: string)
    requires Last(Split(s, ' ')) == unit && unit != "Gbps" && unit != "Tbps"
    requires Join(Split(s, ' ')[..|Split(s, ' ')| - 1], "") == v
    ensures Comparable(N.ParseBitrate(bail, s)) ==> N.ParseBitrate(bail, s) == Return(ParseBitrate(s))
  {
    NF.WarningsAreNotNullMatch();
    if unit in N.BitrateFactor {
      assert unit in BitrateFactor && BitrateFactor[unit] == N.BitrateFactor[unit];
    }
  }

  /** Where the current bit-rate parser yields a value for a unit both tables know, so does this one. */
  lemma {:induction false} BitrateAgrees(bail: bool, s: string)
    requires Last(Split(s, ' ')) != "Gbps" && Last(Split(s, ' ')) != "Tbps"
    ensures Comparable(N.ParseBitrate(bail, s)) ==> N.ParseBitrate(bail, s) == Return(ParseBitrate(s))
  {
    var parts := Split(s, ' ');
    BitrateAgreesAt(bail, s, Last(parts), Join(parts[..|parts| - 1], ""));
  }

  /** The file-size parsers on the split of `s`, named. */
  lemma {:induction false} FileSizeAgreesAt(bail: bool, s: string, parts: seq<string>, number: string, x: Option<real>)
    requires Split(s, ' ') == parts && Join(parts[..|parts| - 1], "") == number && ParseFloat(parts[0]) == x
    requires |parts| >= 2 ==> parts[1] != "PiB"
    ensures Comparable(N.ParseFileSize(bail, s)) ==> N.ParseFileSize(bail, s) == Return(ParseFileSize(s))
  {
    NF.WarningsAreNotNullMatch();
    if |parts| == 1 {
      assert parts[..0] == [] && number == "";
    } else if parts[1] in N.FileSizeFactor {
      assert parts[1] in FileSizeFactor && FileSizeFactor[parts[1]] == N.FileSizeFactor[parts[1]];
    }
  }

  /** Where the current file-size parser yields a value for a unit below `PiB`, so does this one. */
  lemma {:induction false} FileSizeAgrees(bail: bool, s: string)
    requires |Split(s, ' ')| >= 2 ==> Split(s, ' ')[1] != "PiB"
    ensures Comparable(N.ParseFileSize(bail, s)) ==> N.ParseFileSize(bail, s) == Return(ParseFileSize(s))
  {
    var parts := Split(s, ' ');
    FileSizeAgreesAt(bail, s, parts, Join(parts[..|parts| - 1], ""), ParseFloat(parts[0]));
  }

  /** Where the current sampling-rate parser yields a value, this one yields the same. */
  lemma {:induction false} SamplingRateAgrees(bail: bool, s: string)
    ensures Comparable(N.ParseSamplingRate(bail, s)) ==> N.ParseSamplingRate(bail, s) == Return(ParseSamplingRate(s))
  {
    NF.WarningsAreNotNullMatch();
  }

  /** `parseIntUnit` is `_parseIntUnit` without `bail`. */
  lemma {:induction false} IntUnitAgrees(bail: bool, s: string, units: seq<string>, separated: bool)
    ensures N.ParseIntUnit(false, s, units, separated) == Return(ParseIntUnit(s, units, separated))
    ensures Comparable(N.ParseIntUnit(bail, s, units, separated))
            ==> N.ParseIntUnit(bail, s, units, separated) == Return(ParseIntUnit(s, units, separated))
  {
    NF.WarningsAreNotNullMatch();
  }

  /** `parseFloatUnit` is `_parseFloatUnit` without `bail`. */
  lemma {:induction false} FloatUnitAgrees(bail: bool, s: string, unit: string)
    ensures N.ParseFloatUnit(false, s, unit) == Return(ParseFloatUnit(s, unit))
    ensures Comparable(N.ParseFloatUnit(bail, s, unit)) ==> N.ParseFloatUnit(bail, s, unit) == Return(ParseFloatUnit(s, unit))
  {
    NF.WarningsAreNotNullMatch();
  }

  /**
   * `parseTime` returns the sum `_parseDuration` returns, and throws where it throws for a
   * malformed token.
   */
  lemma {:induction false} TimeAgrees(bail: bool, parts: seq<string>, acc: real)
    ensures Comparable(N.DurationFrom(bail, parts, acc)) ==> TimeFrom(parts, Some(acc)) == N.DurationFrom(bail, parts, acc)
  {
    if parts != [] {
      match MatchTimeToken(parts[0])
      case None =>
      case Some(t) =>
        if t.unit in N.TimeFactor {
          assert AddSeconds(Some(acc), t) == Some(acc + N.Seconds(t));
          TimeAgrees(bail, parts[1..], acc + N.Seconds(t));
        } else {
          NF.WarningsAreNotNullMatch();
        }
    }
  }

  /** `parseTime` throws exactly when one of the tokens does not match `^(\d+)(\w+)$`. */
  lemma {:induction false} TimeThrows(parts: seq<string>, acc: Option<real>)
    ensures TimeFrom(parts, acc).Throw? <==> exists i :: 0 <= i < |parts| && MatchTimeToken(parts[i]).None?
    ensures TimeFrom(parts, acc).Throw? ==> TimeFrom(parts, acc) == Throw(NullMatchError)
    ensures TimeFrom(parts, acc).Return? ==> TimeFrom(parts, acc).value.Number? || TimeFrom(parts, acc).value == NaN
  {
    if parts != [] {
      var m := MatchTimeToken(parts[0]);
      if m.Some? {
        TimeThrows(parts[1..], AddSeconds(acc, m.value));
        assert forall i :: 1 <= i < |parts| ==> parts[i] == parts[1..][i - 1];
        if exists i :: 0 <= i < |parts| && MatchTimeToken(parts[i]).None? {
          var i :| 0 <= i < |parts| && MatchTimeToken(parts[i]).None?;
          assert MatchTimeToken(parts[1..][i - 1]).None?;
        }
      }
    }
  }

  /** Once one unit is unknown the sum stays `NaN`, whatever the later tokens are. */
  lemma {:induction false} TimeStaysNaN(parts: seq<string>)
    ensures TimeFrom(parts, None) == Return(NaN) || TimeFrom(parts, None) == Throw(NullMatchError)
  {
    if parts != [] && MatchTimeToken(parts[0]).Some? {
      TimeStaysNaN(parts[1..]);
    }
  }

  // ---------------------------------------------------------------------------------------------
  // One property

  /**
   * Where the current revision produces something other than `null`, the older one produces the
   * same, unless a bit rate is in `Gbps` or `Tbps` or a file size in `PiB`.
   */
  lemma {:induction false} ConvertAgrees(bail: bool, kind: Kind, s: string)
    requires kind == AsBitrate ==> Last(Split(s, ' ')) != "Gbps" && Last(Split(s, ' ')) != "Tbps"
    requires kind == AsFileSize && |Split(s, ' ')| >= 2 ==> Split(s, ' ')[1] != "PiB"
    ensures Comparable(N.Convert(bail, kind, s)) ==> Convert(kind, s) == N.Convert(bail, kind, s)
  {
    match kind
    case AsBool => BoolAgrees(bail, s);
    case AsDuration => TimeAgrees(bail, Split(s, ' '), 0.0);
    case AsIntUnit(units, separated) => IntUnitAgrees(bail, s, units, separated);
    case AsFloatUnit(unit) => FloatUnitAgrees(bail, s, unit);
    case AsBitrate => BitrateAgrees(bail, s);
    case AsSamplingRate => SamplingRateAgrees(bail, s);
    case AsFileSize => FileSizeAgrees(bail, s);
    case _ =>
  }

  /** The older pass throws nothing but the message of a malformed duration, and keeps every name. */
  lemma {:induction false} NormalizeBagOutcome(kinds: map<string, Kind>, skipReserved: bool, bag: Bag)
    ensures var p := NormalizeBag(kinds, skipReserved, bag);
            && |p.state| == |bag|
            && (forall i :: 0 <= i < |bag| ==> p.state[i].key == bag[i].key)
            && (p.error.Some? ==> p.error.value == NullMatchError)
  {
    if bag != [] {
      var e := bag[0];
      if !(skipReserved && IsReservedKey(e.key)) && e.key in kinds && e.value.Text? && kinds[e.key] == AsDuration {
        TimeThrows(Split(e.value.s, ' '), Some(0.0));
      }
      var o := NormalizeEntry(kinds, skipReserved, e);
      if o.Return? {
        var q := NormalizeBag(kinds, skipReserved, bag[1..]);
        NormalizeBagOutcome(kinds, skipReserved, bag[1..]);
        var state := [Entry(e.key, o.value)] + q.state;
        assert forall i :: 1 <= i < |bag| ==> state[i] == q.state[i - 1] && bag[i] == bag[1..][i - 1];
      }
    }
  }

  // ---------------------------------------------------------------------------------------------
  // Where the revisions differ

  /** `10e9` bits per second: the older table has no `Gbps`. */
  lemma GigabitDiverges(bail: bool)
    ensures ParseBitrate("1 Gbps") == NaN
    ensures N.ParseBitrate(bail, "1 Gbps") == Return(Number(10000000000.0))
  {
    GigabitLegacy();
    GigabitCurrent(bail);
  }

  lemma GigabitSplit()
    ensures Split("1 Gbps", ' ') == ["1", "Gbps"]
  {
    NF.TwoTokens("1", "Gbps");
    assert "1" + " " + "Gbps" == "1 Gbps";
  }

  lemma GigabitLegacy()
    ensures ParseBitrate("1 Gbps") == NaN
  {
    GigabitSplit();
    assert "Gbps" !in BitrateFactor;
  }

  lemma GigabitCurrent(bail: bool)
    ensures N.ParseBitrate(bail, "1 Gbps") == Return(Number(10000000000.0))
  {
    GigabitSplit();
    var parts := Split("1 Gbps", ' ');
    assert Last(parts) == "Gbps" && N.BitrateFactor["Gbps"] == 10000000000.0;
    assert parts[..1] == ["1"] && Join(["1"], "") == "1";
    LeadingDigitsAll("1");
    GroupedDecimalOfDecimal("1");
    ParseFloatDigits("1");
    assert RemoveChar("1", ' ') == "1";
  }

  /** `12x` is not a bit-rate value, but `parseFloat` reads its leading `12`. */
  lemma {:induction false} TrailingLetter()
    ensures ParseFloat("12x") == Some(12.0) && !IsGroupedDecimal("12x") && ' ' !in "12x"
  {
    assert "12x" == "12" + "x";
    LeadingDigitsPrefix("12", "x");
    assert "12x"[..2] == "12" && "12"[..1] == "1" && "1"[..0] == "" && "12x"[2..] == "x";
    assert DigitsValue("12") == 12;
    assert !SpacedGroupsThenFraction("x");
  }

  /** A value the pattern rejects is still read by `parseFloat` in the older revision. */
  lemma {:induction false} LenientBitrate(bail: bool)
    ensures ParseBitrate("12x Kbps") == Number(120000.0)
    ensures N.ParseBitrate(bail, "12x Kbps") == N.Warn(bail, N.Unparsable("bitrate value", "12x"))
  {
    NF.TwoTokens("12x", "Kbps");
    assert "12x" + " " + "Kbps" == "12x Kbps";
    assert Split("12x Kbps", ' ')[..1] == ["12x"] && Join(["12x"], "") == "12x";
    TrailingLetter();
    assert RemoveChar("12x", ' ') == "12x";
  }

  /** `2^50` bytes: the older table stops at `TiB`. */
  lemma {:induction false} PebibyteDiverges(bail: bool)
    ensures ParseFileSize("1 PiB") == NaN
    ensures N.ParseFileSize(bail, "1 PiB") == Return(Number(1125899906842624.0))
  {
    NF.TwoTokens("1", "PiB");
    assert "1" + " " + "PiB" == "1 PiB";
    LeadingDigitsAll("1");
    ParseFloatDigits("1");
    NF.FileSizeOf(bail, "1 PiB", "1", "PiB", 1.0);
    assert Round(1125899906842624.0) == 1125899906842624;
  }

  /** The first two tokens of `n u...` are `n` and `u`. */
  lemma {:induction false} FirstTwoTokens(n: string, u: string, rest: string)
    requires ' ' !in n && ' ' !in u && (rest == [] || rest[0] == ' ')
    ensures |Split(n + " " + u + rest, ' ')| >= 2
    ensures Split(n + " " + u + rest, ' ')[0] == n && Split(n + " " + u + rest, ' ')[1] == u
  {
    assert n + " " + u + rest == n + [' '] + (u + rest);
    SplitAtSeparator(n, ' ', u + rest);
    if rest == [] {
      assert u + rest == u;
      SplitNoSeparator(u, ' ');
    } else {
      assert u + rest == u + [' '] + rest[1..];
      SplitAtSeparator(u, ' ', rest[1..]);
    }
  }

  /**
   * A wrong number of tokens is only logged: the older file-size parser reads the first two
   * tokens and ignores the rest, and from those two it yields `factor × value`, rounded.
   */
  lemma {:induction false} FileSizeIgnoresRest(n: string, u: string, rest: string)
    requires ' ' !in n && u in FileSizeFactor
    requires rest == [] || rest[0] == ' '
    ensures ParseFileSize(n + " " + u + rest) == ParseFileSize(n + " " + u)
    ensures ParseFileSize(n + " " + u) == N.Rounded(FileSizeFactor[u], ParseFloat(n))
  {
    UnitUnspaced(u);
    FirstTwoTokens(n, u, rest);
    FirstTwoTokens(n, u, []);
    assert n + " " + u + [] == n + " " + u;
  }

  /** No file-size unit contains a space. */
  lemma UnitUnspaced(u: string)
    requires u in FileSizeFactor
    ensures ' ' !in u
  {
    assert u == "TiB" || u == "GiB" || u == "MiB" || u == "KiB" || u == "Bytes";
  }

  /** Time units the older parser does not know make the sum `NaN`, where the current one warns. */
  lemma {:induction false} UnknownTimeUnit(bail: bool)
    ensures Time("5x") == Return(NaN)
    ensures N.Duration(bail, "5x") == N.Warn(bail, N.Unparsable("time unit", "x"))
  {
    assert Split("5x", ' ') == ["5x"] by { SplitNoSeparator("5x", ' '); }
    assert "5" + "x" == "5x" && "5"[..0] == "";
    MatchTimeTokenOf("5", "x");
    assert ["5x"][1..] == [];
  }
}
