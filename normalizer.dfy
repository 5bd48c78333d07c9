/**
 * The current normaliser (`guerrero.util.MediaInfoNormalizer`). It rewrites the text values of a
 * `mediainfo` object in place with booleans and numbers. A value that cannot be parsed becomes
 * `null` after a warning; with `bail` set, the warning throws instead.
 */
module Normalizer {
  import opened Wrappers
  import opened Text
  import opened Patterns
  import opened Media

  /** The text of a warning, as `util.format('unparsable <what> "%s"', detail)` renders it. */
  function Unparsable(what: string, detail: string): string {
    "unparsable " + what + " \"" + detail + "\""
  }

  /** `_warn`: the message is only logged, or thrown when `bail` is set; the parser then returns `null`. */
  function Warn(bail: bool, message: string): (r: Outcome<Value>)
    ensures r.Throw? <==> bail
    ensures r.Throw? ==> r.message == message
    ensures r.Return? ==> r.value == Null
  {
    if bail then Throw(message) else Return(Null)
  }

  /** A number, or `NaN` when `parseInt`/`parseFloat` found no digits. */
  function FromReal(x: Option<real>): Value {
    if x.Some? then Number(x.value) else NaN
  }

  function FromNat(n: Option<nat>): Value {
    if n.Some? then Number(n.value as real) else NaN
  }

  // ---------------------------------------------------------------------------------------------
  // Multiplier tables, with the literals as written (`10e3` is ten thousand)

  const BitrateFactor: map<string, real> := map[
    "Tbps" := 10000000000000.0,
    "Gbps" := 10000000000.0,
    "Mbps" := 10000000.0,
    "Kbps" := 10000.0,
    "bps" := 1.0]

  const FileSizeFactor: map<string, nat> := map[
    "PiB" := 1125899906842624,
    "TiB" := 1099511627776,
    "GiB" := 1073741824,
    "MiB" := 1048576,
    "KiB" := 1024,
    "Bytes" := 1]

  const SamplingRateFactor: map<string, real> := map[
    "GHz" := 10000000000.0,
    "MHz" := 10000000.0,
    "KHz" := 10000.0,
    "Hz" := 1.0]

  const TimeFactor: map<string, real> := map[
    "h" := 3600.0,
    "mn" := 60.0,
    "s" := 1.0,
    "ms" := 0.001]

  /** The file-size multipliers are `Math.pow(2, 10 * k)`. */
  lemma FileSizeFactorPowers()
    ensures FileSizeFactor["Bytes"] == Pow2(0) && FileSizeFactor["KiB"] == Pow2(10)
    ensures FileSizeFactor["MiB"] == Pow2(20) && FileSizeFactor["GiB"] == Pow2(30)
    ensures FileSizeFactor["TiB"] == Pow2(40) && FileSizeFactor["PiB"] == Pow2(50)
  {
    FileSizeFactorValues();
    Pow2Values();
  }

  lemma FileSizeFactorValues()
    ensures FileSizeFactor["Bytes"] == 1 && FileSizeFactor["KiB"] == 1024 && FileSizeFactor["MiB"] == 1048576
    ensures FileSizeFactor["GiB"] == 1073741824 && FileSizeFactor["TiB"] == 1099511627776
    ensures FileSizeFactor["PiB"] == 1125899906842624
  {
  }

  lemma Pow2Values()
    ensures Pow2(0) == 1 && Pow2(10) == 1024 && Pow2(20) == 1048576 && Pow2(30) == 1073741824
    ensures Pow2(40) == 1099511627776 && Pow2(50) == 1125899906842624
  {
    var p30 := Pow2(30);
    assert p30 == 1073741824 by {
      Pow2Ten(10);
      Pow2Ten(20);
    }
    Pow2Ten(30);
    Pow2Ten(40);
  }

  // ---------------------------------------------------------------------------------------------
  // Parsers

  /** `_parseBool` */
  function ParseBool(bail: bool, s: string): (r: Outcome<Value>)
    ensures s == "Yes" ==> r == Return(Flag(true))
    ensures s == "No" ==> r == Return(Flag(false))
    ensures s != "Yes" && s != "No" ==> r == Warn(bail, Unparsable("bool value", s))
  {
    if s == "Yes" then Return(Flag(true))
    else if s == "No" then Return(Flag(false))
    else Warn(bail, Unparsable("bool value", s))
  }

  /**
   * `_parseBitrate`: the last space-separated token is the unit, the tokens before it are joined
   * with no separator. The unit is checked before the value.
   */
  function ParseBitrate(bail: bool, s: string): (r: Outcome<Value>)
    ensures Last(Split(s, ' ')) !in BitrateFactor
            ==> r == Warn(bail, Unparsable("bitrate unit", Last(Split(s, ' '))))
    ensures r.Return? && r.value.Number? ==> Last(Split(s, ' ')) in BitrateFactor
  {
    var parts := Split(s, ' ');
    var unit := Last(parts);
    var value := Join(parts[..|parts| - 1], "");
    if unit !in BitrateFactor then Warn(bail, Unparsable("bitrate unit", unit))
    else if !IsGroupedDecimal(value) then Warn(bail, Unparsable("bitrate value", value))
    else Return(Scaled(BitrateFactor[unit], value))
  }

  /** `parseFloat(value.replace(/ /g, '')) * factor`, shared by both revisions' bit-rate parsers. */
  function Scaled(factor: real, value: string): (r: Value)
    ensures r.Number? || r == NaN
    ensures r.Number? <==> LeadingDigits(RemoveChar(value, ' ')) > 0
  {
    var x := ParseFloat(RemoveChar(value, ' '));
    if x.Some? then Number(factor * x.value) else NaN
  }

  /**
   * `_parseFileSize`: the tokens before the unit, joined, must be a decimal; the result is then
   * computed from the first two tokens only.
   */
  function ParseFileSize(bail: bool, s: string): (r: Outcome<Value>)
    ensures !IsDecimal(Join(Split(s, ' ')[..|Split(s, ' ')| - 1], ""))
            ==> r == Warn(bail, Unparsable("filesize string", s))
  {
    var parts := Split(s, ' ');
    var number := Join(parts[..|parts| - 1], "");
    if !IsDecimal(number) then Warn(bail, Unparsable("filesize string", s))
    else if Last(parts) !in FileSizeFactor then
      Warn(bail, Unparsable("filesize unit", if |parts| > 1 then parts[1] else "undefined"))
    else
      Return(if |parts| > 1 && parts[1] in FileSizeFactor then Rounded(FileSizeFactor[parts[1]], ParseFloat(parts[0])) else NaN)
  }

  /** `Math.round(factor * x)`, shared by both revisions' file-size parsers; `NaN` stays `NaN`. */
  function Rounded(factor: nat, x: Option<real>): (r: Value)
    ensures r.Number? <==> x.Some?
    ensures r.Number? ==> r.x - 0.5 <= factor as real * x.value < r.x + 0.5
  {
    if x.Some? then Number(Round(factor as real * x.value) as real) else NaN
  }

  /** `_parseSamplingRate`: exactly two tokens, a known unit, and a decimal value. */
  function ParseSamplingRate(bail: bool, s: string): (r: Outcome<Value>)
    ensures |Split(s, ' ')| != 2 ==> r == Warn(bail, Unparsable("sampling rate string", s))
    ensures |Split(s, ' ')| == 2 && Split(s, ' ')[1] !in SamplingRateFactor
            ==> r == Warn(bail, Unparsable("sampling rate unit", Split(s, ' ')[1]))
  {
    var parts := Split(s, ' ');
    if |parts| != 2 then Warn(bail, Unparsable("sampling rate string", s))
    else if parts[1] !in SamplingRateFactor then
      Warn(bail, Unparsable("sampling rate unit", parts[1]))
    else if !IsDecimal(parts[0]) then Warn(bail, Unparsable("sampling rate value", parts[0]))
    else
      var x := ParseFloat(parts[0]);
      Return(if x.Some? then Number(SamplingRateFactor[parts[1]] * x.value) else NaN)
  }

  /** `parseInt(matches[1], 10) * factor[matches[2]]` */
  function Seconds(t: TimeToken): real
    requires IsDigits(t.amount) && t.unit in TimeFactor
  {
    DigitsValue(t.amount) as real * TimeFactor[t.unit]
  }

  /**
   * The rest of `_parseDuration` once `acc` seconds have been added up: each token must match
   * `^(\d+)(\w+)$` (a failed match throws a TypeError whatever `bail` says) and name a known unit.
   */
  function DurationFrom(bail: bool, parts: seq<string>, acc: real): Outcome<Value>
    decreases |parts|
  {
    if parts == [] then Return(Number(acc))
    else
      match MatchTimeToken(parts[0])
      case None => Throw(NullMatchError)
      case Some(t) =>
        if t.unit !in TimeFactor then Warn(bail, Unparsable("time unit", t.unit))
        else DurationFrom(bail, parts[1..], acc + Seconds(t))
  }

  /** One token of the loop in `ParseDuration`. */
  lemma DurationAdvance(bail: bool, parts: seq<string>, i: nat, acc: real, total: Outcome<Value>)
    requires i < |parts| && total == DurationFrom(bail, parts[i..], acc)
    ensures MatchTimeToken(parts[i]).None? ==> total == Throw(NullMatchError)
    ensures MatchTimeToken(parts[i]).Some? ==>
              var t := MatchTimeToken(parts[i]).value;
              && IsDigits(t.amount)
              && (t.unit !in TimeFactor ==> total == Warn(bail, Unparsable("time unit", t.unit)))
              && (t.unit in TimeFactor ==> total == DurationFrom(bail, parts[i + 1..], acc + Seconds(t)))
  {
    assert parts[i..][0] == parts[i] && parts[i..][1..] == parts[i + 1..];
    MatchTimeTokenShape(parts[i]);
  }

  /** What `_parseDuration` computes. */
  function Duration(bail: bool, s: string): Outcome<Value> {
    DurationFrom(bail, Split(s, ' '), 0.0)
  }

  /** `_parseIntUnit` */
  function ParseIntUnit(bail: bool, s: string, units: seq<string>, separated: bool): (r: Outcome<Value>)
    ensures MatchIntUnit(s, units, separated).None? ==> r == Warn(bail, Unparsable("int value", s))
    ensures MatchIntUnit(s, units, separated).Some? ==> r.Return? && r.value.Number?
  {
    match MatchIntUnit(s, units, separated)
    case None => Warn(bail, Unparsable("int value", s))
    case Some(n) =>
      var digits := if separated then RemoveSpaces(n) else n;
      assert IsDigits(digits) by {
        if separated { GroupedIntWithoutSpaces(n, separated); } else { GroupedIntUnseparated(n); }
      }
      ParseIntDigits(digits);
      Return(FromNat(ParseInt(digits)))
  }

  /** `_parseFloatUnit` */
  function ParseFloatUnit(bail: bool, s: string, unit: string): (r: Outcome<Value>)
    ensures MatchFloatUnit(s, unit).None? ==> r == Warn(bail, Unparsable("float value", s))
    ensures MatchFloatUnit(s, unit).Some? ==> r.Return? && r.value.Number?
  {
    match MatchFloatUnit(s, unit)
    case None => Warn(bail, Unparsable("float value", s))
    case Some(n) => Return(FromReal(ParseFloat(n)))
  }

  // ---------------------------------------------------------------------------------------------
  // Dispatch

  /** The property names `_normalizeTrack` handles, and how. */
  const TrackKinds: map<string, Kind> := map[
    "format_settings__floor" := AsInt,
    "id" := AsInt,
    "streamid" := AsInt,
    "bits__pixel_frame_" := AsFloat,
    "default" := AsBool,
    "forced" := AsBool,
    "format_settings__bvop" := AsBool,
    "format_settings__qpel" := AsBool,
    "format_settings__cabac" := AsBool,
    "duration" := AsDuration,
    "delay_relative_to_video" := AsDuration,
    "width" := AsIntUnit(["pixels"], true),
    "height" := AsIntUnit(["pixels"], true),
    "original_width" := AsIntUnit(["pixels"], true),
    "original_height" := AsIntUnit(["pixels"], true),
    "original_frame_rate" := AsFloatUnit("fps"),
    "frame_rate" := AsFloatUnit("fps"),
    "format_settings__reframes" := AsIntUnit(["frames"], false),
    "channel_s_" := AsIntUnit(["channels", "channel"], false),
    "bit_depth" := AsIntUnit(["bits"], false),
    "bit_rate" := AsBitrate,
    "maximum_bit_rate" := AsBitrate,
    "minimum_bit_rate" := AsBitrate,
    "nominal_bit_rate" := AsBitrate,
    "sampling_rate" := AsSamplingRate,
    "stream_size" := AsFileSize,
    "bit_rate_mode" := Passthrough,
    "channel_positions" := Passthrough,
    "chroma_subsampling" := Passthrough,
    "codec_id" := Passthrough,
    "codec_id_info" := Passthrough,
    "color_primaries" := Passthrough,
    "color_space" := Passthrough,
    "compression_mode" := Passthrough,
    "display_aspect_ratio" := Passthrough,
    "encoded_application_url" := Passthrough,
    "encoding_settings" := Passthrough,
    "format" := Passthrough,
    "format_info" := Passthrough,
    "format_profile" := Passthrough,
    "format_settings__endianness" := Passthrough,
    "frame_rate_mode" := Passthrough,
    "language" := Passthrough,
    "matrix_coefficients" := Passthrough,
    "mode" := Passthrough,
    "mode_extension" := Passthrough,
    "muxing_mode" := Passthrough,
    "original_display_aspect_ratio" := Passthrough,
    "scan_type" := Passthrough,
    "standard" := Passthrough,
    "title" := Passthrough,
    "transfer_characteristics" := Passthrough,
    "type" := Passthrough,
    "writing_application" := Passthrough,
    "writing_library" := Passthrough]

  /** The property names `_normalizeInfo` handles, and how. */
  const InfoKinds: map<string, Kind> := map[
    "attachment" := AsBool,
    "duration" := AsDuration,
    "file_size" := AsFileSize,
    "overall_bit_rate" := AsIntUnit(["bps"], true),
    "encoded_date" := AsDate,
    "complete_name" := Passthrough,
    "format" := Passthrough,
    "format_version" := Passthrough,
    "movie_name" := Passthrough,
    "overall_bit_rate_mode" := Passthrough,
    "tracks" := Passthrough,
    "unique_id" := Passthrough,
    "writing_application" := Passthrough,
    "writing_library" := Passthrough]

  /** One case of the `switch` in `_normalizeTrack` / `_normalizeInfo`. */
  function Convert(bail: bool, kind: Kind, s: string): Outcome<Value> {
    match kind
    case AsInt => Return(FromNat(ParseInt(s)))
    case AsFloat => Return(FromReal(ParseFloat(s)))
    case AsBool => ParseBool(bail, s)
    case AsDuration => Duration(bail, s)
    case AsIntUnit(units, separated) => ParseIntUnit(bail, s, units, separated)
    case AsFloatUnit(unit) => ParseFloatUnit(bail, s, unit)
    case AsBitrate => ParseBitrate(bail, s)
    case AsSamplingRate => ParseSamplingRate(bail, s)
    case AsFileSize => ParseFileSize(bail, s)
    case AsDate => Return(EncodedDate(s))
    case Passthrough => Return(Text(s))
  }

  /** The property is rewritten at all: it is in the table, and it is not a chapter marker of a track. */
  predicate Handled(kinds: map<string, Kind>, skipReserved: bool, key: string) {
    !(skipReserved && IsReservedKey(key)) && key in kinds && kinds[key] != Passthrough
  }

  /**
   * The new value of one property; names outside the table are only logged. A value that is not
   * text (never the case for `mediainfo` output) is left alone.
   */
  function NormalizeEntry(bail: bool, kinds: map<string, Kind>, skipReserved: bool, e: Entry): Outcome<Value>
  {
    if skipReserved && IsReservedKey(e.key) then Return(e.value)
    else if e.key in kinds && e.value.Text? then Convert(bail, kinds[e.key], e.value.s)
    else Return(e.value)
  }

  function Prefixed<T>(done: seq<T>, p: Partial<seq<T>>): Partial<seq<T>> {
    Partial(done + p.state, p.error)
  }

  /**
   * One `_.each` pass over a bag, rewriting each property in order; a parser that throws ends the
   * pass and leaves that property and every later one as it was.
   */
  function NormalizeBag(bail: bool, kinds: map<string, Kind>, skipReserved: bool, bag: Bag): Partial<Bag>
    decreases |bag|
  {
    if bag == [] then Partial([], None)
    else
      match NormalizeEntry(bail, kinds, skipReserved, bag[0])
      case Throw(m) => Partial(bag, Some(m))
      case Return(v) => Prefixed([Entry(bag[0].key, v)], NormalizeBag(bail, kinds, skipReserved, bag[1..]))
  }

  lemma Associative<T>(a: seq<T>, b: seq<T>, c: seq<T>)
    ensures a + (b + c) == (a + b) + c
  {
  }

  /** One more property of the loop in `NormalizeEntries`. */
  lemma NormalizeBagAdvance(bail: bool, kinds: map<string, Kind>, skipReserved: bool, bag: Bag, done: Bag, i: nat)
    requires i < |bag| && |done| == i
    requires NormalizeBag(bail, kinds, skipReserved, bag)
             == Prefixed(done, NormalizeBag(bail, kinds, skipReserved, bag[i..]))
    ensures var o := NormalizeEntry(bail, kinds, skipReserved, bag[i]);
            && (o.Throw? ==> NormalizeBag(bail, kinds, skipReserved, bag) == Partial(done + bag[i..], Some(o.message)))
            && (o.Return? ==>
                  NormalizeBag(bail, kinds, skipReserved, bag)
                  == Prefixed(done + [Entry(bag[i].key, o.value)], NormalizeBag(bail, kinds, skipReserved, bag[i + 1..])))
  {
    assert bag[i..][0] == bag[i] && bag[i..][1..] == bag[i + 1..];
    var o := NormalizeEntry(bail, kinds, skipReserved, bag[i]);
    if o.Return? {
      Associative(done, [Entry(bag[i].key, o.value)], NormalizeBag(bail, kinds, skipReserved, bag[i + 1..]).state);
    }
  }

  /** The tracks pass of `normalize`, stopping at the first track that throws. */
  function NormalizeTracks(bail: bool, tracks: seq<Bag>): Partial<seq<Bag>>
    decreases |tracks|
  {
    if tracks == [] then Partial([], None)
    else
      var p := NormalizeBag(bail, TrackKinds, true, tracks[0]);
      if p.error.Some? then Partial([p.state] + tracks[1..], p.error)
      else
        var rest := NormalizeTracks(bail, tracks[1..]);
        Partial([p.state] + rest.state, rest.error)
  }

  /** How the slices of a sequence relate after element `j` of it is replaced. */
  lemma UpdateSlices<T>(s0: seq<T>, before: seq<T>, after: seq<T>, j: nat)
    requires |before| == |s0| && j < |s0| && before[j..] == s0[j..]
    requires |after| == |before| && after == before[j := after[j]]
    ensures s0[j..][1..] == s0[j + 1..] && after[j + 1..] == s0[j + 1..]
    ensures after[..j + 1] == before[..j] + [after[j]]
    ensures after == before[..j] + ([after[j]] + s0[j + 1..])
  {
    assert s0[j..][1..] == s0[j + 1..];
    assert after[j + 1..] == before[j + 1..];
    assert before[j + 1..] == before[j..][1..];
  }

  /** One more track of the loop in `NormalizeEachTrack`. */
  lemma NormalizeTracksAdvance(bail: bool, tracks0: seq<Bag>, before: seq<Bag>, after: seq<Bag>, j: nat, error: Option<string>)
    requires |before| == |tracks0| && j < |tracks0|
    requires before[j..] == tracks0[j..]
    requires NormalizeTracks(bail, tracks0) == Prefixed(before[..j], NormalizeTracks(bail, tracks0[j..]))
    requires |after| == |before| && after == before[j := after[j]]
    requires Partial(after[j], error) == NormalizeBag(bail, TrackKinds, true, before[j])
    ensures after[j + 1..] == tracks0[j + 1..]
    ensures error.Some? ==> Partial(after, error) == NormalizeTracks(bail, tracks0)
    ensures error.None? ==> NormalizeTracks(bail, tracks0) == Prefixed(after[..j + 1], NormalizeTracks(bail, tracks0[j + 1..]))
  {
    UpdateSlices(tracks0, before, after, j);
    assert tracks0[j..][0] == before[j];
    if error.Some? {
    } else {
      Associative(before[..j], [after[j]], NormalizeTracks(bail, tracks0[j + 1..]).state);
    }
  }

  /** What `normalize` leaves behind: the info bag first, then every track. */
  function NormalizeData(bail: bool, d: MediaData): Partial<MediaData>
  {
    var p := NormalizeBag(bail, InfoKinds, false, d.info);
    if p.error.Some? then Partial(MediaData(p.state, d.tracks), p.error)
    else
      var t := NormalizeTracks(bail, d.tracks);
      Partial(MediaData(p.state, t.state), t.error)
  }

  // ---------------------------------------------------------------------------------------------
  // The normaliser object

  class MediaInfoNormalizer {
    const bail: bool

    /** `bail` defaults to false. */
    constructor (bailOption: Option<bool>)
      ensures bail == bailOption.GetOr(false)
    {
      bail := bailOption.GetOr(false);
    }

    /** `_parseDuration`: adds up the tokens one at a time. */
    method ParseDuration(s: string) returns (r: Outcome<Value>)
      ensures r == Duration(bail, s)
    {
      var parts := Split(s, ' ');
      var result := 0.0;
      var i := 0;
      assert parts[0..] == parts;
      while i < |parts|
        invariant 0 <= i <= |parts|
        invariant Duration(bail, s) == DurationFrom(bail, parts[i..], result)
      {
        DurationAdvance(bail, parts, i, result, Duration(bail, s));
        var matches := MatchTimeToken(parts[i]);
        if matches.None? {
          return Throw(NullMatchError);
        }
        var t := matches.value;
        if t.unit !in TimeFactor {
          return Warn(bail, Unparsable("time unit", t.unit));
        }
        result := result + Seconds(t);
        i := i + 1;
      }
      return Return(Number(result));
    }

    /** The callback of the `_.each` loop: the new value of one property, or what it threw. */
    method NormalizeProperty(kinds: map<string, Kind>, skipReserved: bool, e: Entry) returns (o: Outcome<Value>)
      ensures o == NormalizeEntry(bail, kinds, skipReserved, e)
    {
      if skipReserved && IsReservedKey(e.key) {
        o := Return(e.value);
      } else if e.key in kinds && e.value.Text? {
        if kinds[e.key] == AsDuration {
          o := ParseDuration(e.value.s);
        } else {
          o := Convert(bail, kinds[e.key], e.value.s);
        }
      } else {
        o := Return(e.value);
      }
    }

    /** The `_.each` loop of `_normalizeTrack` and `_normalizeInfo`. */
    method NormalizeEntries(bag: Bag, kinds: map<string, Kind>, skipReserved: bool) returns (p: Partial<Bag>)
      ensures p == NormalizeBag(bail, kinds, skipReserved, bag)
    {
      var done: Bag := [];
      var i := 0;
      assert bag[0..] == bag;
      assert [] + NormalizeBag(bail, kinds, skipReserved, bag).state == NormalizeBag(bail, kinds, skipReserved, bag).state;
      while i < |bag|
        invariant 0 <= i <= |bag| && |done| == i
        invariant NormalizeBag(bail, kinds, skipReserved, bag)
                  == Prefixed(done, NormalizeBag(bail, kinds, skipReserved, bag[i..]))
      {
        var o := NormalizeProperty(kinds, skipReserved, bag[i]);
        NormalizeBagAdvance(bail, kinds, skipReserved, bag, done, i);
        if o.Throw? {
          return Partial(done + bag[i..], Some(o.message));
        }
        done := done + [Entry(bag[i].key, o.value)];
        i := i + 1;
      }
      assert bag[i..] == [] && done + [] == done;
      return Partial(done, None);
    }

    /** `_normalizeInfo`: rewrites the info bag in place. */
    method NormalizeInfo(m: MediaInfo) returns (error: Option<string>)
      modifies m
      ensures Partial(m.info, error) == NormalizeBag(bail, InfoKinds, false, old(m.info))
      ensures m.tracks == old(m.tracks)
    {
      var p := NormalizeEntries(m.info, InfoKinds, false);
      m.info := p.state;
      error := p.error;
    }

    /** `_normalizeTrack`: rewrites track `j` in place. */
    method NormalizeTrack(m: MediaInfo, j: nat) returns (error: Option<string>)
      requires j < |m.tracks|
      modifies m
      ensures |m.tracks| == |old(m.tracks)|
      ensures Partial(m.tracks[j], error) == NormalizeBag(bail, TrackKinds, true, old(m.tracks[j]))
      ensures m.tracks == old(m.tracks)[j := m.tracks[j]] && m.info == old(m.info)
    {
      var p := NormalizeEntries(m.tracks[j], TrackKinds, true);
      m.tracks := m.tracks[j := p.state];
      error := p.error;
    }

    /** The `forEach` over the tracks in `normalize`. */
    method NormalizeEachTrack(m: MediaInfo) returns (error: Option<string>)
      modifies m
      ensures m.info == old(m.info)
      ensures Partial(m.tracks, error) == NormalizeTracks(bail, old(m.tracks))
    {
      error := None;
      ghost var tracks0 := m.tracks;
      var j := 0;
      assert tracks0[0..] == tracks0;
      assert m.tracks[..0] + NormalizeTracks(bail, tracks0).state == NormalizeTracks(bail, tracks0).state;
      while j < |m.tracks|
        invariant 0 <= j <= |m.tracks| == |tracks0|
        invariant m.info == old(m.info) && error.None?
        invariant m.tracks[j..] == tracks0[j..]
        invariant NormalizeTracks(bail, tracks0) == Prefixed(m.tracks[..j], NormalizeTracks(bail, tracks0[j..]))
      {
        ghost var before := m.tracks;
        error := NormalizeTrack(m, j);
        NormalizeTracksAdvance(bail, tracks0, before, m.tracks, j, error);
        if error.Some? {
          return;
        }
        j := j + 1;
      }
      assert tracks0[j..] == [] && m.tracks[..j] + [] == m.tracks;
    }

    /** `normalize`: the info bag, then every track, all in place; the same object is returned. */
    method Normalize(m: MediaInfo) returns (r: MediaInfo, error: Option<string>)
      modifies m
      ensures r == m
      ensures Partial(m.Data(), error) == NormalizeData(bail, old(m.Data()))
    {
      r := m;
      error := NormalizeInfo(m);
      if error.None? {
        error := NormalizeEachTrack(m);
      }
    }
  }
}
