/**
 * The first normaliser (`guerrero.MediaInfoNormalizer`, a stateless singleton). It dispatches the
 * same property names to the same kinds of parsers as the current revision, but a failed check is
 * only logged: the parser computes its result anyway, and a missing multiplier turns it into
 * `NaN`. Only a malformed duration token throws.
 */
module LegacyNormalizer {
  import opened Wrappers
  import opened Text
  import opened Patterns
  import opened Media
  import N = Normalizer

  // ---------------------------------------------------------------------------------------------
  // Multiplier tables, with the literals as written (`10e3` is ten thousand)

  const BitrateFactor: map<string, real> := map[
    "Mbps" := 10000000.0,
    "Kbps" := 10000.0,
    "bps" := 1.0]

  /** `Math.pow(2, 10 * k)` for `Bytes` up to `TiB`. */
  const FileSizeFactor: map<string, nat> := map[
    "TiB" := 1099511627776,
    "GiB" := 1073741824,
    "MiB" := 1048576,
    "KiB" := 1024,
    "Bytes" := 1]

  /**
   * The older tables are the current ones without `Gbps` and `Tbps` and without `PiB`; the
   * sampling-rate and time tables did not change.
   */
  lemma TablesIncluded()
    ensures forall u :: u in BitrateFactor ==> u in N.BitrateFactor && N.BitrateFactor[u] == BitrateFactor[u]
    ensures forall u :: u in FileSizeFactor ==> u in N.FileSizeFactor && N.FileSizeFactor[u] == FileSizeFactor[u]
    ensures "Gbps" !in BitrateFactor && "Tbps" !in BitrateFactor && "PiB" !in FileSizeFactor
    ensures "Gbps" in N.BitrateFactor && "Tbps" in N.BitrateFactor && "PiB" in N.FileSizeFactor
  {
  }

  // ---------------------------------------------------------------------------------------------
  // Parsers

  /** `parseBool`: anything but `Yes` and `No` is logged and becomes `null`. */
  function ParseBool(s: string): Value {
    if s == "Yes" then Flag(true)
    else if s == "No" then Flag(false)
    else Null
  }

  /**
   * `parseBitrate`: `mult[unit] * parseFloat(v.replace(/ /g, ''))` after two checks that only
   * log; an unknown unit has no multiplier and the product is `NaN`.
   */
  function ParseBitrate(s: string): Value {
    var parts := Split(s, ' ');
    var unit := Last(parts);
    if unit in BitrateFactor then N.Scaled(BitrateFactor[unit], Join(parts[..|parts| - 1], "")) else NaN
  }

  /**
   * `parseFileSize`: `Math.round(mult[parts[1]] * parseFloat(parts[0]))`; a missing second token
   * or an unknown unit has no multiplier.
   */
  function ParseFileSize(s: string): Value {
    var parts := Split(s, ' ');
    if |parts| >= 2 && parts[1] in FileSizeFactor then N.Rounded(FileSizeFactor[parts[1]], ParseFloat(parts[0])) else NaN
  }

  /** `parseSamplingRate`: `mult[parts[1]] * parseFloat(parts[0])`. */
  function ParseSamplingRate(s: string): Value {
    var parts := Split(s, ' ');
    var x := ParseFloat(parts[0]);
    if |parts| >= 2 && parts[1] in N.SamplingRateFactor && x.Some? then
      Number(N.SamplingRateFactor[parts[1]] * x.value)
    else NaN
  }

  /**
   * The rest of `parseTime` once `acc` seconds were added up (`None` once the sum is `NaN`): a
   * token that does not match `^(\d+)(\w+)$` throws, an unknown unit makes the sum `NaN`, and the
   * loop goes on either way.
   */
  function TimeFrom(parts: seq<string>, acc: Option<real>): Outcome<Value>
    decreases |parts|
  {
    if parts == [] then Return(if acc.Some? then Number(acc.value) else NaN)
    else
      match MatchTimeToken(parts[0])
      case None => Throw(NullMatchError)
      case Some(t) =>
        TimeFrom(parts[1..], AddSeconds(acc, t))
  }

  /** `result += parseInt(pss[1], 10) * mult[pss[2]]`, where `NaN` absorbs everything. */
  function AddSeconds(acc: Option<real>, t: TimeToken): Option<real>
    requires IsDigits(t.amount)
  {
    if acc.Some? && t.unit in N.TimeFactor then Some(acc.value + N.Seconds(t)) else None
  }

  /** What `parseTime` computes. */
  function Time(s: string): Outcome<Value> {
    TimeFrom(Split(s, ' '), Some(0.0))
  }

  /** One token of the loop in `ParseTime`. */
  lemma {:induction false} TimeAdvance(parts: seq<string>, i: nat, acc: Option<real>, total: Outcome<Value>)
    requires i < |parts| && total == TimeFrom(parts[i..], acc)
    ensures MatchTimeToken(parts[i]).None? ==> total == Throw(NullMatchError)
    ensures MatchTimeToken(parts[i]).Some? ==>
              var t := MatchTimeToken(parts[i]).value;
              && IsDigits(t.amount)
              && total == TimeFrom(parts[i + 1..], AddSeconds(acc, t))
  {
    assert parts[i..][0] == parts[i] && parts[i..][1..] == parts[i + 1..];
    MatchTimeTokenShape(parts[i]);
  }

  /** `parseTime`: the `forEach` over the tokens, adding to `result` (`None` stands for `NaN`). */
  method ParseTime(s: string) returns (r: Outcome<Value>)
    ensures r == Time(s)
  {
    var parts := Split(s, ' ');
    var result: Option<real> := Some(0.0);
    var i := 0;
    ghost var total := Time(s);
    assert parts[0..] == parts;
    while i < |parts|
      invariant 0 <= i <= |parts|
      invariant total == TimeFrom(parts[i..], result)
    {
      TimeAdvance(parts, i, result, total);
      var pss := MatchTimeToken(parts[i]);
      if pss.None? {
        return Throw(NullMatchError);
      }
      result := AddSeconds(result, pss.value);
      i := i + 1;
    }
    return Return(if result.Some? then Number(result.value) else NaN);
  }

  /** `parseIntUnit`: `null` when the pattern does not match. */
  function ParseIntUnit(s: string, units: seq<string>, separated: bool): Value {
    match MatchIntUnit(s, units, separated)
    case None => Null
    case Some(n) =>
      var digits := if separated then RemoveSpaces(n) else n;
      N.FromNat(ParseInt(digits))
  }

  /** `parseFloatUnit`: `null` when the pattern does not match. */
  function ParseFloatUnit(s: string, unit: string): Value {
    match MatchFloatUnit(s, unit)
    case None => Null
    case Some(n) => N.FromReal(ParseFloat(n))
  }

  // ---------------------------------------------------------------------------------------------
  // Dispatch

  /** One case of the `switch` in `normalizeTrack` / `normalizeInfo`; only durations can throw. */
  function Convert(kind: Kind, s: string): Outcome<Value> {
    match kind
    case AsInt => Return(N.FromNat(ParseInt(s)))
    case AsFloat => Return(N.FromReal(ParseFloat(s)))
    case AsBool => Return(ParseBool(s))
    case AsDuration => Time(s)
    case AsIntUnit(units, separated) => Return(ParseIntUnit(s, units, separated))
    case AsFloatUnit(unit) => Return(ParseFloatUnit(s, unit))
    case AsBitrate => Return(ParseBitrate(s))
    case AsSamplingRate => Return(ParseSamplingRate(s))
    case AsFileSize => Return(ParseFileSize(s))
    case AsDate => Return(EncodedDate(s))
    case Passthrough => Return(Text(s))
  }

  /** The new value of one property; the name tables are the current revision's. */
  function NormalizeEntry(kinds: map<string, Kind>, skipReserved: bool, e: Entry): Outcome<Value> {
    if skipReserved && IsReservedKey(e.key) then Return(e.value)
    else if e.key in kinds && e.value.Text? then Convert(kinds[e.key], e.value.s)
    else Return(e.value)
  }

  /** The `_.each` over a bag; a throw leaves the property and every later one as it was. */
  function NormalizeBag(kinds: map<string, Kind>, skipReserved: bool, bag: Bag): Partial<Bag>
    decreases |bag|
  {
    if bag == [] then Partial([], None)
    else
      match NormalizeEntry(kinds, skipReserved, bag[0])
      case Throw(m) => Partial(bag, Some(m))
      case Return(v) => N.Prefixed([Entry(bag[0].key, v)], NormalizeBag(kinds, skipReserved, bag[1..]))
  }

  /** The `forEach` over the tracks, stopping at the first track that throws. */
  function NormalizeTracks(tracks: seq<Bag>): Partial<seq<Bag>>
    decreases |tracks|
  {
    if tracks == [] then Partial([], None)
    else
      var p := NormalizeBag(N.TrackKinds, true, tracks[0]);
      if p.error.Some? then Partial([p.state] + tracks[1..], p.error)
      else
        var rest := NormalizeTracks(tracks[1..]);
        Partial([p.state] + rest.state, rest.error)
  }

  /** What `normalize` leaves behind: the info bag first, then every track. */
  function NormalizeData(d: MediaData): Partial<MediaData> {
    var p := NormalizeBag(N.InfoKinds, false, d.info);
    if p.error.Some? then Partial(MediaData(p.state, d.tracks), p.error)
    else
      var t := NormalizeTracks(d.tracks);
      Partial(MediaData(p.state, t.state), t.error)
  }

  // ---------------------------------------------------------------------------------------------
  // The in-place passes

  /** One more property of the loop in `RewriteBag`, which overwrites `bag[i]` in place. */
  lemma {:induction false} BagAdvance(kinds: map<string, Kind>, skipReserved: bool, bag0: Bag, before: Bag, after: Bag, i: nat)
    requires |before| == |bag0| && i < |bag0| && before[i..] == bag0[i..]
    requires NormalizeBag(kinds, skipReserved, bag0) == N.Prefixed(before[..i], NormalizeBag(kinds, skipReserved, bag0[i..]))
    requires var o := NormalizeEntry(kinds, skipReserved, bag0[i]);
             o.Return? ==> after == before[i := Entry(bag0[i].key, o.value)]
    ensures var o := NormalizeEntry(kinds, skipReserved, bag0[i]);
            && (o.Throw? ==> NormalizeBag(kinds, skipReserved, bag0) == Partial(before, Some(o.message)))
            && (o.Return? ==>
                  && after[i + 1..] == bag0[i + 1..]
                  && NormalizeBag(kinds, skipReserved, bag0)
                     == N.Prefixed(after[..i + 1], NormalizeBag(kinds, skipReserved, bag0[i + 1..])))
  {
    var o := NormalizeEntry(kinds, skipReserved, bag0[i]);
    assert bag0[i..][0] == bag0[i];
    if o.Throw? {
      assert before[..i] + bag0[i..] == before;
    } else {
      N.UpdateSlices(bag0, before, after, i);
      N.Associative(before[..i], [after[i]], NormalizeBag(kinds, skipReserved, bag0[i + 1..]).state);
    }
  }

  /** The `_.each` loop: rewrites the properties of `bag` one by one, in place. */
  method RewriteBag(bag: Bag, kinds: map<string, Kind>, skipReserved: bool) returns (b: Bag, error: Option<string>)
    ensures Partial(b, error) == NormalizeBag(kinds, skipReserved, bag)
  {
    b := bag;
    var i := 0;
    assert bag[0..] == bag;
    assert b[..0] + NormalizeBag(kinds, skipReserved, bag).state == NormalizeBag(kinds, skipReserved, bag).state;
    while i < |b|
      invariant 0 <= i <= |b| == |bag|
      invariant b[i..] == bag[i..]
      invariant NormalizeBag(kinds, skipReserved, bag) == N.Prefixed(b[..i], NormalizeBag(kinds, skipReserved, bag[i..]))
    {
      var o := NormalizeEntry(kinds, skipReserved, b[i]);
      ghost var before := b;
      if o.Throw? {
        BagAdvance(kinds, skipReserved, bag, before, before, i);
        return b, Some(o.message);
      }
      b := b[i := Entry(b[i].key, o.value)];
      BagAdvance(kinds, skipReserved, bag, before, b, i);
      i := i + 1;
    }
    assert bag[i..] == [] && b[..i] + [] == b;
    error := None;
  }

  /** `normalizeInfo(info)` */
  method NormalizeInfo(m: MediaInfo) returns (error: Option<string>)
    modifies m
    ensures Partial(m.info, error) == NormalizeBag(N.InfoKinds, false, old(m.info))
    ensures m.tracks == old(m.tracks)
  {
    m.info, error := RewriteBag(m.info, N.InfoKinds, false);
  }

  /** `normalizeTrack(track)` for track `j`. */
  method NormalizeTrack(m: MediaInfo, j: nat) returns (error: Option<string>)
    requires j < |m.tracks|
    modifies m
    ensures |m.tracks| == |old(m.tracks)|
    ensures Partial(m.tracks[j], error) == NormalizeBag(N.TrackKinds, true, old(m.tracks[j]))
    ensures m.tracks == old(m.tracks)[j := m.tracks[j]] && m.info == old(m.info)
  {
    var b;
    b, error := RewriteBag(m.tracks[j], N.TrackKinds, true);
    m.tracks := m.tracks[j := b];
  }

  /** One more track of the loop in `Normalize`. */
  lemma {:induction false} TracksAdvance(tracks0: seq<Bag>, before: seq<Bag>, after: seq<Bag>, j: nat, error: Option<string>)
    requires |before| == |tracks0| && j < |tracks0|
    requires before[j..] == tracks0[j..]
    requires NormalizeTracks(tracks0) == N.Prefixed(before[..j], NormalizeTracks(tracks0[j..]))
    requires |after| == |before| && after == before[j := after[j]]
    requires Partial(after[j], error) == NormalizeBag(N.TrackKinds, true, before[j])
    ensures after[j + 1..] == tracks0[j + 1..]
    ensures error.Some? ==> Partial(after, error) == NormalizeTracks(tracks0)
    ensures error.None? ==> NormalizeTracks(tracks0) == N.Prefixed(after[..j + 1], NormalizeTracks(tracks0[j + 1..]))
  {
    N.UpdateSlices(tracks0, before, after, j);
    assert tracks0[j..][0] == before[j];
    if error.None? {
      N.Associative(before[..j], [after[j]], NormalizeTracks(tracks0[j + 1..]).state);
    }
  }

  /** `normalize`: the info bag, then every track, all in place; the same object is returned. */
  method Normalize(m: MediaInfo) returns (r: MediaInfo, error: Option<string>)
    modifies m
    ensures r == m
    ensures Partial(m.Data(), error) == NormalizeData(old(m.Data()))
  {
    r := m;
    error := NormalizeInfo(m);
    if error.Some? {
      return;
    }
    ghost var tracks0 := m.tracks;
    var j := 0;
    assert tracks0[0..] == tracks0;
    assert m.tracks[..0] + NormalizeTracks(tracks0).state == NormalizeTracks(tracks0).state;
    while j < |m.tracks|
      invariant 0 <= j <= |m.tracks| == |tracks0|
      invariant m.info == NormalizeBag(N.InfoKinds, false, old(m.info)).state && error.None?
      invariant m.tracks[j..] == tracks0[j..]
      invariant NormalizeTracks(tracks0) == N.Prefixed(m.tracks[..j], NormalizeTracks(tracks0[j..]))
    {
      ghost var before := m.tracks;
      error := NormalizeTrack(m, j);
      TracksAdvance(tracks0, before, m.tracks, j, error);
      if error.Some? {
        return;
      }
      j := j + 1;
    }
    assert tracks0[j..] == [] && m.tracks[..j] + [] == m.tracks;
  }
}
