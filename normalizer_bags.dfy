/**
 * What a normalisation pass does to a whole bag, to the list of tracks and to the info object:
 * every property keeps its name and place, the parsed ones are rewritten one by one in order, a
 * throw stops the pass where it happened, and a second pass changes nothing.
 */
module NormalizerBags {
  import opened Wrappers
  import opened Text
  import opened Patterns
  import opened Media
  import opened Normalizer
  import opened NormalizerFacts

  // ---------------------------------------------------------------------------------------------
  // One property

  /** Names outside the table, passthrough names and chapter markers keep their value. */
  lemma {:induction false} NormalizeEntryUnhandled(bail: bool, kinds: map<string, Kind>, skipReserved: bool, e: Entry)
    requires !Handled(kinds, skipReserved, e.key)
    ensures NormalizeEntry(bail, kinds, skipReserved, e) == Return(e.value)
  {
  }

  /** Without `bail` a parser reports a bad value as `null`; only a malformed duration token throws. */
  lemma {:induction false} ConvertQuiet(kind: Kind, s: string)
    ensures Convert(false, kind, s).Throw? ==> kind == AsDuration && Convert(false, kind, s) == Throw(NullMatchError)
  {
    if kind == AsDuration {
      DurationFromOutcomes(false, Split(s, ' '), 0.0);
    }
  }

  /** Without `bail`, a property throws only when it is a malformed duration. */
  lemma {:induction false} NormalizeEntryQuiet(kinds: map<string, Kind>, skipReserved: bool, e: Entry)
    ensures NormalizeEntry(false, kinds, skipReserved, e).Throw? ==> NormalizeEntry(false, kinds, skipReserved, e) == Throw(NullMatchError)
  {
    if !(skipReserved && IsReservedKey(e.key)) && e.key in kinds && e.value.Text? {
      ConvertQuiet(kinds[e.key], e.value.s);
    }
  }

  /** A parsed value is never text: after a pass, only passthrough names keep a text value. */
  lemma {:induction false} ConvertLeavesNoText(bail: bool, kind: Kind, s: string)
    requires kind != Passthrough
    ensures Convert(bail, kind, s).Return? ==> !Convert(bail, kind, s).value.Text?
  {
    if kind == AsDuration {
      DurationFromOutcomes(bail, Split(s, ' '), 0.0);
    }
  }

  // ---------------------------------------------------------------------------------------------
  // One bag

  /**
   * `state` is `bag` with its first `k` properties rewritten, each under its own name and none of
   * them throwing, and the others untouched.
   */
  predicate RewrittenUpTo(bail: bool, kinds: map<string, Kind>, skipReserved: bool, bag: Bag, state: Bag, k: nat) {
    && |state| == |bag| && k <= |bag|
    && (forall i :: 0 <= i < k ==>
          state[i].key == bag[i].key && NormalizeEntry(bail, kinds, skipReserved, bag[i]) == Return(state[i].value))
    && state[k..] == bag[k..]
  }

  /** Rewriting one more property in front of a rewritten rest. */
  lemma {:induction false} RewrittenCons(bail: bool, kinds: map<string, Kind>, skipReserved: bool, bag: Bag, v: Value, rest: Bag, k: nat)
    requires bag != [] && NormalizeEntry(bail, kinds, skipReserved, bag[0]) == Return(v)
    requires RewrittenUpTo(bail, kinds, skipReserved, bag[1..], rest, k)
    ensures RewrittenUpTo(bail, kinds, skipReserved, bag, [Entry(bag[0].key, v)] + rest, k + 1)
  {
    var state := [Entry(bag[0].key, v)] + rest;
    forall i | 0 <= i < k + 1
      ensures state[i].key == bag[i].key && NormalizeEntry(bail, kinds, skipReserved, bag[i]) == Return(state[i].value)
    {
      if i > 0 {
        assert state[i] == rest[i - 1] && bag[i] == bag[1..][i - 1];
      }
    }
    assert state[k + 1..] == rest[k..];
    assert bag[k + 1..] == bag[1..][k..];
  }

  /**
   * The pass over a bag, entry by entry: without an error every property is rewritten; with one,
   * some property `k` threw that message, the ones before it are rewritten and it and the ones
   * after it are left as they were.
   */
  lemma {:induction false} NormalizeBagPointwise(bail: bool, kinds: map<string, Kind>, skipReserved: bool, bag: Bag)
    ensures var p := NormalizeBag(bail, kinds, skipReserved, bag);
            p.error.None? ==> RewrittenUpTo(bail, kinds, skipReserved, bag, p.state, |bag|)
    ensures var p := NormalizeBag(bail, kinds, skipReserved, bag);
            p.error.Some? ==>
              exists k :: 0 <= k < |bag| && RewrittenUpTo(bail, kinds, skipReserved, bag, p.state, k)
                          && NormalizeEntry(bail, kinds, skipReserved, bag[k]) == Throw(p.error.value)
  {
    var p := NormalizeBag(bail, kinds, skipReserved, bag);
    if bag != [] {
      var o := NormalizeEntry(bail, kinds, skipReserved, bag[0]);
      if o.Throw? {
        assert RewrittenUpTo(bail, kinds, skipReserved, bag, p.state, 0);
      } else {
        var q := NormalizeBag(bail, kinds, skipReserved, bag[1..]);
        NormalizeBagPointwise(bail, kinds, skipReserved, bag[1..]);
        assert p.state == [Entry(bag[0].key, o.value)] + q.state && p.error == q.error;
        if q.error.None? {
          RewrittenCons(bail, kinds, skipReserved, bag, o.value, q.state, |bag| - 1);
        } else {
          var k :| 0 <= k < |bag[1..]| && RewrittenUpTo(bail, kinds, skipReserved, bag[1..], q.state, k)
                   && NormalizeEntry(bail, kinds, skipReserved, bag[1..][k]) == Throw(q.error.value);
          RewrittenCons(bail, kinds, skipReserved, bag, o.value, q.state, k);
          assert bag[k + 1] == bag[1..][k];
        }
      }
    }
  }

  /** Every property keeps its name and its place. */
  lemma {:induction false} NormalizeBagKeys(bail: bool, kinds: map<string, Kind>, skipReserved: bool, bag: Bag)
    ensures var p := NormalizeBag(bail, kinds, skipReserved, bag);
            |p.state| == |bag| && forall i :: 0 <= i < |bag| ==> p.state[i].key == bag[i].key
  {
    var p := NormalizeBag(bail, kinds, skipReserved, bag);
    NormalizeBagPointwise(bail, kinds, skipReserved, bag);
    if p.error.Some? {
      var k :| 0 <= k < |bag| && RewrittenUpTo(bail, kinds, skipReserved, bag, p.state, k);
      forall i | k <= i < |bag| ensures p.state[i].key == bag[i].key {
        assert p.state[i] == p.state[k..][i - k];
      }
    }
  }

  /** Without `bail`, the only message that ends a pass is the one of a malformed duration. */
  lemma {:induction false} NormalizeBagQuiet(kinds: map<string, Kind>, skipReserved: bool, bag: Bag)
    ensures var p := NormalizeBag(false, kinds, skipReserved, bag);
            p.error.Some? ==> p.error.value == NullMatchError
  {
    var p := NormalizeBag(false, kinds, skipReserved, bag);
    NormalizeBagPointwise(false, kinds, skipReserved, bag);
    if p.error.Some? {
      var k :| 0 <= k < |bag| && NormalizeEntry(false, kinds, skipReserved, bag[k]) == Throw(p.error.value);
      NormalizeEntryQuiet(kinds, skipReserved, bag[k]);
    }
  }

  /** A bag that is rewritten everywhere is the pass's result without an error. */
  lemma {:induction false} NormalizeBagOfRewritten(bail: bool, kinds: map<string, Kind>, skipReserved: bool, bag: Bag, state: Bag)
    requires RewrittenUpTo(bail, kinds, skipReserved, bag, state, |bag|)
    ensures NormalizeBag(bail, kinds, skipReserved, bag) == Partial(state, None)
  {
    if bag != [] {
      assert state[0].key == bag[0].key;
      assert RewrittenUpTo(bail, kinds, skipReserved, bag[1..], state[1..], |bag| - 1) by {
        forall i | 0 <= i < |bag| - 1
          ensures state[1..][i].key == bag[1..][i].key
               && NormalizeEntry(bail, kinds, skipReserved, bag[1..][i]) == Return(state[1..][i].value)
        {
          assert state[1..][i] == state[i + 1] && bag[1..][i] == bag[i + 1];
        }
      }
      NormalizeBagOfRewritten(bail, kinds, skipReserved, bag[1..], state[1..]);
      assert [Entry(bag[0].key, state[0].value)] + state[1..] == state;
    }
  }

  // ---------------------------------------------------------------------------------------------
  // The tracks and the whole object

  /** The first `k` tracks of `state` are `tracks` normalised without an error. */
  predicate TracksUpTo(bail: bool, tracks: seq<Bag>, state: seq<Bag>, k: nat) {
    && |state| == |tracks| && k <= |tracks|
    && forall j :: 0 <= j < k ==> NormalizeBag(bail, TrackKinds, true, tracks[j]) == Partial(state[j], None)
  }

  /** One more normalised track in front of the others. */
  lemma {:induction false} TracksCons(bail: bool, tracks: seq<Bag>, first: Bag, rest: seq<Bag>, k: nat)
    requires tracks != [] && NormalizeBag(bail, TrackKinds, true, tracks[0]) == Partial(first, None)
    requires TracksUpTo(bail, tracks[1..], rest, k)
    ensures TracksUpTo(bail, tracks, [first] + rest, k + 1)
    ensures k < |rest| ==> ([first] + rest)[k + 1] == rest[k] && tracks[k + 1] == tracks[1..][k]
    ensures k < |rest| ==> ([first] + rest)[k + 2..] == rest[k + 1..] && tracks[k + 2..] == tracks[1..][k + 1..]
  {
    var state := [first] + rest;
    forall j | 0 <= j < k + 1 ensures NormalizeBag(bail, TrackKinds, true, tracks[j]) == Partial(state[j], None) {
      if j > 0 {
        assert state[j] == rest[j - 1] && tracks[j] == tracks[1..][j - 1];
      }
    }
  }

  /**
   * The tracks pass keeps the number of tracks: without an error every track is normalised; with
   * one, the tracks before some track `k` are normalised, track `k` is as far as its pass got when
   * it threw, and the tracks after it are untouched.
   */
  lemma {:induction false} NormalizeTracksPointwise(bail: bool, tracks: seq<Bag>)
    ensures var p := NormalizeTracks(bail, tracks);
            p.error.None? ==> TracksUpTo(bail, tracks, p.state, |tracks|)
    ensures var p := NormalizeTracks(bail, tracks);
            p.error.Some? ==>
              exists k :: 0 <= k < |tracks| && TracksUpTo(bail, tracks, p.state, k)
                && NormalizeBag(bail, TrackKinds, true, tracks[k]) == Partial(p.state[k], p.error)
                && p.state[k + 1..] == tracks[k + 1..]
  {
    var p := NormalizeTracks(bail, tracks);
    if tracks != [] {
      var first := NormalizeBag(bail, TrackKinds, true, tracks[0]);
      if first.error.Some? {
        assert p.state[1..] == tracks[1..];
        assert TracksUpTo(bail, tracks, p.state, 0);
      } else {
        var q := NormalizeTracks(bail, tracks[1..]);
        NormalizeTracksPointwise(bail, tracks[1..]);
        assert p.state == [first.state] + q.state && p.error == q.error;
        if q.error.None? {
          TracksCons(bail, tracks, first.state, q.state, |tracks| - 1);
        } else {
          var k :| 0 <= k < |tracks[1..]| && TracksUpTo(bail, tracks[1..], q.state, k)
            && NormalizeBag(bail, TrackKinds, true, tracks[1..][k]) == Partial(q.state[k], q.error)
            && q.state[k + 1..] == tracks[1..][k + 1..];
          TracksCons(bail, tracks, first.state, q.state, k);
        }
      }
    }
  }

  /**
   * `normalize` handles the info bag before the tracks: when the info bag throws, the tracks are
   * untouched; otherwise the info bag is fully normalised and the tracks pass follows.
   */
  lemma {:induction false} NormalizeDataOrder(bail: bool, d: MediaData)
    ensures var info := NormalizeBag(bail, InfoKinds, false, d.info);
            var r := NormalizeData(bail, d);
            && r.state.info == info.state
            && (info.error.Some? ==> r.state.tracks == d.tracks && r.error == info.error)
            && (info.error.None? ==> Partial(r.state.tracks, r.error) == NormalizeTracks(bail, d.tracks))
  {
  }

  /** Without `bail`, normalising an object throws at most the message of a malformed duration. */
  lemma {:induction false} NormalizeDataQuiet(d: MediaData)
    ensures var r := NormalizeData(false, d);
            r.error.Some? ==> r.error.value == NullMatchError
  {
    NormalizeBagQuiet(InfoKinds, false, d.info);
    var info := NormalizeBag(false, InfoKinds, false, d.info);
    if info.error.None? {
      var p := NormalizeTracks(false, d.tracks);
      NormalizeTracksPointwise(false, d.tracks);
      if p.error.Some? {
        var k :| 0 <= k < |d.tracks| && TracksUpTo(false, d.tracks, p.state, k)
          && NormalizeBag(false, TrackKinds, true, d.tracks[k]) == Partial(p.state[k], p.error);
        NormalizeBagQuiet(TrackKinds, true, d.tracks[k]);
      }
    }
  }
}
