/**
 * The object `mediainfo` reports for a file, as the normalisers see it: a bag of named properties
 * for the container ("info") and one bag per track. Before normalisation every value is the text
 * `mediainfo` printed; normalisation overwrites values in place with booleans and numbers.
 */
module Media {
  import opened Wrappers
  import opened Text

  /** A property value: the raw text, or what a parser made of it. */
  datatype Value =
    | Text(s: string)
    | Flag(b: bool)
    | Number(x: real)
    | NaN
    | Null
      /** An `encoded_date` split into its leading time-zone token and the local time after it. */
    | Stamp(zone: string, local: string)

  /** One own property of a JavaScript object, in insertion order. */
  datatype Entry = Entry(key: string, value: Value)

  type Bag = seq<Entry>

  /** The `tracks` property of the info object is held apart from the other properties. */
  datatype MediaData = MediaData(info: Bag, tracks: seq<Bag>)

  /** What a pass that may throw half-way leaves behind: the state it reached, and the message. */
  datatype Partial<T> = Partial(state: T, error: Option<string>)

  /** What the dispatch table says to do with a property. */
  datatype Kind =
    | AsInt
    | AsFloat
    | AsBool
    | AsDuration
      /** An integer followed by one of the unit spellings; with `separated` every group of three digits is led by white space. */
    | AsIntUnit(units: seq<string>, separated: bool)
    | AsFloatUnit(unit: string)
    | AsBitrate
    | AsSamplingRate
    | AsFileSize
    | AsDate
      /** Known and left as it is. */
    | Passthrough

  /**
   * The TypeError raised when a duration token does not match `^(\d+)(\w+)$` and the code reads a
   * capture group of the `null` match.
   */
  const NullMatchError: string := "Cannot read property '2' of null"

  /**
   * `encoded_date`: the text before the first space names the time zone and the rest is the local
   * time (`v.split(' ', 1)[0]` and `v.substring(timezone.length + 1)`). Converting the pair to epoch
   * milliseconds is left to the `time` library and not modelled.
   */
  function EncodedDate(s: string): (r: Value)
    ensures r.Stamp? && ' ' !in r.zone && r.zone <= s
    ensures |r.zone| < |s| ==> r.zone + " " + r.local == s
    ensures |r.zone| == |s| ==> r.local == ""
  {
    var zone := Split(s, ' ')[0];
    JoinSplit(s, ' ');
    SplitParts(s, ' ');
    SplitHead(s, ' ');
    Stamp(zone, if |zone| < |s| then s[|zone| + 1..] else "")
  }

  /** The mutable object a normaliser rewrites in place. */
  class MediaInfo {
    var info: Bag
    var tracks: seq<Bag>

    constructor (data: MediaData)
      ensures info == data.info && tracks == data.tracks
    {
      info := data.info;
      tracks := data.tracks;
    }

    function Data(): MediaData
      reads this
    {
      MediaData(info, tracks)
    }
  }
}
