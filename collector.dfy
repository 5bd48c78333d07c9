/**
 * `AbstractCollector`: the options a collector is built from, the include/exclude filter, the
 * `FileInfo` records made of the accepted files and the events `execute` emits for them.
 *
 * `list` and `loadMediaInfo`, which every transport implements, are parameters of `Execute`: the
 * listing as the callback receives it, and the loader as a function from a file name to what its
 * callback receives. Minimatch's `match` is the function `glob` the collector is built with.
 */
module Collector {
  import opened Wrappers
  import opened Media
  import N = Normalizer
  import NB = NormalizerBags

  // ---------------------------------------------------------------------------------------------
  // Options

  /** `include` and `exclude` may be one pattern or a list of them. */
  datatype PatternOption = Pattern(pattern: string) | PatternList(patterns: seq<string>)

  /** The two Minimatch options the collector sets unless the caller did. */
  datatype MinimatchOptions = MinimatchOptions(dot: Option<bool>, matchBase: Option<bool>)

  /** The options object; `None` is a property the caller left undefined. */
  datatype Options = Options(
    verboseFilters: Option<bool>,
    concurrency: Option<nat>,
    includes: Option<PatternOption>,
    excludes: Option<PatternOption>,
    minimatch: Option<MinimatchOptions>)

  /** A `Minimatch` object: its pattern and the options it was built with. */
  datatype Matcher = Matcher(pattern: string, dot: bool, matchBase: bool)

  /** `Minimatch.prototype.match`. */
  type Glob = (Matcher, string) -> bool

  /** What the constructor stores. */
  datatype Config = Config(concurrency: nat, verboseFilters: bool, includes: seq<Matcher>, excludes: seq<Matcher>)

  /** `_.isArray(value) ? value : [value]` */
  function PatternStrings(value: PatternOption): seq<string> {
    match value
    case Pattern(p) => [p]
    case PatternList(ps) => ps
  }

  /** One matcher per pattern, in order. */
  function Matchers(patterns: seq<string>, dot: bool, matchBase: bool): (r: seq<Matcher>)
    ensures |r| == |patterns|
    ensures forall i :: 0 <= i < |r| ==> r[i] == Matcher(patterns[i], dot, matchBase)
  {
    if patterns == [] then []
    else [Matcher(patterns[0], dot, matchBase)] + Matchers(patterns[1..], dot, matchBase)
  }

  /** `_initMinimatch` */
  function InitMinimatch(value: PatternOption, dot: bool, matchBase: bool): seq<Matcher> {
    Matchers(PatternStrings(value), dot, matchBase)
  }

  /** The constructor's `_.defaults` calls, followed by `_initMinimatch` for both lists. */
  function Configure(options: Option<Options>): Config {
    var o := options.GetOr(Options(None, None, None, None, None));
    var mm := o.minimatch.GetOr(MinimatchOptions(None, None));
    var dot := mm.dot.GetOr(true);
    var matchBase := mm.matchBase.GetOr(true);
    Config(
      o.concurrency.GetOr(3),
      o.verboseFilters.GetOr(false),
      InitMinimatch(o.includes.GetOr(PatternList([])), dot, matchBase),
      InitMinimatch(o.excludes.GetOr(PatternList([])), dot, matchBase))
  }

  /**
   * The defaults: three concurrent loads, no patterns, and `dot` and `matchBase` on unless the
   * caller gave them; a single pattern becomes a list of one.
   */
  lemma ConfigureDefaults(options: Option<Options>)
    ensures Configure(None) == Config(3, false, [], [])
    ensures var c := Configure(options);
            var mm := if options.Some? && options.value.minimatch.Some? then options.value.minimatch.value
                      else MinimatchOptions(None, None);
            forall m :: m in c.includes + c.excludes ==> m.dot == mm.dot.GetOr(true) && m.matchBase == mm.matchBase.GetOr(true)
    ensures options.Some? && options.value.includes.Some? && options.value.includes.value.Pattern? ==>
              var p := options.value.includes.value.pattern;
              exists dot, matchBase :: Configure(options).includes == [Matcher(p, dot, matchBase)]
  {
    var c := Configure(options);
    forall m | m in c.includes + c.excludes
      ensures m in c.includes || m in c.excludes
    {
    }
  }

  // ---------------------------------------------------------------------------------------------
  // Filtering

  /** The pattern of the first matcher that matches `name`; `None` stands for `false`. */
  function FirstMatch(glob: Glob, name: string, patterns: seq<Matcher>): Option<string> {
    if patterns == [] then None
    else if glob(patterns[0], name) then Some(patterns[0].pattern)
    else FirstMatch(glob, name, patterns[1..])
  }

  /** `false` iff no matcher matches; otherwise the pattern of the lowest-index matcher that does. */
  lemma {:induction false} FirstMatchLowest(glob: Glob, name: string, patterns: seq<Matcher>)
    ensures FirstMatch(glob, name, patterns).None? <==> forall i :: 0 <= i < |patterns| ==> !glob(patterns[i], name)
    ensures FirstMatch(glob, name, patterns).Some? ==>
              exists i :: 0 <= i < |patterns| && glob(patterns[i], name)
                          && FirstMatch(glob, name, patterns).value == patterns[i].pattern
                          && forall j :: 0 <= j < i ==> !glob(patterns[j], name)
  {
    if patterns != [] && !glob(patterns[0], name) {
      var tail := patterns[1..];
      FirstMatchLowest(glob, name, tail);
      assert forall i :: 1 <= i < |patterns| ==> patterns[i] == tail[i - 1];
      var r := FirstMatch(glob, name, tail);
      if r.Some? {
        var i :| 0 <= i < |tail| && glob(tail[i], name) && r.value == tail[i].pattern
                 && forall j :: 0 <= j < i ==> !glob(tail[j], name);
        forall j | 0 <= j < i + 1
          ensures !glob(patterns[j], name)
        {
          if j > 0 { assert patterns[j] == tail[j - 1]; }
        }
        assert patterns[i + 1] == tail[i];
      }
    }
  }

  /** What `includePattern && !excludePattern` makes of a pattern in a condition: `""` is falsy. */
  predicate Truthy(p: Option<string>) {
    p.Some? && p.value != ""
  }

  /** No matcher was built from the empty pattern, the one a match of which is falsy. */
  predicate NoEmptyPattern(patterns: seq<Matcher>) {
    forall i :: 0 <= i < |patterns| ==> patterns[i].pattern != ""
  }

  /** A file name as `list` reports it. */
  datatype Listed = Listed(name: string, size: nat)

  /** `guerrero.types.FileInfo` */
  datatype FileInfo = FileInfo(name: string, formattedName: string, size: nat, info: Option<MediaData>)

  /** `info(file)` and `problem(file, err.toString())` */
  datatype Event = InfoEvent(file: FileInfo) | ProblemEvent(file: FileInfo, error: string)

  /**
   * How `execute` ends: the completion callback is called with the listing error or with nothing,
   * or the normaliser throws inside a loader callback and the callback is never called.
   */
  datatype Completion = Finished(error: Option<string>) | Crashed(message: string)

  /** The events emitted so far, and the message of the exception that ended the loop, if any. */
  datatype Emitted = Emitted(events: seq<Event>, crash: Option<string>)

  /** What `execute` leaves behind. */
  datatype Run = Run(events: seq<Event>, done: Completion)

  /** The default `formatFile`: the name itself. */
  function DefaultFormat(file: string): string {
    file
  }

  /** The loop of `async.eachLimit`, one file after the other, up to an exception. */
  function Emit(files: seq<FileInfo>, handle: FileInfo -> Outcome<Event>): Emitted
    decreases |files|
  {
    if files == [] then Emitted([], None)
    else
      var p := Emit(files[..|files| - 1], handle);
      if p.crash.Some? then p
      else
        match handle(files[|files| - 1])
        case Throw(m) => Emitted(p.events, Some(m))
        case Return(e) => Emitted(p.events + [e], None)
  }

  /** Once the loop has thrown, later files change nothing. */
  lemma {:induction false} EmitCrashed(files: seq<FileInfo>, handle: FileInfo -> Outcome<Event>, k: nat)
    requires k <= |files| && Emit(files[..k], handle).crash.Some?
    ensures Emit(files, handle) == Emit(files[..k], handle)
    decreases |files| - k
  {
    if k < |files| {
      assert files[..k + 1][..k] == files[..k];
      EmitCrashed(files, handle, k + 1);
    } else {
      assert files[..k] == files;
    }
  }

  /**
   * Each file yields exactly one event, in order, until a callback throws: the events are the
   * callbacks' results for a prefix of the files, and the file after them threw.
   */
  lemma {:induction false} EmitPointwise(files: seq<FileInfo>, handle: FileInfo -> Outcome<Event>)
    ensures var p := Emit(files, handle);
            && |p.events| <= |files|
            && (forall i :: 0 <= i < |p.events| ==> handle(files[i]) == Return(p.events[i]))
            && (p.crash.None? ==> |p.events| == |files|)
            && (p.crash.Some? ==> |p.events| < |files| && handle(files[|p.events|]) == Throw(p.crash.value))
    decreases |files|
  {
    if files != [] {
      var init := files[..|files| - 1];
      EmitPointwise(init, handle);
      assert forall i :: 0 <= i < |init| ==> init[i] == files[i];
    }
  }

  class Collector {
    const concurrency: nat
    const verboseFilters: bool
    const includes: seq<Matcher>
    const excludes: seq<Matcher>
    const glob: Glob
    /** `formatFile`, which the transports override. */
    const format: string -> string
    const normalizer: N.MediaInfoNormalizer

    /** `AbstractCollector(options)`; the normaliser is built without `bail`. */
    constructor (options: Option<Options>, glob: Glob, format: string -> string)
      ensures Config(concurrency, verboseFilters, includes, excludes) == Configure(options)
      ensures this.glob == glob && this.format == format
      ensures fresh(normalizer) && !normalizer.bail
    {
      var c := Configure(options);
      concurrency := c.concurrency;
      verboseFilters := c.verboseFilters;
      includes := c.includes;
      excludes := c.excludes;
      this.glob := glob;
      this.format := format;
      normalizer := new N.MediaInfoNormalizer(None);
    }

    /** `_getFirstMatchingPattern`: the loop over the matchers. */
    method GetFirstMatchingPattern(name: string, patterns: seq<Matcher>) returns (r: Option<string>)
      ensures r == FirstMatch(glob, name, patterns)
    {
      var i := 0;
      while i < |patterns|
        invariant 0 <= i <= |patterns|
        invariant FirstMatch(glob, name, patterns) == FirstMatch(glob, name, patterns[i..])
      {
        if glob(patterns[i], name) {
          return Some(patterns[i].pattern);
        }
        assert patterns[i..][1..] == patterns[i + 1..];
        i := i + 1;
      }
      return None;
    }

    /** `_accepted(fileName)`, JavaScript truthiness included. */
    predicate Accepted(name: string) {
      var excluded := FirstMatch(glob, name, excludes);
      var included := if |includes| > 0 then Truthy(FirstMatch(glob, name, includes)) else true;
      included && !Truthy(excluded)
    }

    /**
     * A file is accepted iff the include list is empty or one of its patterns matches, and no
     * exclude pattern matches (for patterns other than `""`).
     */
    lemma AcceptedIff(name: string)
      requires NoEmptyPattern(includes) && NoEmptyPattern(excludes)
      ensures Accepted(name) <==>
                (includes == [] || exists i :: 0 <= i < |includes| && glob(includes[i], name))
                && forall j :: 0 <= j < |excludes| ==> !glob(excludes[j], name)
    {
      var ex := FirstMatch(glob, name, excludes);
      var inc := FirstMatch(glob, name, includes);
      FirstMatchLowest(glob, name, excludes);
      FirstMatchLowest(glob, name, includes);
      if ex.Some? {
        var i :| 0 <= i < |excludes| && glob(excludes[i], name) && ex.value == excludes[i].pattern;
      }
      if inc.Some? {
        var i :| 0 <= i < |includes| && glob(includes[i], name) && inc.value == includes[i].pattern;
      }
    }

    /** The filter stage. */
    function Filtered(files: seq<Listed>): (r: seq<Listed>)
      ensures |r| <= |files|
      ensures forall f :: f in r <==> f in files && Accepted(f.name)
    {
      if files == [] then []
      else (if Accepted(files[0].name) then [files[0]] else []) + Filtered(files[1..])
    }

    /** The filter keeps the listing order: filtering a concatenation filters each part. */
    lemma {:induction false} FilteredConcat(a: seq<Listed>, b: seq<Listed>)
      ensures Filtered(a + b) == Filtered(a) + Filtered(b)
    {
      if a != [] {
        assert (a + b)[0] == a[0] && (a + b)[1..] == a[1..] + b;
        FilteredConcat(a[1..], b);
      } else {
        assert a + b == b;
      }
    }

    /** The conversion stage: one record per accepted file, with no media information yet. */
    function FileInfos(files: seq<Listed>): (r: seq<FileInfo>)
      ensures |r| == |files|
      ensures forall i :: 0 <= i < |r| ==> r[i] == FileInfo(files[i].name, format(files[i].name), files[i].size, None)
    {
      if files == [] then []
      else [FileInfo(files[0].name, format(files[0].name), files[0].size, None)] + FileInfos(files[1..])
    }

    /** What `_extractMediaInfo` computes: nothing for no result, else the first result normalised. */
    function Extracted(data: seq<MediaData>): (r: Outcome<Option<MediaData>>)
      ensures data == [] ==> r == Return(None)
      ensures data != [] ==> r == Extracted(data[..1])
    {
      if data == [] then Return(None)
      else
        var p := N.NormalizeData(normalizer.bail, data[0]);
        if p.error.Some? then Throw(p.error.value) else Return(Some(p.state))
    }

    /**
     * Without `bail` the only exception is the TypeError of a malformed duration, and the object
     * returned keeps the names and order of its info properties and its number of tracks.
     */
    lemma ExtractedQuiet(data: seq<MediaData>)
      requires !normalizer.bail
      ensures Extracted(data).Throw? ==> Extracted(data).message == NullMatchError
      ensures Extracted(data).Return? && Extracted(data).value.Some? ==>
                var d := Extracted(data).value.value;
                && |d.info| == |data[0].info| && |d.tracks| == |data[0].tracks|
                && forall i :: 0 <= i < |d.info| ==> d.info[i].key == data[0].info[i].key
    {
      if data != [] {
        NB.NormalizeDataQuiet(data[0]);
        NB.NormalizeBagKeys(false, N.InfoKinds, false, data[0].info);
        NB.NormalizeTracksPointwise(false, data[0].tracks);
      }
    }

    /** `_extractMediaInfo`: the first object is normalised in place. */
    method ExtractMediaInfo(fileName: string, data: seq<MediaData>) returns (r: Outcome<Option<MediaData>>)
      ensures r == Extracted(data)
    {
      if |data| == 0 {
        return Return(None);
      }
      var m := new MediaInfo(data[0]);
      var same, error := normalizer.Normalize(m);
      if error.Some? {
        return Throw(error.value);
      }
      return Return(Some(same.Data()));
    }

    /** The loader callback for one file. */
    function Handle(file: FileInfo, loaded: Result<seq<MediaData>, string>): (r: Outcome<Event>)
      ensures loaded.Err? ==> r == Return(ProblemEvent(file, loaded.error))
      ensures r.Throw? ==> loaded.Ok? && Extracted(loaded.value) == Throw(r.message)
      ensures r.Return? && r.value.InfoEvent? ==>
                loaded.Ok? && Extracted(loaded.value) == Return(r.value.file.info)
                && r.value.file == file.(info := r.value.file.info)
    {
      match loaded
      case Err(e) => Return(ProblemEvent(file, e))
      case Ok(data) =>
        match Extracted(data)
        case Throw(m) => Throw(m)
        case Return(info) => Return(InfoEvent(file.(info := info)))
    }

    /** The loader callback, as the loop runs it on each file. */
    function Handler(load: string -> Result<seq<MediaData>, string>): FileInfo -> Outcome<Event> {
      (file: FileInfo) => Handle(file, load(file.name))
    }

    /** What `execute` does with the listing and the loader. */
    function Executed(listing: Result<seq<Listed>, string>, load: string -> Result<seq<MediaData>, string>): Run {
      match listing
      case Err(e) => Run([], Finished(Some(e)))
      case Ok(files) =>
        var p := Emit(FileInfos(Filtered(files)), Handler(load));
        Run(p.events, if p.crash.Some? then Crashed(p.crash.value) else Finished(None))
    }

    /** `execute`, with the loads run one after the other. */
    method Execute(listing: Result<seq<Listed>, string>, load: string -> Result<seq<MediaData>, string>)
      returns (events: seq<Event>, done: Completion)
      ensures Run(events, done) == Executed(listing, load)
    {
      if listing.Err? {
        return [], Finished(Some(listing.error));
      }
      var files := FileInfos(Filtered(listing.value));
      events := [];
      var crash: Option<string> := None;
      var i := 0;
      while i < |files| && crash.None?
        invariant 0 <= i <= |files|
        invariant Emit(files[..i], Handler(load)) == Emitted(events, crash)
      {
        assert files[..i + 1][..i] == files[..i];
        var file := files[i];
        var loaded := load(file.name);
        if loaded.Err? {
          events := events + [ProblemEvent(file, loaded.error)];
        } else {
          var info := ExtractMediaInfo(file.name, loaded.value);
          if info.Throw? {
            crash := Some(info.message);
          } else {
            events := events + [InfoEvent(file.(info := info.value))];
          }
        }
        i := i + 1;
      }
      if crash.Some? {
        EmitCrashed(files, Handler(load), i);
        done := Crashed(crash.value);
      } else {
        assert files[..i] == files;
        done := Finished(None);
      }
    }

    /**
     * The event reported for an accepted file: its record, a `problem` with no media information
     * exactly when its loader failed, and otherwise an `info` with what the normaliser made of it.
     */
    predicate Reports(load: string -> Result<seq<MediaData>, string>, f: Listed, e: Event) {
      && e.file.name == f.name && e.file.formattedName == format(f.name)
      && e.file.size == f.size
      && (e.ProblemEvent? <==> load(f.name).Err?)
      && (e.ProblemEvent? ==> e.file.info == None && e.error == load(f.name).error)
      && (e.InfoEvent? ==> Extracted(load(f.name).value) == Return(e.file.info))
    }

    /** The loader callback reports its file. */
    lemma HandleReports(load: string -> Result<seq<MediaData>, string>, f: Listed, e: Event)
      requires Handle(FileInfo(f.name, format(f.name), f.size, None), load(f.name)) == Return(e)
      ensures Reports(load, f, e)
    {
    }

    /**
     * The completion callback sees an error only when the listing failed; every accepted file is
     * reported by one event, in listing order, unless the normaliser throws.
     */
    lemma ExecutedEvents(listing: Result<seq<Listed>, string>, load: string -> Result<seq<MediaData>, string>)
      requires !normalizer.bail
      ensures var r := Executed(listing, load);
              && (r.done == Finished(None) || r.done.Crashed? <==> listing.Ok?)
              && (listing.Err? ==> r == Run([], Finished(Some(listing.error))))
              && (r.done.Crashed? ==> r.done.message == NullMatchError)
      ensures listing.Ok? && Executed(listing, load).done == Finished(None) ==>
              var accepted := Filtered(listing.value);
              var events := Executed(listing, load).events;
              |events| == |accepted| && forall i :: 0 <= i < |events| ==> Reports(load, accepted[i], events[i])
    {
      if listing.Ok? {
        var accepted := Filtered(listing.value);
        var files := FileInfos(accepted);
        var p := Emit(files, Handler(load));
        EmitPointwise(files, Handler(load));
        if p.crash.Some? {
          var k := |p.events|;
          var loaded := load(files[k].name);
          ExtractedQuiet(loaded.value);
        } else {
          forall i | 0 <= i < |p.events| ensures Reports(load, accepted[i], p.events[i]) {
            HandleReports(load, accepted[i], p.events[i]);
          }
        }
      }
    }
  }
}
