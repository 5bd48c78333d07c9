// The writer that stores every collected media description in one JSON array in a file. Each
// item is written only when the next one arrives (or the writer is finalized), so that the
// separator `, ` goes between items and never after the last one.

module JsonWriter {
  import opened Wrappers
  import opened Text

  /** The options of the writer: the file is opened with `flags` and `mode`, written in `encoding`. */
  datatype FileOptions = FileOptions(filename: Option<string>, flags: string, mode: nat, encoding: string)

  /** The constructor's `_.defaults`: no file name, flags `w`, mode `0666` (octal) and `utf8`. */
  function Configure(filename: Option<string>, flags: Option<string>, mode: Option<nat>, encoding: Option<string>): (o: FileOptions)
    ensures o.filename == filename
    ensures o.flags == (if flags.Some? then flags.value else "w")
    ensures o.mode == (if mode.Some? then mode.value else 6 * 64 + 6 * 8 + 6)
    ensures o.encoding == (if encoding.Some? then encoding.value else "utf8")
  {
    FileOptions(filename, flags.GetOr("w"), mode.GetOr(438), encoding.GetOr("utf8"))
  }

  /** `JSON.stringify(last, null, 4)`: the held item, or `null` when none is held. */
  function Serialized<T>(held: Option<T>, stringify: T -> string): string {
    match held
    case None => "null"
    case Some(item) => stringify(item)
  }

  /** The text of a stream: its chunks in the order they were written. */
  function Contents(chunks: seq<string>): string
    decreases |chunks|
  {
    if chunks == [] then "" else Contents(chunks[..|chunks| - 1]) + chunks[|chunks| - 1]
  }

  /** The items, each serialized. */
  function Rendered<T>(items: seq<T>, stringify: T -> string): (r: seq<string>)
    ensures |r| == |items|
    ensures forall i :: 0 <= i < |items| ==> r[i] == stringify(items[i])
    decreases |items|
  {
    if items == [] then [] else Rendered(items[..|items| - 1], stringify) + [stringify(items[|items| - 1])]
  }

  // ---------------------------------------------------------------------------------------------
  // What the writer has done after `initialize` and a run of `info` calls

  /** The chunks the `info` calls have written: every item but the held one, each followed by `, `. */
  function Pending<T>(items: seq<T>, stringify: T -> string): seq<string>
    decreases |items|
  {
    if |items| <= 1 then []
    else Pending(items[..|items| - 1], stringify) + [stringify(items[|items| - 2]) + ", "]
  }

  /** The item held back: the last one given, if any. */
  function Held<T>(items: seq<T>): Option<T> {
    if items == [] then None else Some(Last(items))
  }

  /** The whole file once `finalize` has run. */
  function Document<T>(items: seq<T>, stringify: T -> string): string {
    "[" + Contents(Pending(items, stringify)) + Serialized(Held(items), stringify) + "]"
  }

  class JsonFileWriter<T> {
    const options: FileOptions
    const stringify: T -> string
    /** `_last` */
    var last: Option<T>
    /** The chunks written to the file stream so far. */
    var written: seq<string>
    /** Whether the stream has been ended. */
    var ended: bool
    /** The items given to `info` since `initialize`. */
    ghost var items: seq<T>

    /** Between `initialize` and `finalize`: the stream holds `[` and every item but the held one. */
    ghost predicate Valid()
      reads this
    {
      written == ["["] + Pending(items, stringify) && last == Held(items) && !ended
    }

    constructor (options: FileOptions, stringify: T -> string)
      ensures this.options == options && this.stringify == stringify
      ensures last == None && written == [] && !ended && items == []
    {
      this.options := options;
      this.stringify := stringify;
      last := None;
      written := [];
      ended := false;
      items := [];
    }

    /** `initialize`: a new stream is opened, nothing is held, and `[` is written once it is open. */
    method Initialize()
      modifies this
      ensures written == ["["] && last == None && !ended && items == []
      ensures Valid()
    {
      written := ["["];
      last := None;
      ended := false;
      items := [];
    }

    /** `info(item)`: the item held so far is written with a separator, and the new one is held. */
    method Info(item: T)
      requires Valid()
      modifies this
      ensures written == old(written) + (if old(last).Some? then [stringify(old(last).value) + ", "] else [])
      ensures last == Some(item) && ended == old(ended)
      ensures items == old(items) + [item]
      ensures Valid()
    {
      if last.Some? {
        written := written + [stringify(last.value) + ", "];
      }
      last := Some(item);
      items := items + [item];
      assert items[..|items| - 1] == old(items);
    }

    /** `finalize`: the held item (or `null`) is written, then the stream is ended with `]`. */
    method Finalize()
      requires Valid()
      modifies this
      ensures written == old(written) + [Serialized(old(last), stringify), "]"]
      ensures ended && last == old(last) && items == old(items)
      ensures Contents(written) == Document(items, stringify)
    {
      written := written + [Serialized(last, stringify), "]"];
      ended := true;
      assert Contents(written) == Contents(["["] + Pending(items, stringify)) + Serialized(last, stringify) + "]" by {
        var w := written[..|written| - 1];
        assert written[..|written| - 2] == ["["] + Pending(items, stringify) && w[..|w| - 1] == written[..|written| - 2];
      }
      ContentsPrefixed("[", Pending(items, stringify));
    }
  }

  /**
   * The file a writer leaves after `initialize`, one `info` per item and `finalize`: the serialized
   * items separated by `, ` inside brackets, or `[null]` when no item was given.
   */
  method WriteDocument<T>(options: FileOptions, items: seq<T>, stringify: T -> string) returns (text: string)
    ensures items != [] ==> text == "[" + Join(Rendered(items, stringify), ", ") + "]"
    ensures items == [] ==> text == "[null]"
  {
    var w := new JsonFileWriter(options, stringify);
    w.Initialize();
    for i := 0 to |items|
      invariant w.Valid() && w.items == items[..i]
    {
      w.Info(items[i]);
      assert items[..i + 1] == items[..i] + [items[i]];
    }
    assert items[..|items|] == items;
    w.Finalize();
    text := Contents(w.written);
    if items != [] {
      DocumentItems(items, stringify);
    }
  }

  // ---------------------------------------------------------------------------------------------

  /** A stream whose first chunk is `head` reads as `head` followed by the rest. */
  lemma {:induction false} ContentsPrefixed(head: string, chunks: seq<string>)
    ensures Contents([head] + chunks) == head + Contents(chunks)
    decreases |chunks|
  {
    if chunks == [] {
      assert ([head] + chunks)[..0] == [];
    } else {
      var init := chunks[..|chunks| - 1];
      assert ([head] + chunks)[..|chunks|] == [head] + init;
      ContentsPrefixed(head, init);
    }
  }

  /** The first `info` writes nothing; each later one writes the item before it and `, `. */
  lemma InfoWrites<T>(items: seq<T>, item: T, stringify: T -> string)
    ensures items == [] ==> Pending(items + [item], stringify) == []
    ensures items != [] ==> Pending(items + [item], stringify) == Pending(items, stringify) + [stringify(Last(items)) + ", "]
    ensures Held(items + [item]) == Some(item)
  {
    var all := items + [item];
    assert all[..|all| - 1] == items;
  }

  /** What the writer has put out so far, with the held item after it, is the items joined with `, `. */
  lemma {:induction false} PendingJoined<T>(items: seq<T>, stringify: T -> string)
    requires items != []
    ensures Contents(Pending(items, stringify)) + stringify(Last(items)) == Join(Rendered(items, stringify), ", ")
    decreases |items|
  {
    var init := items[..|items| - 1];
    var x := Last(items);
    if init == [] {
      assert Rendered(items, stringify) == [stringify(x)];
    } else {
      PendingJoined(init, stringify);
      var before := Contents(Pending(init, stringify));
      calc {
        Contents(Pending(items, stringify)) + stringify(x);
        before + (stringify(Last(init)) + ", ") + stringify(x);
        { ConcatAssoc(before, stringify(Last(init)), ", "); }
        Join(Rendered(init, stringify), ", ") + ", " + stringify(x);
        { JoinSnoc(Rendered(init, stringify), stringify(x), ", "); }
        Join(Rendered(init, stringify) + [stringify(x)], ", ");
      }
    }
  }

  /** After one or more items the file is a JSON array of exactly those items, in order. */
  lemma DocumentItems<T>(items: seq<T>, stringify: T -> string)
    requires items != []
    ensures Document(items, stringify) == "[" + Join(Rendered(items, stringify), ", ") + "]"
  {
    PendingJoined(items, stringify);
    ConcatAssoc("[", Contents(Pending(items, stringify)), stringify(Last(items)));
  }

  /** With no item the held value is `null`, and the file is `[null]`. */
  lemma EmptyDocument<T>(stringify: T -> string)
    ensures Document([], stringify) == "[null]"
  {
    assert "[" + "" + "null" + "]" == "[null]";
  }
}
