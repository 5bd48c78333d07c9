// The FTP collector: how it names files, which directory it lists, and how it turns one FTP
// directory listing into files to inspect and directories to descend into.

module FtpCollector {
  import opened Wrappers
  import opened Text
  import opened DirectoryReader
  import CurlFtp

  /** The connection settings; a password that is not given is `null`. */
  datatype Remote = Remote(host: string, port: nat, user: string, password: Option<string>)

  /** The constructor: every option that is not given takes its default. */
  function Configure(host: Option<string>, port: Option<nat>, user: Option<string>, password: Option<string>): (r: Remote)
    ensures r.host == (if host.Some? then host.value else "localhost")
    ensures r.port == (if port.Some? then port.value else 21)
    ensures r.user == (if user.Some? then user.value else "anonymous")
    ensures r.password == password
  {
    Remote(host.GetOr("localhost"), port.GetOr(21), user.GetOr("anonymous"), password)
  }

  /**
   * The settings the collector hands on to `CurlFtp`. They are the same object, so a `null`
   * password stays `null` there (the `guest` default only fills in missing keys) and is
   * concatenated into the user argument as the text `null`.
   */
  function CurlOptions(r: Remote): (o: CurlFtp.Options)
    ensures o.host == r.host && o.port == r.port && o.user == r.user
    ensures o.password == if r.password.Some? then r.password.value else "null"
  {
    CurlFtp.Options(r.host, r.port, r.user, r.password.GetOr("null"))
  }

  /** `formatFile(file)` */
  function FormatFile(r: Remote, file: string): string {
    "ftp://" + r.user + "@" + r.host + file
  }

  /** The directory `list` hands to the traversal: a leading `/` ensured, then one trailing `/` removed. */
  function ListDirectory(directory: string): (d: string)
    ensures d + "/" == EnsureLeft(directory, "/") || d == EnsureLeft(directory, "/")
  {
    ChompRight(EnsureLeft(directory, "/"), "/")
  }

  /** One entry of an FTP listing; `kind` is `-` for a file, `d` for a directory, `l` for a link. */
  datatype FtpEntry = FtpEntry(name: string, kind: string, size: nat)

  /** The path of an entry: the directory with a trailing `/` ensured, then the entry name. */
  function EntryPath(directory: string, name: string): (p: string)
    ensures p == EnsureRight(directory, "/") + name
    ensures EndsWith(directory, "/") ==> p == directory + name
    ensures !EndsWith(directory, "/") ==> p == directory + "/" + name
  {
    EnsureRight(directory, "/") + name
  }

  /** What `processDirectory` makes of one entry. */
  datatype Kind = FileEntry(file: RemoteFile) | DirEntry(path: string) | Skipped

  function Classify(directory: string, e: FtpEntry): (k: Kind)
    ensures k.FileEntry? <==> e.kind == "-"
    ensures k.FileEntry? ==> k.file == RemoteFile(EntryPath(directory, e.name), e.size)
    ensures k.DirEntry? <==> e.kind == "d" && !IsDots(e.name)
    ensures k.DirEntry? ==> k.path == EntryPath(directory, e.name)
  {
    var path := EntryPath(directory, e.name);
    if e.kind == "l" then Skipped
    else if e.kind == "-" then FileEntry(RemoteFile(path, e.size))
    else if e.kind == "d" && !IsDots(e.name) then DirEntry(path)
    else Skipped
  }

  /** The listing built from the entries in order. */
  function Classified(directory: string, entries: seq<FtpEntry>): Listing
    decreases |entries|
  {
    if entries == [] then Listing([], [])
    else
      var rest := Classified(directory, entries[..|entries| - 1]);
      match Classify(directory, entries[|entries| - 1])
      case FileEntry(f) => rest.(files := rest.files + [f])
      case DirEntry(p) => rest.(directories := rest.directories + [p])
      case Skipped => rest
  }

  /** The `forEach` of `processDirectory`, pushing into the result arrays. */
  method ProcessListing(directory: string, entries: seq<FtpEntry>) returns (r: Listing)
    ensures r == Classified(directory, entries)
  {
    var files: seq<RemoteFile> := [];
    var directories: seq<string> := [];
    for i := 0 to |entries|
      invariant Listing(files, directories) == Classified(directory, entries[..i])
    {
      assert entries[..i + 1][..i] == entries[..i];
      var e := entries[i];
      var path := EntryPath(directory, e.name);
      if e.kind == "l" {
        // a symbolic link is logged and skipped
      } else if e.kind == "-" {
        files := files + [RemoteFile(path, e.size)];
      } else if e.kind == "d" && !IsDots(e.name) {
        directories := directories + [path];
      }
    }
    assert entries[..|entries|] == entries;
    r := Listing(files, directories);
  }

  /** `processDirectory`: a listing error is passed on as it is. */
  function ProcessDirectory(directory: string, listed: Result<seq<FtpEntry>, string>): (r: Result<Listing, string>)
    ensures listed.Err? <==> r.Err?
    ensures listed.Err? ==> r.error == listed.error
    ensures listed.Ok? ==> r.value == Classified(directory, listed.value)
  {
    match listed
    case Err(e) => Err(e)
    case Ok(entries) => Ok(Classified(directory, entries))
  }

  // ---------------------------------------------------------------------------------------------

  /** The classification keeps order: the listing of two runs of entries is the two listings joined. */
  lemma {:induction false} ClassifiedConcat(directory: string, a: seq<FtpEntry>, b: seq<FtpEntry>)
    ensures var l, la, lb := Classified(directory, a + b), Classified(directory, a), Classified(directory, b);
      l.files == la.files + lb.files && l.directories == la.directories + lb.directories
    decreases |b|
  {
    if b != [] {
      var b' := b[..|b| - 1];
      assert (a + b)[..|a + b| - 1] == a + b';
      assert (a + b)[|a + b| - 1] == b[|b| - 1];
      ClassifiedConcat(directory, a, b');
    } else {
      assert a + b == a;
    }
  }

  /**
   * Exactly the `-` entries become files and exactly the `d` entries other than `.` and `..` become
   * directories, each under its full path; links and every other kind are dropped.
   */
  lemma {:induction false} ClassifiedEntries(directory: string, entries: seq<FtpEntry>)
    ensures forall f :: f in Classified(directory, entries).files <==>
      exists i :: 0 <= i < |entries| && entries[i].kind == "-" && f == RemoteFile(EntryPath(directory, entries[i].name), entries[i].size)
    ensures forall p :: p in Classified(directory, entries).directories <==>
      exists i :: 0 <= i < |entries| && entries[i].kind == "d" && !IsDots(entries[i].name) && p == EntryPath(directory, entries[i].name)
    decreases |entries|
  {
    if entries != [] {
      var n := |entries| - 1;
      var init := entries[..n];
      ClassifiedEntries(directory, init);
      var l := Classified(directory, entries);
      var li := Classified(directory, init);
      forall f
        ensures f in l.files <==>
          exists i :: 0 <= i < |entries| && entries[i].kind == "-" && f == RemoteFile(EntryPath(directory, entries[i].name), entries[i].size)
      {
        if f in l.files && f !in li.files {
          assert entries[n].kind == "-";
        }
        if exists i :: 0 <= i < |entries| && entries[i].kind == "-" && f == RemoteFile(EntryPath(directory, entries[i].name), entries[i].size) {
          var i :| 0 <= i < |entries| && entries[i].kind == "-" && f == RemoteFile(EntryPath(directory, entries[i].name), entries[i].size);
          if i < n {
            assert init[i] == entries[i];
          }
        }
      }
      forall p
        ensures p in l.directories <==>
          exists i :: 0 <= i < |entries| && entries[i].kind == "d" && !IsDots(entries[i].name) && p == EntryPath(directory, entries[i].name)
      {
        if p in l.directories && p !in li.directories {
          assert entries[n].kind == "d" && !IsDots(entries[n].name);
        }
        if exists i :: 0 <= i < |entries| && entries[i].kind == "d" && !IsDots(entries[i].name) && p == EntryPath(directory, entries[i].name) {
          var i :| 0 <= i < |entries| && entries[i].kind == "d" && !IsDots(entries[i].name) && p == EntryPath(directory, entries[i].name);
          if i < n {
            assert init[i] == entries[i];
          }
        }
      }
    }
  }

  /** The display name is the file path behind a fixed `ftp://user@host` prefix, so it names the file uniquely. */
  lemma FormatFileNames(r: Remote, file: string, other: string)
    ensures var prefix := "ftp://" + r.user + "@" + r.host;
      prefix <= FormatFile(r, file) && FormatFile(r, file)[|prefix|..] == file
    ensures FormatFile(r, file) == FormatFile(r, other) ==> file == other
  {
    var prefix := "ftp://" + r.user + "@" + r.host;
    assert FormatFile(r, file)[|prefix|..] == file;
    assert FormatFile(r, other)[|prefix|..] == other;
  }

  /** The root directory is listed as the empty path, and its entries as `/name`. */
  lemma RootDirectory(name: string)
    ensures ListDirectory("/") == ""
    ensures ListDirectory("music") == "/music" && ListDirectory("/music/") == "/music"
    ensures EntryPath(ListDirectory("/"), name) == "/" + name
  {
    assert !EndsWith("/music", "/");
    assert "/" + "music" == "/music";
    assert ("/music/")[..|"/music/"| - 1] == "/music";
  }

  /** Without a password the command `curl` runs carries `user:null`. */
  lemma CurlWithoutPassword(host: Option<string>, port: Option<nat>, user: Option<string>)
    ensures CurlOptions(Configure(host, port, user, None)).password == "null"
  {
  }
}
