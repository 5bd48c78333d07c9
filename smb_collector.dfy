// The Samba collector: how it names files, and how it turns the output of a remote `ls` into
// files to inspect and directories to descend into.

module SmbCollector {
  import opened Wrappers
  import opened Text
  import opened DirectoryReader
  import SmbParser
  import SmbClient

  /** The share and the credentials; the client gets all three. */
  datatype Settings = Settings(service: string, username: Option<string>, password: Option<string>)

  /** The constructor: the service defaults to the empty string, the credentials to `null`. */
  function Configure(service: Option<string>, username: Option<string>, password: Option<string>): (s: Settings)
    ensures s.service == (if service.Some? then service.value else "")
    ensures s.username == username && s.password == password
  {
    Settings(service.GetOr(""), username, password)
  }

  function Client(s: Settings): SmbClient.Client {
    SmbClient.Client(s.service, s.username, s.password)
  }

  /** The account shown in file names: the user name, or `guest` when it is missing or empty. */
  function Account(s: Settings): string {
    if SmbClient.Given(s.username) then s.username.value else "guest"
  }

  /** `formatFile(file)`: `smb://account@` and the service with one leading `//` removed. */
  function FormatFile(s: Settings, file: string): string {
    "smb://" + Account(s) + "@" + ChompLeft(s.service, "//") + file
  }

  /** The files of a listing under their full paths, sizes kept, dates dropped. */
  function FilePaths(directory: string, files: seq<SmbParser.SmbFile>): (r: seq<RemoteFile>)
    ensures |r| == |files|
    ensures forall i :: 0 <= i < |files| ==> r[i] == RemoteFile(directory + "/" + files[i].name, files[i].size)
  {
    if files == [] then []
    else [RemoteFile(directory + "/" + files[0].name, files[0].size)] + FilePaths(directory, files[1..])
  }

  /** The directories of a listing other than `.` and `..`, under their full paths. */
  function DirPaths(directory: string, dirs: seq<SmbParser.SmbDir>): seq<string> {
    if dirs == [] then []
    else (if IsDots(dirs[0].name) then [] else [directory + "/" + dirs[0].name]) + DirPaths(directory, dirs[1..])
  }

  function Listed(directory: string, ls: SmbParser.LsResult): Listing {
    Listing(FilePaths(directory, ls.files), DirPaths(directory, ls.directories))
  }

  /** `processDirectory`: a client error is passed on and the output is not parsed. */
  function ProcessDirectory(directory: string, output: Result<string, SmbClient.ExitError>): (r: Result<Listing, SmbClient.ExitError>)
    ensures output.Err? <==> r.Err?
    ensures output.Err? ==> r.error == output.error
    ensures output.Ok? ==> r.value == Listed(directory, SmbParser.LsOf(Split(output.value, '\n')))
  {
    match output
    case Err(e) => Err(e)
    case Ok(text) => Ok(Listed(directory, SmbParser.LsOf(Split(text, '\n'))))
  }

  // ---------------------------------------------------------------------------------------------

  /** The display name is the file path behind a fixed `smb://account@server/share` prefix. */
  lemma FormatFileNames(s: Settings, file: string, other: string)
    ensures var prefix := "smb://" + Account(s) + "@" + ChompLeft(s.service, "//");
      prefix <= FormatFile(s, file) && FormatFile(s, file)[|prefix|..] == file
    ensures FormatFile(s, file) == FormatFile(s, other) ==> file == other
  {
    var prefix := "smb://" + Account(s) + "@" + ChompLeft(s.service, "//");
    assert FormatFile(s, file)[|prefix|..] == file;
    assert FormatFile(s, other)[|prefix|..] == other;
  }

  /**
   * A service written `//server/share` is shown as `server/share`, after the user name or, when
   * none is given, after `guest`.
   */
  lemma FormatFileAccount(share: string, username: Option<string>, password: Option<string>, file: string)
    ensures FormatFile(Configure(Some("//" + share), username, password), file)
         == "smb://" + (if SmbClient.Given(username) then username.value else "guest") + "@" + share + file
  {
    assert ChompLeft("//" + share, "//") == share;
  }

  /** Directories keep their order: the paths of two runs are the two path lists joined. */
  lemma {:induction false} DirPathsConcat(directory: string, a: seq<SmbParser.SmbDir>, b: seq<SmbParser.SmbDir>)
    ensures DirPaths(directory, a + b) == DirPaths(directory, a) + DirPaths(directory, b)
  {
    if a != [] {
      assert (a + b)[1..] == a[1..] + b;
      DirPathsConcat(directory, a[1..], b);
    } else {
      assert a + b == b;
    }
  }

  /** Exactly the directories other than `.` and `..` are kept, each under its full path. */
  lemma {:induction false} DirPathsEntries(directory: string, dirs: seq<SmbParser.SmbDir>)
    ensures forall p :: p in DirPaths(directory, dirs) <==>
      exists i :: 0 <= i < |dirs| && !IsDots(dirs[i].name) && p == directory + "/" + dirs[i].name
  {
    if dirs != [] {
      DirPathsEntries(directory, dirs[1..]);
      forall p
        ensures p in DirPaths(directory, dirs) <==>
          exists i :: 0 <= i < |dirs| && !IsDots(dirs[i].name) && p == directory + "/" + dirs[i].name
      {
        if exists i :: 0 <= i < |dirs| && !IsDots(dirs[i].name) && p == directory + "/" + dirs[i].name {
          var i :| 0 <= i < |dirs| && !IsDots(dirs[i].name) && p == directory + "/" + dirs[i].name;
          if i > 0 {
            assert dirs[1..][i - 1] == dirs[i];
          }
        }
        if p in DirPaths(directory, dirs[1..]) {
          var i :| 0 <= i < |dirs[1..]| && !IsDots(dirs[1..][i].name) && p == directory + "/" + dirs[1..][i].name;
          assert dirs[i + 1] == dirs[1..][i];
        }
      }
    }
  }

  /** The directory a line of `ls` output gives, if any. */
  function LineDirectory(directory: string, line: string): Option<string> {
    match SmbParser.LsDir(line)
    case Some(d) => if IsDots(d.name) then None else Some(directory + "/" + d.name)
    case None => None
  }

  /** The file a line of `ls` output gives, if any: only lines the directory pattern rejects count. */
  function LineFile(directory: string, line: string): Option<RemoteFile> {
    if SmbParser.LsDir(line).Some? then None
    else match SmbParser.LsFile(line)
      case Some(g) => Some(RemoteFile(directory + "/" + g.name, g.size))
      case None => None
  }

  /**
   * From `ls` output lines to listing: a directory for each line the directory pattern matches,
   * other than `.` and `..`, and no other directory.
   */
  lemma LinesDirectories(directory: string, lines: seq<string>)
    ensures forall p :: p in DirPaths(directory, SmbParser.LsOf(lines).directories) <==>
      exists i :: 0 <= i < |lines| && LineDirectory(directory, lines[i]) == Some(p)
  {
    var ds := SmbParser.LsOf(lines).directories;
    assert forall d :: d in ds <==> exists i :: 0 <= i < |lines| && SmbParser.LsDir(lines[i]) == Some(d) by {
      SmbParser.LsOfEntries(lines);
    }
    DirPathsEntries(directory, ds);
    forall p | p in DirPaths(directory, ds)
      ensures exists i :: 0 <= i < |lines| && LineDirectory(directory, lines[i]) == Some(p)
    {
      var k :| 0 <= k < |ds| && !IsDots(ds[k].name) && p == directory + "/" + ds[k].name;
      assert ds[k] in ds;
      var i :| 0 <= i < |lines| && SmbParser.LsDir(lines[i]) == Some(ds[k]);
      assert LineDirectory(directory, lines[i]) == Some(p);
    }
    forall p | exists i :: 0 <= i < |lines| && LineDirectory(directory, lines[i]) == Some(p)
      ensures p in DirPaths(directory, ds)
    {
      var i :| 0 <= i < |lines| && LineDirectory(directory, lines[i]) == Some(p);
      var d := SmbParser.LsDir(lines[i]).value;
      assert d in ds;
      var k :| 0 <= k < |ds| && ds[k] == d;
    }
  }

  /** A file for each line the file pattern matches and the directory pattern does not, and no other file. */
  lemma LinesFiles(directory: string, lines: seq<string>)
    ensures forall f :: f in FilePaths(directory, SmbParser.LsOf(lines).files) <==>
      exists i :: 0 <= i < |lines| && LineFile(directory, lines[i]) == Some(f)
  {
    forall f ensures f in FilePaths(directory, SmbParser.LsOf(lines).files) <==>
      exists i :: 0 <= i < |lines| && LineFile(directory, lines[i]) == Some(f)
    {
      if f in FilePaths(directory, SmbParser.LsOf(lines).files) {
        FileHasLine(directory, lines, f);
      }
      if exists i :: 0 <= i < |lines| && LineFile(directory, lines[i]) == Some(f) {
        var i :| 0 <= i < |lines| && LineFile(directory, lines[i]) == Some(f);
        LineHasFile(directory, lines, i);
      }
    }
  }

  /** Each listed file comes from a line. */
  lemma FileHasLine(directory: string, lines: seq<string>, f: RemoteFile)
    requires f in FilePaths(directory, SmbParser.LsOf(lines).files)
    ensures exists i :: 0 <= i < |lines| && LineFile(directory, lines[i]) == Some(f)
  {
    var gs := SmbParser.LsOf(lines).files;
    var fs := FilePaths(directory, gs);
    var k :| 0 <= k < |fs| && fs[k] == f;
    assert gs[k] in gs;
    SmbParser.LsOfEntries(lines);
    var i :| 0 <= i < |lines| && SmbParser.LsDir(lines[i]).None? && SmbParser.LsFile(lines[i]) == Some(gs[k]);
    assert LineFile(directory, lines[i]) == Some(f);
  }

  /** Each line that gives a file puts it in the listing. */
  lemma LineHasFile(directory: string, lines: seq<string>, i: nat)
    requires i < |lines| && LineFile(directory, lines[i]).Some?
    ensures LineFile(directory, lines[i]).value in FilePaths(directory, SmbParser.LsOf(lines).files)
  {
    var gs := SmbParser.LsOf(lines).files;
    var g := SmbParser.LsFile(lines[i]).value;
    SmbParser.LsOfEntries(lines);
    assert g in gs;
    var k :| 0 <= k < |gs| && gs[k] == g;
    assert FilePaths(directory, gs)[k] == LineFile(directory, lines[i]).value;
  }
}
