// The `curl` wrapper through which the FTP collector downloads the first bytes of a file.

module CurlFtp {
  import opened Wrappers
  import opened Text
  import Cli

  /** The connection settings of a `CurlFtp` instance. */
  datatype Options = Options(host: string, port: nat, user: string, password: string)

  /** The constructor: every option that is not given takes its default. */
  function Configure(host: Option<string>, port: Option<nat>, user: Option<string>, password: Option<string>): (o: Options)
    ensures host.Some? ==> o.host == host.value
    ensures port.Some? ==> o.port == port.value
    ensures user.Some? ==> o.user == user.value
    ensures password.Some? ==> o.password == password.value
    ensures o == Options(if host.Some? then host.value else "localhost", if port.Some? then port.value else 21,
                         if user.Some? then user.value else "anonymous", if password.Some? then password.value else "guest")
  {
    Options(host.GetOr("localhost"), port.GetOr(21), user.GetOr("anonymous"), password.GetOr("guest"))
  }

  /** The `user` parameter: `user:password`, or `user:` and the placeholder when masking. */
  function UserArg(o: Options, maskPassword: bool): string {
    o.user + ":" + (if maskPassword then Cli.MaskedPassword else o.password)
  }

  /** The `range` parameter: the first `size` bytes. */
  function RangeArg(size: int): string {
    "0-" + IntToString(size - 1)
  }

  /** The parameters handed to a fresh helper whose separator is a single space. */
  function DownloadArgs(o: Options, size: int, maskPassword: bool): seq<(string, Cli.Value)> {
    [ ("no-epsv", Cli.Bool(true)),
      ("silent", Cli.Bool(true)),
      ("speed-time", Cli.Number(1)),
      ("user", Cli.Str(UserArg(o, maskPassword))),
      ("range", Cli.Str(RangeArg(size))) ]
  }

  /** `_getDownloadCommand(url, size, maskPassword)`; `quote` is `shell-quote`'s `quote`. */
  function DownloadCommand(o: Options, url: string, size: int, maskPassword: bool, quote: seq<string> -> string): string {
    var ps := Cli.AssignAll([], DownloadArgs(o, size, maskPassword));
    "curl " + Cli.CommandLine(ps, map[], " ", quote) + " " + quote([url])
  }

  /** The URL `downloadFileChunk` fetches: `ftp://host:port` and then the path, with a leading `/` ensured. */
  function Url(o: Options, file: string): string {
    "ftp://" + o.host + ":" + NatToString(o.port) + EnsureLeft(file, "/")
  }

  /** The command `downloadFileChunk` executes, and the exec buffer limit. */
  datatype Exec = Exec(command: string, maxBuffer: int)

  function DownloadRequest(o: Options, file: string, size: int, quote: seq<string> -> string): (e: Exec)
    ensures e.maxBuffer == size
  {
    Exec(DownloadCommand(o, Url(o, file), size, false, quote), size)
  }

  /** The command `downloadFileChunk` logs: built from the file rather than the URL, and masked. */
  function LoggedCommand(o: Options, file: string, size: int, quote: seq<string> -> string): string {
    DownloadCommand(o, file, size, true, quote)
  }

  // ---------------------------------------------------------------------------------------------

  lemma DefaultOptions()
    ensures Configure(None, None, None, None) == Options("localhost", 21, "anonymous", "guest")
  {
  }

  /**
   * The command word by word: `no-epsv` and `silent` are bare flags, the speed time is `1`, then
   * the user and the range; all are separated by single spaces and followed by the quoted URL.
   */
  lemma DownloadCommandText(o: Options, url: string, size: int, maskPassword: bool, quote: seq<string> -> string)
    ensures DownloadCommand(o, url, size, maskPassword, quote)
         == "curl " + Join(["--no-epsv", "--silent", "--speed-time " + quote(["1"]),
                            "--user " + quote([UserArg(o, maskPassword)]), "--range " + quote([RangeArg(size)])], " ")
          + " " + quote([url])
  {
    DownloadArgsAssigned(o, size, maskPassword);
    DownloadWords(UserArg(o, maskPassword), RangeArg(size), quote);
  }

  /** The fresh helper ends up holding the five parameters in the order they were given. */
  lemma DownloadArgsAssigned(o: Options, size: int, maskPassword: bool)
    ensures Cli.AssignAll([], DownloadArgs(o, size, maskPassword)) == DownloadParams(UserArg(o, maskPassword), RangeArg(size))
  {
    var args := DownloadArgs(o, size, maskPassword);
    var ps := DownloadParams(UserArg(o, maskPassword), RangeArg(size));
    assert IntToString(1) == "1";
    AssignUpTo(args, ps, 4);
    assert args[..5] == args && ps[..5] == ps;
  }

  function DownloadParams(user: string, range: string): Cli.Params {
    [Cli.Param("no-epsv", Cli.Flag), Cli.Param("silent", Cli.Flag), Cli.Param("speed-time", Cli.Valued("1")),
     Cli.Param("user", Cli.Valued(user)), Cli.Param("range", Cli.Valued(range))]
  }

  lemma DownloadWords(user: string, range: string, quote: seq<string> -> string)
    ensures Cli.Words(DownloadParams(user, range), map[], " ", quote)
         == ["--no-epsv", "--silent", "--speed-time " + quote(["1"]), "--user " + quote([user]), "--range " + quote([range])]
  {
    var ps := DownloadParams(user, range);
    var ws := Cli.Words(ps, map[], " ", quote);
    assert ws[0] == Cli.Word(ps[0], false, " ", quote);
    assert ws[1] == Cli.Word(ps[1], false, " ", quote);
    assert ws[2] == Cli.Word(ps[2], false, " ", quote);
    assert ws[3] == Cli.Word(ps[3], false, " ", quote);
    assert ws[4] == Cli.Word(ps[4], false, " ", quote);
    assert "--" + "no-epsv" == "--no-epsv";
    assert "--" + "silent" == "--silent";
    assert "--" + "speed-time" + " " == "--speed-time ";
    assert "--" + "user" + " " == "--user ";
    assert "--" + "range" + " " == "--range ";
  }

  lemma {:induction false} JoinFive(ws: seq<string>)
    requires |ws| == 5
    ensures Join(ws, " ") == ws[0] + " " + ws[1] + " " + ws[2] + " " + ws[3] + " " + ws[4]
  {
    assert Join(ws[4..], " ") == ws[4];
    assert Join(ws[3..], " ") == ws[3] + " " + Join(ws[4..], " ");
    assert Join(ws[2..], " ") == ws[2] + " " + Join(ws[3..], " ");
    assert Join(ws[1..], " ") == ws[1] + " " + Join(ws[2..], " ");
  }

  /** The user element sits inside the command, between the speed time and the range. */
  lemma {:induction false} UserInCommand(o: Options, url: string, size: int, maskPassword: bool, quote: seq<string> -> string)
    ensures exists before, after :: DownloadCommand(o, url, size, maskPassword, quote)
                                == before + ("--user " + quote([UserArg(o, maskPassword)])) + after
  {
    var ws := ["--no-epsv", "--silent", "--speed-time " + quote(["1"]),
               "--user " + quote([UserArg(o, maskPassword)]), "--range " + quote([RangeArg(size)])];
    DownloadCommandText(o, url, size, maskPassword, quote);
    var before, after := JoinAround("curl ", ws, " " + quote([url]));
  }

  /** The fourth of five words joined by spaces, with the text around it. */
  lemma JoinAround(pre: string, ws: seq<string>, post: string) returns (before: string, after: string)
    requires |ws| == 5
    ensures pre + Join(ws, " ") + post == before + ws[3] + after
  {
    JoinFive(ws);
    var mid := ws[0] + " " + ws[1] + " " + ws[2] + " ";
    before, after := pre + mid, " " + ws[4] + post;
    ConcatAssoc(mid + ws[3], " ", ws[4]);
    ConcatAssoc(pre, mid + ws[3], " " + ws[4]);
    ConcatAssoc(pre, mid, ws[3]);
    ConcatAssoc(pre + mid + ws[3], " " + ws[4], post);
  }

  lemma {:induction false} AssignUpTo(args: seq<(string, Cli.Value)>, ps: Cli.Params, k: nat)
    requires k < |args| == |ps|
    requires forall i :: 0 <= i < |ps| ==> Cli.Stored(args[i].1) == Some(ps[i].setting) && args[i].0 == ps[i].name
    requires forall i, j :: 0 <= i < j < |ps| ==> ps[i].name != ps[j].name
    ensures Cli.AssignAll([], args[..k + 1]) == ps[..k + 1]
  {
    Cli.AssignAllStep([], args, k);
    if k == 0 {
      assert args[..0] == [];
    } else {
      AssignUpTo(args, ps, k - 1);
    }
    var before := ps[..k];
    assert args[k].0 !in Cli.Names(before) by {
      forall i | 0 <= i < |before| ensures Cli.Names(before)[i] != args[k].0 { }
    }
    Cli.PutAbsent(before, args[k].0, ps[k].setting);
    assert before + [Cli.Param(args[k].0, ps[k].setting)] == ps[..k + 1];
  }

  /** The range names exactly `size` bytes: from offset 0 up to and including `size - 1`. */
  lemma RangeCoversSize(size: nat)
    requires size >= 1
    ensures var range := "0-" + IntToString(size - 1);
      range[..2] == "0-" && ParseInt(range[2..]) == Some(size - 1)
  {
    var digits := NatToString(size - 1);
    assert ("0-" + digits)[2..] == digits;
    NatToStringValue(size - 1);
    ParseIntDigits(digits);
  }

  /** The URL path starts with exactly one added `/`: an absolute file is kept as is. */
  lemma UrlPath(o: Options, file: string)
    ensures var origin := "ftp://" + o.host + ":" + NatToString(o.port);
      Url(o, file) == origin + (if "/" <= file then file else "/" + file)
    ensures Url(o, EnsureLeft(file, "/")) == Url(o, file)
  {
  }

  /** The executed command carries the real password, next to the user name. */
  lemma RequestShowsPassword(o: Options, file: string, size: int, quote: seq<string> -> string)
    ensures exists before, after :: DownloadRequest(o, file, size, quote).command
                                == before + ("--user " + quote([o.user + ":" + o.password])) + after
  {
    UserInCommand(o, Url(o, file), size, false, quote);
  }

  /** The logged command shows the user with the placeholder and does not depend on the password at all. */
  lemma LoggedCommandHidesPassword(o: Options, password: string, file: string, size: int, quote: seq<string> -> string)
    ensures exists before, after :: LoggedCommand(o, file, size, quote)
                                == before + ("--user " + quote([o.user + ":" + Cli.MaskedPassword])) + after
    ensures LoggedCommand(o.(password := password), file, size, quote) == LoggedCommand(o, file, size, quote)
  {
    UserInCommand(o, file, size, true, quote);
    DownloadCommandText(o, file, size, true, quote);
    DownloadCommandText(o.(password := password), file, size, true, quote);
  }
}
