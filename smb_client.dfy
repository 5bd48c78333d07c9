// The wrapper around `smbget` (downloads) and `smbclient` (remote `ls` and `du`) that the Samba
// collector uses.

module SmbClient {
  import opened Wrappers
  import opened Text
  import CurlFtp

  /**
   * A configured client. The service (`//server/share`) is required; a user name or password that
   * is missing, null or empty counts as not given.
   */
  datatype Client = Client(service: string, username: Option<string>, password: Option<string>)

  /** `if (this._username)` / `if (this._password)` */
  predicate Given(s: Option<string>) {
    s.Some? && s.value != ""
  }

  // ---------------------------------------------------------------------------------------------
  // `_escape`

  /** The characters the escaping expression matches: backslash, double and single quote. */
  predicate IsQuoteChar(c: char) {
    c == '\\' || c == '"' || c == '\''
  }

  /** A replacement template applied to a match whose first group is `group`: `$1` stands for the group. */
  function Expand(template: string, group: string): string
    decreases |template|
  {
    if template == [] then []
    else if |template| >= 2 && template[..2] == "$1" then group + Expand(template[2..], group)
    else [template[0]] + Expand(template[1..], group)
  }

  /** `_escape(str)`: every quote character is replaced by the template `$1`, i.e. by itself. */
  function Escape(s: string): string
    decreases |s|
  {
    if s == [] then []
    else (if IsQuoteChar(s[0]) then Expand("$1", [s[0]]) else [s[0]]) + Escape(s[1..])
  }

  /** The escaping changes nothing: the template puts back exactly the character it matched. */
  lemma {:induction false} EscapeIdentity(s: string)
    ensures Escape(s) == s
  {
    if s != [] {
      EscapeIdentity(s[1..]);
      assert Expand("$1", [s[0]]) == [s[0]] by {
        assert "$1"[..2] == "$1" && "$1"[2..] == [];
      }
      assert [s[0]] + s[1..] == s;
    }
  }

  // ---------------------------------------------------------------------------------------------
  // `downloadFileChunk`

  /** The `smbget` options: `--stdout`, then either the credentials or `--guest`. */
  function DownloadArgs(c: Client): (args: seq<string>)
    ensures |args| >= 2 && args[0] == "--stdout"
    ensures "--guest" in args <==> !Given(c.username)
    ensures Given(c.username) ==> args[1] == "--username=" + c.username.value
    ensures (exists i :: 0 <= i < |args| && "--password=" <= args[i]) <==> Given(c.username) && Given(c.password)
    ensures Given(c.username) && Given(c.password) ==> args == ["--stdout", "--username=" + c.username.value, "--password=" + c.password.value]
  {
    if !Given(c.username) then
      var args := ["--stdout", "--guest"];
      assert !("--password=" <= args[0]) && !("--password=" <= args[1]);
      args
    else
      var user := "--username=" + c.username.value;
      assert user[2] == 'u';
      if Given(c.password) then
        var args := ["--stdout", user, "--password=" + c.password.value];
        assert "--guest" != args[1] && "--guest" != args[2] by {
          assert args[2][2] == 'p';
        }
        assert "--password=" <= args[2];
        args
      else
        var args := ["--stdout", user];
        assert !("--password=" <= args[0]) && !("--password=" <= args[1]);
        args
  }

  /** The remote path `smb:<service><file>`. */
  function RemotePath(c: Client, file: string): string {
    "smb:" + c.service + file
  }

  /** The shell command: `smbget` writing to standard output, cut to `size` bytes by `head`. */
  function DownloadCommand(c: Client, file: string, size: int, quote: seq<string> -> string): string {
    "smbget " + quote(DownloadArgs(c)) + " " + quote([RemotePath(c, file)]) + " | head --bytes=" + IntToString(size)
  }

  /** The command `downloadFileChunk` executes (and logs), and its exec buffer limit. */
  function DownloadRequest(c: Client, file: string, size: int, quote: seq<string> -> string): (e: CurlFtp.Exec)
    ensures e.maxBuffer == size
  {
    CurlFtp.Exec(DownloadCommand(c, file, size, quote), size)
  }

  /**
   * `smbget` is handed the quoted options and the quoted remote path, and its output is cut by
   * `head` to exactly `size` bytes.
   */
  lemma DownloadPipesIntoHead(c: Client, file: string, size: nat, quote: seq<string> -> string)
    ensures exists rest :: DownloadRequest(c, file, size, quote).command
                      == "smbget " + quote(DownloadArgs(c)) + rest + " | head --bytes=" + NatToString(size)
    ensures DigitsValue(NatToString(size)) == size
  {
    var rest := " " + quote([RemotePath(c, file)]);
    var q := quote(DownloadArgs(c));
    ConcatAssoc("smbget " + q, " ", quote([RemotePath(c, file)]));
    NatToStringValue(size);
  }

  // ---------------------------------------------------------------------------------------------
  // `_executeRemoteCommand`, `ls` and `du`

  /** The `smbclient` arguments for running `command` in `directory` on the service. */
  function RemoteArgs(c: Client, directory: string, command: string): (args: seq<string>)
    ensures |args| == 4 + (if Given(c.username) then 1 else 0) + (if Given(c.password) then 1 else 0)
    ensures args[0] == c.service
    ensures Given(c.password) ==> args[1] == c.password.value
    ensures var k := if Given(c.password) then 2 else 1;
      args[k..k + 3] == ["--no-pass", "--directory=" + directory, "--command=" + command]
    ensures Given(c.username) ==> args[|args| - 1] == "--user=" + c.username.value
    ensures !Given(c.username) ==> args[|args| - 1] == "--command=" + command
  {
    var base := [c.service, "--no-pass", "--directory=" + directory, "--command=" + command]
              + (if Given(c.username) then ["--user=" + c.username.value] else []);
    var args := if Given(c.password) then base[..1] + [c.password.value] + base[1..] else base;
    var k, tail := if Given(c.password) then 2 else 1, ["--no-pass", "--directory=" + directory, "--command=" + command];
    var user := if Given(c.username) then ["--user=" + c.username.value] else [];
    assert args == args[..k] + tail + user by {
      assert base == [c.service] + tail + user;
      assert base[1..] == tail + user;
    }
    assert args[k..k + 3] == tail;
    args
  }

  /** The line `_executeRemoteCommand` logs. */
  function LoggedRemoteCommand(c: Client, directory: string, command: string): string {
    "smbclient " + Join(RemoteArgs(c, directory, command), " ")
  }

  /** `ls(directory)` */
  function LsArgs(c: Client, directory: string): seq<string> {
    RemoteArgs(c, directory, "ls")
  }

  /** The remote command `du(file)` sends. */
  function DuCommand(file: string): string {
    "du \"" + Escape(file) + "\""
  }

  /** `du(file)`: the command runs in the root directory of the service. */
  function DuArgs(c: Client, file: string): seq<string> {
    RemoteArgs(c, "/", DuCommand(file))
  }

  /** `ls` runs `ls` in the given directory; `du` quotes the file verbatim and runs in `/`. */
  lemma CommandsSent(c: Client, directory: string, file: string)
    ensures var k := if Given(c.password) then 2 else 1;
      LsArgs(c, directory)[k..k + 3] == ["--no-pass", "--directory=" + directory, "--command=ls"]
      && DuArgs(c, file)[k..k + 3] == ["--no-pass", "--directory=/", "--command=du \"" + file + "\""]
  {
    EscapeIdentity(file);
    assert "--command=" + "ls" == "--command=ls";
    assert "--directory=" + "/" == "--directory=/";
    assert "--command=" + ("du \"" + file + "\"") == "--command=du \"" + file + "\"" by {
      ConcatAssoc("--command=", "du \"" + file, "\"");
      ConcatAssoc("--command=", "du \"", file);
      assert "--command=" + "du \"" == "--command=du \"";
    }
  }

  /** The password is passed in the clear, right after the service, and so shows up in the log. */
  lemma PasswordLogged(c: Client, directory: string, command: string)
    requires Given(c.password)
    ensures var args := RemoteArgs(c, directory, command);
      LoggedRemoteCommand(c, directory, command) == "smbclient " + c.service + " " + c.password.value + " " + Join(args[2..], " ")
  {
    var args := RemoteArgs(c, directory, command);
    assert Join(args, " ") == args[0] + " " + Join(args[1..], " ");
    assert args[1..][1..] == args[2..];
    assert Join(args[1..], " ") == args[1] + " " + Join(args[2..], " ");
  }

  // ---------------------------------------------------------------------------------------------
  // the process handlers

  /** The error a failed remote command reports: its message and the text it wrote to stderr. */
  datatype ExitError = ExitError(message: string, output: string)

  /** `String(code)` for the exit code of the `close` event; a process killed by a signal has none. */
  function CodeText(code: Option<int>): string {
    match code
    case None => "null"
    case Some(n) => IntToString(n)
  }

  /** The `close` handler: exit code 0 yields the collected stdout, any other code an error carrying stderr. */
  function Closed(stdout: string, stderr: string, code: Option<int>): (r: Result<string, ExitError>)
    ensures r.Ok? <==> code == Some(0)
    ensures r.Ok? ==> r.value == stdout
    ensures r.Err? ==> r.error.output == stderr && "Program terminated with exit code " <= r.error.message
  {
    if code == Some(0) then Ok(stdout)
    else Err(ExitError("Program terminated with exit code " + CodeText(code), stderr))
  }

  /** The output the `data` handlers collect from a spawned `smbclient`. */
  class RemoteProcess {
    var stdout: string
    var stderr: string

    constructor ()
      ensures stdout == "" && stderr == ""
    {
      stdout := "";
      stderr := "";
    }

    /** `proc.stdout.on('data', ...)` */
    method OnStdout(data: string)
      modifies this
      ensures stdout == old(stdout) + data && stderr == old(stderr)
    {
      stdout := stdout + data;
    }

    /** `proc.stderr.on('data', ...)` */
    method OnStderr(data: string)
      modifies this
      ensures stderr == old(stderr) + data && stdout == old(stdout)
    {
      stderr := stderr + data;
    }

    /** `proc.on('close', ...)`: the value handed to the callback. */
    method OnClose(code: Option<int>) returns (r: Result<string, ExitError>)
      ensures r == Closed(stdout, stderr, code)
    {
      if code == Some(0) {
        r := Ok(stdout);
      } else {
        r := Err(ExitError("Program terminated with exit code " + CodeText(code), stderr));
      }
    }
  }

  /** One `data` event of a spawned process. */
  datatype Chunk = Out(data: string) | ErrOut(data: string)

  function Outs(events: seq<Chunk>): string
    decreases |events|
  {
    if events == [] then ""
    else Outs(events[..|events| - 1]) + (if events[|events| - 1].Out? then events[|events| - 1].data else "")
  }

  function ErrOuts(events: seq<Chunk>): string
    decreases |events|
  {
    if events == [] then ""
    else ErrOuts(events[..|events| - 1]) + (if events[|events| - 1].ErrOut? then events[|events| - 1].data else "")
  }

  /**
   * A whole run: the chunks arrive, then the process closes. The callback gets stdout, in arrival
   * order, exactly when the exit code is 0, and otherwise the stderr text.
   */
  method Run(events: seq<Chunk>, code: Option<int>) returns (r: Result<string, ExitError>)
    ensures r == Closed(Outs(events), ErrOuts(events), code)
  {
    var p := new RemoteProcess();
    for i := 0 to |events|
      invariant p.stdout == Outs(events[..i]) && p.stderr == ErrOuts(events[..i])
    {
      assert events[..i + 1][..i] == events[..i];
      match events[i]
      case Out(data) => p.OnStdout(data);
      case ErrOut(data) => p.OnStderr(data);
    }
    assert events[..|events|] == events;
    r := p.OnClose(code);
  }

  /** The test run: stdout `data from stdout` and exit code 0, or both streams and exit code 42. */
  lemma RunExamples()
    ensures Closed(Outs([Out("data from stdout")]), ErrOuts([Out("data from stdout")]), Some(0)) == Ok("data from stdout")
    ensures Closed(Outs([Out("data from stdout"), ErrOut("data from stderr")]),
                   ErrOuts([Out("data from stdout"), ErrOut("data from stderr")]), Some(42))
         == Err(ExitError("Program terminated with exit code 42", "data from stderr"))
  {
    var one := [Out("data from stdout")];
    var two := [Out("data from stdout"), ErrOut("data from stderr")];
    assert two[..1] == one && one[..0] == [];
    assert Outs(one) == "data from stdout" && ErrOuts(one) == "";
    assert Outs(two) == "data from stdout" && ErrOuts(two) == "data from stderr";
    assert IntToString(42) == "42";
    assert "Program terminated with exit code " + "42" == "Program terminated with exit code 42";
  }
}
