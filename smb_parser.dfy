/**
 * `SmbParser`: line-oriented parsers for the output of `smbclient`'s `ls` and `du` commands. The
 * four regular expressions become functions that return their named captures; dates are kept as
 * the captured text.
 */
module SmbParser {
  import opened Wrappers
  import opened Text

  /** A file line of `ls`: `{name, size, date}`. */
  datatype SmbFile = SmbFile(name: string, size: nat, date: string)

  /** A directory line of `ls`: `{name, date}`. */
  datatype SmbDir = SmbDir(name: string, date: string)

  datatype LsResult = LsResult(files: seq<SmbFile>, directories: seq<SmbDir>)

  /** `result.blocks` once a blocks line has been seen; `None` stands for the initial `{}`. */
  datatype Blocks = Blocks(count: nat, size: nat, available: nat)

  datatype DuResult = DuResult(total: Option<nat>, blocks: Option<Blocks>)

  // ---------------------------------------------------------------------------------------------
  // Pieces of the patterns

  predicate AllSpaces(s: string) { forall i :: 0 <= i < |s| ==> IsSpace(s[i]) }

  /** `\s+` */
  predicate IsSpaces(s: string) { |s| > 0 && AllSpaces(s) }

  /** `.` matches every character of `line[from..to]`. */
  predicate Plain(line: string, from: nat, to: nat)
    requires to <= |line|
  {
    forall j :: from <= j < to ==> !IsLineTerminator(line[j])
  }

  /** An element of the date pattern. */
  datatype Token =
    | Upper             // [A-Z]
    | Lower             // [a-z]
    | Digit             // \d
    | OneOrTwoDigits    // \d{1,2}
    | Spaces            // \s+
    | Exactly(c: char)

  /** `s` matches the whole of `pattern`. */
  predicate Matches(s: string, pattern: seq<Token>)
    decreases |s|, |pattern|
  {
    if pattern == [] then s == []
    else if s == [] then false
    else
      var rest := pattern[1..];
      match pattern[0]
      case Upper => IsUpper(s[0]) && Matches(s[1..], rest)
      case Lower => IsLower(s[0]) && Matches(s[1..], rest)
      case Digit => IsDigit(s[0]) && Matches(s[1..], rest)
      case Exactly(c) => s[0] == c && Matches(s[1..], rest)
      case OneOrTwoDigits =>
        IsDigit(s[0]) && (Matches(s[1..], rest) || (|s| > 1 && IsDigit(s[1]) && Matches(s[2..], rest)))
      case Spaces => IsSpace(s[0]) && (Matches(s[1..], rest) || Matches(s[1..], pattern))
  }

  /** `[A-Z][a-z]{2} [A-Z][a-z]{2}\s+\d{1,2} \d{1,2}:\d{2}:\d{2} \d{4}` */
  const DatePattern: seq<Token> := [
    Upper, Lower, Lower, Exactly(' '), Upper, Lower, Lower, Spaces, OneOrTwoDigits, Exactly(' '),
    OneOrTwoDigits, Exactly(':'), Digit, Digit, Exactly(':'), Digit, Digit, Exactly(' '),
    Digit, Digit, Digit, Digit]

  /** A date as `ls` prints it. */
  predicate IsDate(s: string) { Matches(s, DatePattern) }

  /** What follows the file name in a directory line, `\s+D\s+(?<size>0)  (?<date>…)$`: the date. */
  function DirTail(t: string): Option<string> {
    var a := LeadingSpaces(t);
    if a == 0 || a == |t| || t[a] != 'D' then None
    else
      var u := t[a + 1..];
      var b := LeadingSpaces(u);
      if b == 0 || !("0  " <= u[b..]) || !IsDate(u[b + 3..]) then None else Some(u[b + 3..])
  }

  datatype Sized = Sized(size: nat, date: string)

  /** What follows the file name in a file line, `\s+(R\s)?(?<size>\d+)  (?<date>…)$`. */
  function FileTail(t: string): Option<Sized> {
    var a := LeadingSpaces(t);
    if a == 0 then None
    else
      var u := t[a..];
      var v := if |u| >= 2 && u[0] == 'R' && IsSpace(u[1]) then u[2..] else u;
      var n := LeadingDigits(v);
      if n == 0 || !("  " <= v[n..]) || !IsDate(v[n + 2..]) then None
      else Some(Sized(DigitsValue(v[..n]), v[n + 2..]))
  }

  predicate IsDirTail(t: string) { DirTail(t).Some? }

  predicate IsFileTail(t: string) { FileTail(t).Some? }

  /**
   * Where the lazy `(?<filename>.+?)` that starts at index 2 ends: the least `k`, from `from` on,
   * such that `.` matches the name and the rest of the line satisfies `tail`.
   */
  function Cut(line: string, tail: string -> bool, from: nat): (r: Option<nat>)
    requires 3 <= from
    ensures r.Some? ==> from <= r.value <= |line| && Plain(line, from - 1, r.value) && tail(line[r.value..])
    ensures r.Some? ==> forall i :: from <= i < r.value ==> !tail(line[i..])
    ensures r.None? ==> forall i :: from <= i <= |line| && Plain(line, from - 1, i) ==> !tail(line[i..])
    decreases |line| + 1 - from
  {
    if from > |line| || IsLineTerminator(line[from - 1]) then None
    else if tail(line[from..]) then Some(from)
    else Cut(line, tail, from + 1)
  }

  /** `XRegExp.exec(line, regex.lsDir)` */
  function LsDir(line: string): Option<SmbDir> {
    if !("  " <= line) then None
    else
      match Cut(line, IsDirTail, 3)
      case None => None
      case Some(k) => Some(SmbDir(line[2..k], DirTail(line[k..]).value))
  }

  /** `XRegExp.exec(line, regex.lsFile)`, the size read with `parseInt`. */
  function LsFile(line: string): Option<SmbFile> {
    if !("  " <= line) then None
    else
      match Cut(line, IsFileTail, 3)
      case None => None
      case Some(k) =>
        var tail := FileTail(line[k..]).value;
        Some(SmbFile(line[2..k], tail.size, tail.date))
  }

  /**
   * A name matched by either pattern is the shortest one that lets the rest of the line match:
   * it starts after the two leading spaces, holds no line terminator, and no shorter cut works.
   */
  lemma LsDirShortest(line: string)
    requires LsDir(line).Some?
    ensures var d := LsDir(line).value; var k := 2 + |d.name|;
            && "  " + d.name <= line && |d.name| > 0 && Plain(line, 2, k)
            && DirTail(line[k..]) == Some(d.date)
            && forall i :: 3 <= i < k ==> !IsDirTail(line[i..])
  {
    var k := Cut(line, IsDirTail, 3).value;
    DirCutShortest(line, k);
    LsDirCut(line, k);
    NamePrefix(line, k);
  }

  /** A directory line cut at `k`: the name is what lies between the two leading spaces and `k`. */
  lemma LsDirCut(line: string, k: nat)
    requires "  " <= line && Cut(line, IsDirTail, 3) == Some(k)
    ensures k <= |line| && DirTail(line[k..]).Some?
    ensures LsDir(line) == Some(SmbDir(line[2..k], DirTail(line[k..]).value))
  {
  }

  lemma LsFileShortest(line: string)
    requires LsFile(line).Some?
    ensures var f := LsFile(line).value; var k := 2 + |f.name|;
            && "  " + f.name <= line && |f.name| > 0 && Plain(line, 2, k)
            && FileTail(line[k..]) == Some(Sized(f.size, f.date))
            && forall i :: 3 <= i < k ==> !IsFileTail(line[i..])
  {
    var k := Cut(line, IsFileTail, 3).value;
    FileCutShortest(line, k);
    LsFileCut(line, k);
    NamePrefix(line, k);
  }

  /** A file line cut at `k`: the name is what lies between the two leading spaces and `k`. */
  lemma LsFileCut(line: string, k: nat)
    requires "  " <= line && Cut(line, IsFileTail, 3) == Some(k)
    ensures k <= |line| && FileTail(line[k..]).Some?
    ensures var t := FileTail(line[k..]).value; LsFile(line) == Some(SmbFile(line[2..k], t.size, t.date))
  {
  }

  /** The two leading spaces and the name up to the cut are a prefix of the line. */
  lemma NamePrefix(line: string, k: nat)
    requires "  " <= line && 2 <= k <= |line|
    ensures "  " + line[2..k] <= line
  {
    assert line[..k] == line[..2] + line[2..k];
  }

  lemma FileCutShortest(line: string, k: nat)
    requires Cut(line, IsFileTail, 3) == Some(k)
    ensures 3 <= k <= |line| && Plain(line, 2, k) && IsFileTail(line[k..])
    ensures forall i :: 3 <= i < k ==> !IsFileTail(line[i..])
  {
    CutShortest(line, IsFileTail, k);
  }

  lemma DirCutShortest(line: string, k: nat)
    requires Cut(line, IsDirTail, 3) == Some(k)
    ensures 3 <= k <= |line| && Plain(line, 2, k) && IsDirTail(line[k..])
    ensures forall i :: 3 <= i < k ==> !IsDirTail(line[i..])
  {
    CutShortest(line, IsDirTail, k);
  }

  /** What a cut at `k` says about the line, with the tail test applied. */
  lemma CutShortest(line: string, tail: string -> bool, k: nat)
    requires Cut(line, tail, 3) == Some(k)
    ensures 3 <= k <= |line| && Plain(line, 2, k) && tail(line[k..])
    ensures forall i :: 3 <= i < k ==> !tail(line[i..])
  {
  }

  /** Past its `D`, a directory line's tail is a file line's tail with size 0. */
  lemma {:induction false} DirTailIsFileTail(t: string)
    requires DirTail(t).Some?
    ensures LeadingSpaces(t) < |t| && FileTail(t[LeadingSpaces(t) + 1..]) == Some(Sized(0, DirTail(t).value))
  {
    var w, date := DirTailParts(t);
    DigitsFileTail(w, "0", date);
    assert DigitsValue("0") == 0;
  }

  /**
   * The parts of a directory line's tail: spaces, `D`, then the spaces `w`, the size `0`, two
   * spaces and the date.
   */
  lemma DirTailParts(t: string) returns (w: string, date: string)
    requires DirTail(t).Some?
    ensures LeadingSpaces(t) < |t| && date == DirTail(t).value
    ensures AllSpaces(w) && w != [] && IsDate(date)
    ensures t[LeadingSpaces(t) + 1..] == w + "0" + "  " + date
  {
    var u := t[LeadingSpaces(t) + 1..];
    date := DirTail(t).value;
    assert "0  " <= u[LeadingSpaces(u)..] && date == u[LeadingSpaces(u) + 3..];
    w := SpacesThenZero(u, date);
  }

  /** Text that is white space, then `0  ` and `date`, taken apart. */
  lemma SpacesThenZero(u: string, date: string) returns (w: string)
    requires LeadingSpaces(u) > 0 && "0  " <= u[LeadingSpaces(u)..] && date == u[LeadingSpaces(u) + 3..]
    ensures AllSpaces(w) && w != [] && u == w + "0" + "  " + date
  {
    var b := LeadingSpaces(u);
    w := u[..b];
    LeadingSpacesShape(u);
    assert u[b..] == "0" + "  " + date;
    assert u == w + u[b..];
  }

  /**
   * Every directory line also matches the file pattern (the name then reaches up to the `D`),
   * so trying the directory pattern first is what keeps directories out of the file list.
   */
  lemma {:induction false} DirLineMatchesFile(line: string)
    requires Plain(line, 0, |line|) && LsDir(line).Some?
    ensures LsFile(line).Some?
  {
    var k := Cut(line, IsDirTail, 3).value;
    var t := line[k..];
    DirTailIsFileTail(t);
    var j := k + LeadingSpaces(t) + 1;
    assert line[j..] == t[LeadingSpaces(t) + 1..];
    assert IsFileTail(line[j..]);
    assert Plain(line, 2, j);
  }

  // ---------------------------------------------------------------------------------------------
  // ls

  /** What `ls` makes of one line. */
  datatype LsLine = DirLine(dir: SmbDir) | FileLine(file: SmbFile) | Dropped

  /** The directory pattern is tried first, the file pattern only when it fails. */
  function ClassifyLs(line: string): (r: LsLine)
    ensures r.DirLine? <==> LsDir(line).Some?
    ensures r.FileLine? <==> LsDir(line).None? && LsFile(line).Some?
    ensures r.DirLine? ==> Some(r.dir) == LsDir(line)
    ensures r.FileLine? ==> Some(r.file) == LsFile(line)
  {
    match LsDir(line)
    case Some(d) => DirLine(d)
    case None =>
      match LsFile(line)
      case Some(f) => FileLine(f)
      case None => Dropped
  }

  /** The pushes of the `forEach` loop, in line order. */
  function LsCollect(kinds: seq<LsLine>): (r: LsResult)
    ensures |r.files| + |r.directories| <= |kinds|
    decreases |kinds|
  {
    if kinds == [] then LsResult([], [])
    else
      var prev := LsCollect(kinds[..|kinds| - 1]);
      match kinds[|kinds| - 1]
      case DirLine(d) => prev.(directories := prev.directories + [d])
      case FileLine(f) => prev.(files := prev.files + [f])
      case Dropped => prev
  }

  function LsLines(lines: seq<string>): (r: seq<LsLine>)
    ensures |r| == |lines| && forall i :: 0 <= i < |lines| ==> r[i] == ClassifyLs(lines[i])
  {
    seq(|lines|, i requires 0 <= i < |lines| => ClassifyLs(lines[i]))
  }

  /** `SmbParser.ls` of the lines of an output. */
  function LsOf(lines: seq<string>): LsResult {
    LsCollect(LsLines(lines))
  }

  /** Output split into two pieces parses into the two results, one after the other. */
  lemma {:induction false} LsCollectConcat(a: seq<LsLine>, b: seq<LsLine>)
    ensures LsCollect(a + b)
         == LsResult(LsCollect(a).files + LsCollect(b).files, LsCollect(a).directories + LsCollect(b).directories)
    decreases |b|
  {
    if b == [] {
      assert a + b == a;
    } else {
      var init := b[..|b| - 1];
      assert (a + b)[..|a + b| - 1] == a + init;
      assert (a + b)[|a + b| - 1] == b[|b| - 1];
      LsCollectConcat(a, init);
    }
  }

  /** Every directory line yields one directory entry, every other file line one file entry, and nothing else does. */
  lemma {:induction false} LsCollectEntries(kinds: seq<LsLine>)
    ensures forall d :: d in LsCollect(kinds).directories <==> DirLine(d) in kinds
    ensures forall f :: f in LsCollect(kinds).files <==> FileLine(f) in kinds
    ensures |LsCollect(kinds).directories| == |kinds| - |LsCollect(kinds).files| - Count(kinds, Dropped)
    decreases |kinds|
  {
    if kinds != [] {
      var init := kinds[..|kinds| - 1];
      assert kinds == init + [kinds[|kinds| - 1]];
      LsCollectEntries(init);
      CountAppend(init, kinds[|kinds| - 1], Dropped);
    }
  }

  function Count<T(==)>(xs: seq<T>, x: T): nat
    decreases |xs|
  {
    if xs == [] then 0 else Count(xs[..|xs| - 1], x) + (if xs[|xs| - 1] == x then 1 else 0)
  }

  lemma CountAppend<T>(xs: seq<T>, y: T, x: T)
    ensures Count(xs + [y], x) == Count(xs, x) + (if y == x then 1 else 0)
  {
    assert (xs + [y])[..|xs|] == xs;
  }

  /** The lines' entries, stated directly on the lines. */
  lemma LsOfEntries(lines: seq<string>)
    ensures forall d :: d in LsOf(lines).directories <==> exists i :: 0 <= i < |lines| && LsDir(lines[i]) == Some(d)
    ensures forall f :: f in LsOf(lines).files <==>
              exists i :: 0 <= i < |lines| && LsDir(lines[i]).None? && LsFile(lines[i]) == Some(f)
  {
    var kinds := LsLines(lines);
    LsCollectEntries(kinds);
    forall d ensures DirLine(d) in kinds <==> exists i :: 0 <= i < |lines| && LsDir(lines[i]) == Some(d) {
      if DirLine(d) in kinds {
        var i :| 0 <= i < |kinds| && kinds[i] == DirLine(d);
        assert LsDir(lines[i]) == Some(d);
      }
    }
    forall f ensures FileLine(f) in kinds <==>
                     exists i :: 0 <= i < |lines| && LsDir(lines[i]).None? && LsFile(lines[i]) == Some(f) {
      if FileLine(f) in kinds {
        var i :| 0 <= i < |kinds| && kinds[i] == FileLine(f);
        assert LsDir(lines[i]).None? && LsFile(lines[i]) == Some(f);
      }
    }
  }

  /** `SmbParser.ls(output)` */
  method Ls(output: string) returns (r: LsResult)
    ensures r == LsOf(Split(output, '\n'))
  {
    var lines := Split(output, '\n');
    ghost var kinds := LsLines(lines);
    var files: seq<SmbFile> := [];
    var directories: seq<SmbDir> := [];
    for i := 0 to |lines|
      invariant LsResult(files, directories) == LsCollect(kinds[..i])
    {
      assert kinds[..i + 1][..i] == kinds[..i];
      assert kinds[i] == ClassifyLs(lines[i]);
      var d := LsDir(lines[i]);
      if d.Some? {
        directories := directories + [d.value];
      } else {
        var f := LsFile(lines[i]);
        if f.Some? {
          files := files + [f.value];
        }
      }
    }
    assert kinds[..|lines|] == kinds;
    r := LsResult(files, directories);
  }

  // ---------------------------------------------------------------------------------------------
  // du

  datatype Read = Read(value: nat, rest: string)

  /** `(\d+)`, read with `parseInt`, and what follows it. */
  function Number(s: string): (r: Option<Read>)
    ensures r.Some? <==> |s| > 0 && IsDigit(s[0])
    ensures r.Some? ==> |r.value.rest| < |s| && (r.value.rest == [] || !IsDigit(r.value.rest[0]))
  {
    var n := LeadingDigits(s);
    if n == 0 then None else Some(Read(DigitsValue(s[..n]), s[n..]))
  }

  /** A literal, and what follows it. */
  function Literal(s: string, lit: string): (r: Option<string>)
    ensures r.Some? <==> lit <= s
    ensures r.Some? ==> lit + r.value == s
  {
    if lit <= s then Some(s[|lit|..]) else None
  }

  /** `XRegExp.exec(line, regex.duTotal)`: `^\s*Total number of bytes:\s*(?<bytes>\d+)\s*$` */
  function DuTotal(line: string): Option<nat> {
    match Literal(line[LeadingSpaces(line)..], "Total number of bytes:")
    case None => None
    case Some(v) =>
      match Number(v[LeadingSpaces(v)..])
      case None => None
      case Some(bytes) => if AllSpaces(bytes.rest) then Some(bytes.value) else None
  }

  /**
   * `XRegExp.exec(line, regex.duBlocks)`:
   * `^\s*(?<count>\d+) blocks of size (?<size>\d+)\. (?<available>\d+) blocks available\s*$`
   */
  function DuBlocks(line: string): Option<Blocks> {
    match Number(line[LeadingSpaces(line)..])
    case None => None
    case Some(count) =>
      match Literal(count.rest, " blocks of size ")
      case None => None
      case Some(s1) =>
        match Number(s1)
        case None => None
        case Some(size) =>
          match Literal(size.rest, ". ")
          case None => None
          case Some(s2) =>
            match Number(s2)
            case None => None
            case Some(available) =>
              match Literal(available.rest, " blocks available")
              case None => None
              case Some(s3) => if AllSpaces(s3) then Some(Blocks(count.value, size.value, available.value)) else None
  }

  /** A total line is never a blocks line: one starts with a letter, the other with a digit. */
  lemma TotalIsNotBlocks(line: string)
    ensures DuTotal(line).Some? ==> DuBlocks(line).None?
  {
    var u := line[LeadingSpaces(line)..];
    if DuTotal(line).Some? {
      assert "Total number of bytes:" <= u;
      assert u[0] == 'T';
    }
  }

  /** What `du` makes of one line. */
  datatype DuLine = TotalLine(bytes: nat) | BlocksLine(blocks: Blocks) | Ignored

  function ClassifyDu(line: string): (r: DuLine)
    ensures r.TotalLine? <==> DuTotal(line).Some?
    ensures r.BlocksLine? <==> DuBlocks(line).Some?
    ensures r.TotalLine? ==> DuTotal(line) == Some(r.bytes)
    ensures r.BlocksLine? ==> DuBlocks(line) == Some(r.blocks)
  {
    TotalIsNotBlocks(line);
    match DuTotal(line)
    case Some(t) => TotalLine(t)
    case None =>
      match DuBlocks(line)
      case Some(b) => BlocksLine(b)
      case None => Ignored
  }

  /** The assignments of the `forEach` loop, in line order. */
  function DuCollect(kinds: seq<DuLine>): DuResult
    decreases |kinds|
  {
    if kinds == [] then DuResult(None, None)
    else
      var prev := DuCollect(kinds[..|kinds| - 1]);
      match kinds[|kinds| - 1]
      case TotalLine(t) => prev.(total := Some(t))
      case BlocksLine(b) => prev.(blocks := Some(b))
      case Ignored => prev
  }

  function DuLines(lines: seq<string>): (r: seq<DuLine>)
    ensures |r| == |lines| && forall i :: 0 <= i < |lines| ==> r[i] == ClassifyDu(lines[i])
  {
    seq(|lines|, i requires 0 <= i < |lines| => ClassifyDu(lines[i]))
  }

  /** `SmbParser.du` of the lines of an output. */
  function DuOf(lines: seq<string>): DuResult {
    DuCollect(DuLines(lines))
  }

  /** No line is a total line. */
  predicate NoTotal(kinds: seq<DuLine>) {
    forall i :: 0 <= i < |kinds| ==> !kinds[i].TotalLine?
  }

  /** Line `i` is the last total line, and it holds `v`. */
  predicate LastTotalAt(kinds: seq<DuLine>, i: int, v: nat) {
    0 <= i < |kinds| && kinds[i] == TotalLine(v) && forall j :: i < j < |kinds| ==> !kinds[j].TotalLine?
  }

  /** `total` stays null iff there is no total line, and otherwise is the last total line's count. */
  lemma {:induction false} DuCollectTotal(kinds: seq<DuLine>)
    ensures DuCollect(kinds).total.None? <==> NoTotal(kinds)
    ensures DuCollect(kinds).total.Some? ==> exists i :: LastTotalAt(kinds, i, DuCollect(kinds).total.value)
    decreases |kinds|
  {
    if kinds != [] {
      DuCollectTotal(kinds[..|kinds| - 1]);
      DuCollectTotalStep(kinds);
    }
  }

  /** One more line: a total line sets the value, any other line keeps it. */
  lemma DuCollectTotalStep(kinds: seq<DuLine>)
    requires kinds != []
    requires var init := kinds[..|kinds| - 1];
      && (DuCollect(init).total.None? <==> NoTotal(init))
      && (DuCollect(init).total.Some? ==> exists i :: LastTotalAt(init, i, DuCollect(init).total.value))
    ensures DuCollect(kinds).total.None? <==> NoTotal(kinds)
    ensures DuCollect(kinds).total.Some? ==> exists i :: LastTotalAt(kinds, i, DuCollect(kinds).total.value)
  {
    var n := |kinds| - 1;
    var init, last := kinds[..n], kinds[n];
    assert forall i :: 0 <= i < n ==> init[i] == kinds[i];
    var r, prev := DuCollect(kinds), DuCollect(init);
    if last.TotalLine? {
      assert LastTotalAt(kinds, n, r.total.value);
    } else {
      assert r.total == prev.total;
      assert NoTotal(kinds) <==> NoTotal(init);
      if r.total.Some? {
        var i :| LastTotalAt(init, i, prev.total.value);
        assert LastTotalAt(kinds, i, r.total.value);
      }
    }
  }

  /** No line is a blocks line. */
  predicate NoBlocks(kinds: seq<DuLine>) {
    forall i :: 0 <= i < |kinds| ==> !kinds[i].BlocksLine?
  }

  /** Line `i` is the last blocks line, and it holds `v`. */
  predicate LastBlocksAt(kinds: seq<DuLine>, i: int, v: Blocks) {
    0 <= i < |kinds| && kinds[i] == BlocksLine(v) && forall j :: i < j < |kinds| ==> !kinds[j].BlocksLine?
  }

  /** `blocks` stays `{}` iff there is no blocks line, and otherwise is the last blocks line's. */
  lemma {:induction false} DuCollectBlocks(kinds: seq<DuLine>)
    ensures DuCollect(kinds).blocks.None? <==> NoBlocks(kinds)
    ensures DuCollect(kinds).blocks.Some? ==> exists i :: LastBlocksAt(kinds, i, DuCollect(kinds).blocks.value)
    decreases |kinds|
  {
    if kinds != [] {
      DuCollectBlocks(kinds[..|kinds| - 1]);
      DuCollectBlocksStep(kinds);
    }
  }

  /** One more line: a blocks line sets the value, any other line keeps it. */
  lemma DuCollectBlocksStep(kinds: seq<DuLine>)
    requires kinds != []
    requires var init := kinds[..|kinds| - 1];
      && (DuCollect(init).blocks.None? <==> NoBlocks(init))
      && (DuCollect(init).blocks.Some? ==> exists i :: LastBlocksAt(init, i, DuCollect(init).blocks.value))
    ensures DuCollect(kinds).blocks.None? <==> NoBlocks(kinds)
    ensures DuCollect(kinds).blocks.Some? ==> exists i :: LastBlocksAt(kinds, i, DuCollect(kinds).blocks.value)
  {
    var n := |kinds| - 1;
    var init, last := kinds[..n], kinds[n];
    assert forall i :: 0 <= i < n ==> init[i] == kinds[i];
    var r, prev := DuCollect(kinds), DuCollect(init);
    if last.BlocksLine? {
      assert LastBlocksAt(kinds, n, r.blocks.value);
    } else {
      assert r.blocks == prev.blocks;
      assert NoBlocks(kinds) <==> NoBlocks(init);
      if r.blocks.Some? {
        var i :| LastBlocksAt(init, i, prev.blocks.value);
        assert LastBlocksAt(kinds, i, r.blocks.value);
      }
    }
  }

  /** `SmbParser.du(output)` */
  method Du(output: string) returns (r: DuResult)
    ensures r == DuOf(Split(output, '\n'))
  {
    var lines := Split(output, '\n');
    ghost var kinds := DuLines(lines);
    r := DuResult(None, None);
    for i := 0 to |lines|
      invariant r == DuCollect(kinds[..i])
    {
      assert kinds[..i + 1][..i] == kinds[..i];
      assert kinds[i] == ClassifyDu(lines[i]);
      var total := DuTotal(lines[i]);
      if total.Some? {
        r := r.(total := total);
      } else {
        var blocks := DuBlocks(lines[i]);
        if blocks.Some? {
          r := r.(blocks := blocks);
        }
      }
    }
    assert kinds[..|lines|] == kinds;
  }

  // ---------------------------------------------------------------------------------------------
  // Lines as smbclient prints them

  /** Matching is compositional: a match of each part matches the concatenation. */
  lemma {:induction false} MatchesConcat(a: string, p: seq<Token>, b: string, q: seq<Token>)
    requires Matches(a, p) && Matches(b, q)
    ensures Matches(a + b, p + q)
    decreases |a|, |p|
  {
    if p == [] {
      assert a + b == b && p + q == q;
    } else {
      var ab, pq := a + b, p + q;
      assert ab[0] == a[0] && ab[1..] == a[1..] + b;
      assert pq[0] == p[0] && pq[1..] == p[1..] + q;
      match p[0]
      case OneOrTwoDigits =>
        if Matches(a[1..], p[1..]) {
          MatchesConcat(a[1..], p[1..], b, q);
        } else {
          assert ab[1] == a[1] && ab[2..] == a[2..] + b;
          MatchesConcat(a[2..], p[1..], b, q);
        }
      case Spaces =>
        if Matches(a[1..], p[1..]) {
          MatchesConcat(a[1..], p[1..], b, q);
        } else {
          MatchesConcat(a[1..], p, b, q);
        }
      case _ =>
        MatchesConcat(a[1..], p[1..], b, q);
    }
  }

  function DigitTokens(n: nat): (r: seq<Token>)
    ensures |r| == n
  {
    if n == 0 then [] else [Digit] + DigitTokens(n - 1)
  }

  lemma {:induction false} MatchesDigitRun(s: string)
    requires AllDigits(s)
    ensures Matches(s, DigitTokens(|s|))
    decreases |s|
  {
    if s != [] {
      MatchesDigitRun(s[1..]);
    }
  }

  lemma {:induction false} MatchesSpaceRun(s: string)
    requires IsSpaces(s)
    ensures Matches(s, [Spaces])
    decreases |s|
  {
    if |s| > 1 {
      MatchesSpaceRun(s[1..]);
    } else {
      assert s[1..] == [];
    }
  }

  /** `[A-Z][a-z]{2}` */
  predicate IsCapitalised(s: string) { |s| == 3 && IsUpper(s[0]) && IsLower(s[1]) && IsLower(s[2]) }

  lemma MatchesCapitalised(s: string)
    requires IsCapitalised(s)
    ensures Matches(s, [Upper, Lower, Lower])
  {
    var p: seq<Token> := [Upper, Lower, Lower];
    assert p[1..] == [Lower, Lower] && p[1..][1..] == [Lower] && p[1..][1..][1..] == [];
    assert s[1..][1..] == s[2..] && s[2..][1..] == [];
    assert Matches(s[2..], [Lower]);
    assert Matches(s[1..], [Lower, Lower]);
  }

  lemma MatchesOneOrTwo(s: string)
    requires IsDigits(s) && |s| <= 2
    ensures Matches(s, [OneOrTwoDigits])
  {
    if |s| == 2 {
      assert s[2..] == [];
    } else {
      assert s[1..] == [];
    }
  }

  /** `[A-Z][a-z]{2} [A-Z][a-z]{2}\s+\d{1,2} ` */
  const DayTokens: seq<Token> := [Upper, Lower, Lower, Exactly(' '), Upper, Lower, Lower, Spaces, OneOrTwoDigits, Exactly(' ')]

  /** `\d{1,2}:\d{2}:\d{2} \d{4}` */
  const ClockTokens: seq<Token> := [
    OneOrTwoDigits, Exactly(':'), Digit, Digit, Exactly(':'), Digit, Digit, Exactly(' '), Digit, Digit, Digit, Digit]

  lemma {:induction false} DayMatches(weekday: string, month: string, gap: string, day: string)
    requires IsCapitalised(weekday) && IsCapitalised(month) && IsSpaces(gap) && IsDigits(day) && |day| <= 2
    ensures Matches(weekday + " " + month + gap + day + " ", DayTokens)
  {
    var cap: seq<Token> := [Upper, Lower, Lower];
    MatchesCapitalised(weekday);
    MatchesCapitalised(month);
    MatchesSpaceRun(gap);
    MatchesOneOrTwo(day);
    assert Matches(" ", [Exactly(' ')]);
    var s, p := weekday, cap;
    assert Matches(s + " ", p + [Exactly(' ')]) by { MatchesConcat(s, p, " ", [Exactly(' ')]); }
    s, p := s + " ", p + [Exactly(' ')];
    assert Matches(s + month, p + cap) by { MatchesConcat(s, p, month, cap); }
    s, p := s + month, p + cap;
    assert Matches(s + gap, p + [Spaces]) by { MatchesConcat(s, p, gap, [Spaces]); }
    s, p := s + gap, p + [Spaces];
    assert Matches(s + day, p + [OneOrTwoDigits]) by { MatchesConcat(s, p, day, [OneOrTwoDigits]); }
    s, p := s + day, p + [OneOrTwoDigits];
    assert Matches(s + " ", p + [Exactly(' ')]) by { MatchesConcat(s, p, " ", [Exactly(' ')]); }
    s, p := s + " ", p + [Exactly(' ')];
    assert p == DayTokens;
  }

  lemma {:induction false} ClockMatches(hour: string, minute: string, second: string, year: string)
    requires IsDigits(hour) && |hour| <= 2 && IsDigits(minute) && |minute| == 2
    requires IsDigits(second) && |second| == 2 && IsDigits(year) && |year| == 4
    ensures Matches(hour + ":" + minute + ":" + second + " " + year, ClockTokens)
  {
    MatchesOneOrTwo(hour);
    MatchesDigitRun(minute);
    MatchesDigitRun(second);
    MatchesDigitRun(year);
    assert Matches(" ", [Exactly(' ')]) && Matches(":", [Exactly(':')]);
    var s, p := hour, [OneOrTwoDigits];
    assert Matches(s + ":", p + [Exactly(':')]) by { MatchesConcat(s, p, ":", [Exactly(':')]); }
    s, p := s + ":", p + [Exactly(':')];
    assert Matches(s + minute, p + DigitTokens(2)) by { MatchesConcat(s, p, minute, DigitTokens(2)); }
    s, p := s + minute, p + DigitTokens(2);
    assert Matches(s + ":", p + [Exactly(':')]) by { MatchesConcat(s, p, ":", [Exactly(':')]); }
    s, p := s + ":", p + [Exactly(':')];
    assert Matches(s + second, p + DigitTokens(2)) by { MatchesConcat(s, p, second, DigitTokens(2)); }
    s, p := s + second, p + DigitTokens(2);
    assert Matches(s + " ", p + [Exactly(' ')]) by { MatchesConcat(s, p, " ", [Exactly(' ')]); }
    s, p := s + " ", p + [Exactly(' ')];
    assert Matches(s + year, p + DigitTokens(4)) by { MatchesConcat(s, p, year, DigitTokens(4)); }
    s, p := s + year, p + DigitTokens(4);
    assert DigitTokens(2) == [Digit, Digit] && DigitTokens(4) == [Digit, Digit, Digit, Digit];
    assert p == ClockTokens;
  }

  /** Every timestamp in the form `smbclient` prints, such as `Tue Dec 11 08:56:05 2012`, is a date. */
  lemma {:induction false} DatesMatch(weekday: string, month: string, gap: string, day: string, hour: string,
                                      minute: string, second: string, year: string)
    requires IsCapitalised(weekday) && IsCapitalised(month) && IsSpaces(gap)
    requires IsDigits(day) && |day| <= 2 && IsDigits(hour) && |hour| <= 2
    requires IsDigits(minute) && |minute| == 2 && IsDigits(second) && |second| == 2
    requires IsDigits(year) && |year| == 4
    ensures IsDate(weekday + " " + month + gap + day + " " + hour + ":" + minute + ":" + second + " " + year)
  {
    var front := weekday + " " + month + gap + day + " ";
    var back := hour + ":" + minute + ":" + second + " " + year;
    DayMatches(weekday, month, gap, day);
    ClockMatches(hour, minute, second, year);
    MatchesConcat(front, DayTokens, back, ClockTokens);
    DatePatternSplit();
    DateParts(weekday, month, gap, day, hour, minute, second, year);
  }

  lemma DatePatternSplit()
    ensures DayTokens + ClockTokens == DatePattern
  {
  }

  lemma DateParts(weekday: string, month: string, gap: string, day: string, hour: string,
                  minute: string, second: string, year: string)
    ensures (weekday + " " + month + gap + day + " ") + (hour + ":" + minute + ":" + second + " " + year)
         == weekday + " " + month + gap + day + " " + hour + ":" + minute + ":" + second + " " + year
  {
  }


  lemma {:induction false} LeadingSpacesPrefix(w: string, x: string)
    requires AllSpaces(w) && x != [] && !IsSpace(x[0])
    ensures LeadingSpaces(w + x) == |w|
    decreases |w|
  {
    if w == [] {
      assert w + x == x;
    } else {
      assert (w + x)[1..] == w[1..] + x;
      LeadingSpacesPrefix(w[1..], x);
    }
  }

  lemma DirTailExample(date: string)
    ensures DirTail("   D   0  " + date) == if IsDate(date) then Some(date) else None
  {
    var t := "   D   0  " + date;
    assert t == "   " + ("D   0  " + date);
    LeadingSpacesPrefix("   ", "D   0  " + date);
    var u := t[4..];
    assert u == "   " + ("0  " + date);
    LeadingSpacesPrefix("   ", "0  " + date);
    assert u[3..] == "0  " + date && u[6..] == date;
  }

  lemma FileTailExample(date: string)
    ensures FileTail("   4711  " + date) == if IsDate(date) then Some(Sized(4711, date)) else None
  {
    assert "   4711  " == "   " + "4711" + "  ";
    DigitsFileTail("   ", "4711", date);
    assert DigitsValue("4711") == 4711 by {
      assert "4711"[..3] == "471" && "471"[..2] == "47" && "47"[..1] == "4" && "4"[..0] == "";
    }
  }

  /** A file tail without the read-only flag: spaces, the size digits, two spaces and the date. */
  lemma DigitsFileTail(w: string, digits: string, date: string)
    requires AllSpaces(w) && w != [] && IsDigits(digits) && digits != []
    ensures FileTail(w + digits + "  " + date) == if IsDate(date) then Some(Sized(DigitsValue(digits), date)) else None
  {
    var t := w + digits + "  " + date;
    var v := DigitsTailParts(w, digits, date);
    var n := |digits|;
    assert FileTail(t) == if "  " <= v[n..] && IsDate(v[n + 2..]) then Some(Sized(DigitsValue(v[..n]), v[n + 2..])) else None;
  }

  /** The slices `FileTail` takes of spaces, digits, two spaces and a date. */
  lemma DigitsTailParts(w: string, digits: string, date: string) returns (v: string)
    requires AllSpaces(w) && w != [] && IsDigits(digits) && digits != []
    ensures var t := w + digits + "  " + date; var n := |digits|;
            && LeadingSpaces(t) == |w| && v == t[|w|..] && |v| >= n + 2 && !(v[0] == 'R')
            && LeadingDigits(v) == n && v[..n] == digits && "  " <= v[n..] && v[n + 2..] == date
  {
    var t := w + digits + "  " + date;
    v := digits + ("  " + date);
    assert t == w + v;
    LeadingSpacesPrefix(w, v);
    assert t[|w|..] == v;
    LeadingDigitsPrefix(digits, "  " + date);
    var n := |digits|;
    assert v[..n] == digits && v[n..] == "  " + date && v[n + 2..] == date;
  }

  /** The cut is the first index, from `from` on, where the name ends plain and the tail holds. */
  lemma {:induction false} CutAt(line: string, tail: string -> bool, from: nat, k: nat)
    requires 3 <= from <= k <= |line| && Plain(line, from - 1, k) && tail(line[k..])
    requires forall i :: from <= i < k ==> !tail(line[i..])
    ensures Cut(line, tail, from) == Some(k)
    decreases k - from
  {
    if from < k {
      CutAt(line, tail, from + 1, k);
    }
  }

  /** Neither tail starts with anything but white space. */
  lemma NoDirTailAt(t: string)
    requires t != [] && !IsSpace(t[0])
    ensures !IsDirTail(t)
  {
  }

  lemma NoFileTailAt(t: string)
    requires t != [] && !IsSpace(t[0])
    ensures !IsFileTail(t)
  {
  }

  /** The slices of an example line that the patterns look at. */
  lemma ExampleSlices(date: string)
    ensures var line := "  a.xm   4711  " + date;
            && line[6..] == "   4711  " + date && line[2..6] == "a.xm"
            && line[3..][0] == '.' && line[4..][0] == 'x' && line[5..][0] == 'm'
    ensures var line := "  bla   D   0  " + date;
            && line[5..] == "   D   0  " + date && line[2..5] == "bla"
            && line[3..][0] == 'l' && line[4..][0] == 'a'
  {
  }

  /** A directory line: the name stops before the first gap that the directory tail can follow. */
  lemma ExampleDirectoryLine(date: string)
    requires IsDate(date)
    ensures LsDir("  bla   D   0  " + date) == Some(SmbDir("bla", date))
  {
    ExampleDirCut(date);
    ExampleSlices(date);
    DirTailExample(date);
  }

  /** The name of the example directory line ends where the gap before its `D` starts. */
  lemma ExampleDirCut(date: string)
    ensures IsDate(date) ==> Cut("  bla   D   0  " + date, IsDirTail, 3) == Some(5)
  {
    var line := "  bla   D   0  " + date;
    ExampleDirCutParts(date);
    if IsDate(date) {
      CutAt(line, IsDirTail, 3, 5);
    }
  }

  lemma ExampleDirCutParts(date: string)
    ensures var line := "  bla   D   0  " + date;
            && |line| >= 5 && Plain(line, 2, 5) && (IsDirTail(line[5..]) <==> IsDate(date))
            && forall i :: 3 <= i < 5 ==> !IsDirTail(line[i..])
  {
    var line := "  bla   D   0  " + date;
    ExampleSlices(date);
    DirTailExample(date);
    NoDirTailAt(line[3..]);
    NoDirTailAt(line[4..]);
  }

  /** A file line: the size is the digit run before the date. */
  lemma ExampleFileLine(date: string)
    requires IsDate(date)
    ensures LsFile("  a.xm   4711  " + date) == Some(SmbFile("a.xm", 4711, date))
  {
    ExampleFileCut(date);
    ExampleSlices(date);
    FileTailExample(date);
  }

  /** The name of the example file line ends where its size column starts. */
  lemma ExampleFileCut(date: string)
    ensures IsDate(date) ==> Cut("  a.xm   4711  " + date, IsFileTail, 3) == Some(6)
  {
    var line := "  a.xm   4711  " + date;
    ExampleFileCutParts(date);
    if IsDate(date) {
      CutAt(line, IsFileTail, 3, 6);
    }
  }

  lemma ExampleFileCutParts(date: string)
    ensures var line := "  a.xm   4711  " + date;
            && |line| >= 6 && Plain(line, 2, 6) && (IsFileTail(line[6..]) <==> IsDate(date))
            && forall i :: 3 <= i < 6 ==> !IsFileTail(line[i..])
  {
    var line := "  a.xm   4711  " + date;
    ExampleSlices(date);
    FileTailExample(date);
    NoFileTailAt(line[3..]);
    NoFileTailAt(line[4..]);
    NoFileTailAt(line[5..]);
  }
}
