/**
 * `RemoteDirectoryReader`: a worklist traversal of a remote directory tree. The `process`
 * callback, which lists one directory, is the finite map `tree` from a directory to what the
 * callback receives; with the default concurrency of one the `async.queue` is a FIFO queue and
 * one task runs at a time.
 */
module DirectoryReader {
  import opened Wrappers

  /** `{name, size}` */
  datatype RemoteFile = RemoteFile(name: string, size: nat)

  /** `{files, directories}` as `process` reports them. */
  datatype Listing = Listing(files: seq<RemoteFile>, directories: seq<string>)

  /** `process`: the listing of a directory, or the text of the error it fails with. */
  type Tree = map<string, Result<Listing, string>>

  /** `{directory, message}` */
  datatype Failure = Failure(directory: string, message: string)

  /** `guerrero.types.ProgressStatus` */
  datatype Status = Status(done: nat, total: nat)

  /** What `run` passes its callback. */
  datatype Callback =
    | Files(files: seq<RemoteFile>)
    | Errors(errors: seq<Failure>)
    | Busy(message: string)

  /** The reader's fields, and the progress reports made so far. */
  datatype Snapshot = Snapshot(
    tasksDone: nat,
    fileList: seq<RemoteFile>,
    errors: seq<Failure>,
    queue: seq<string>,
    reports: seq<Status>)

  // ---------------------------------------------------------------------------------------------
  // Termination

  /**
   * Every subdirectory `process` reports is listed in `tree` and has a lower rank than its parent:
   * the tree is finite and has no cycles. The reader itself does not check this.
   */
  predicate Ranked(tree: Tree, rank: map<string, nat>) {
    forall d :: d in tree ==> d in rank && (tree[d].Ok? ==> Below(tree, rank, tree[d].value.directories, rank[d]))
  }

  predicate Below(tree: Tree, rank: map<string, nat>, ds: seq<string>, bound: nat) {
    forall i :: 0 <= i < |ds| ==> ds[i] in tree && ds[i] in rank && rank[ds[i]] < bound
  }

  predicate AllListed(tree: Tree, ds: seq<string>) {
    forall i :: 0 <= i < |ds| ==> ds[i] in tree
  }

  /** The number of tasks processing `d` takes, its subdirectories' included. */
  function Weight(tree: Tree, rank: map<string, nat>, d: string): nat
    requires Ranked(tree, rank) && d in tree
    decreases rank[d], 1
  {
    1 + match tree[d]
        case Err(_) => 0
        case Ok(l) => Weights(tree, rank, l.directories, rank[d])
  }

  function Weights(tree: Tree, rank: map<string, nat>, ds: seq<string>, bound: nat): nat
    requires Ranked(tree, rank) && Below(tree, rank, ds, bound)
    decreases bound, 0, |ds|
  {
    if ds == [] then 0 else Weight(tree, rank, ds[0]) + Weights(tree, rank, ds[1..], bound)
  }

  /** The number of tasks left for a queue. */
  function QueueWeight(tree: Tree, rank: map<string, nat>, q: seq<string>): nat
    requires Ranked(tree, rank) && AllListed(tree, q)
    decreases |q|
  {
    if q == [] then 0 else Weight(tree, rank, q[0]) + QueueWeight(tree, rank, q[1..])
  }

  lemma {:induction false} WeightsQueue(tree: Tree, rank: map<string, nat>, ds: seq<string>, bound: nat)
    requires Ranked(tree, rank) && Below(tree, rank, ds, bound)
    ensures AllListed(tree, ds) && Weights(tree, rank, ds, bound) == QueueWeight(tree, rank, ds)
    decreases |ds|
  {
    if ds != [] {
      WeightsQueue(tree, rank, ds[1..], bound);
    }
  }

  lemma {:induction false} QueueWeightConcat(tree: Tree, rank: map<string, nat>, a: seq<string>, b: seq<string>)
    requires Ranked(tree, rank) && AllListed(tree, a) && AllListed(tree, b)
    ensures AllListed(tree, a + b)
    ensures QueueWeight(tree, rank, a + b) == QueueWeight(tree, rank, a) + QueueWeight(tree, rank, b)
    decreases |a|
  {
    if a == [] {
      assert a + b == b;
    } else {
      assert (a + b)[0] == a[0] && (a + b)[1..] == a[1..] + b;
      QueueWeightConcat(tree, rank, a[1..], b);
    }
  }

  // ---------------------------------------------------------------------------------------------
  // One step at a time

  /** `_enqueue(d)`: the queue grows at the back and the progress callback is told. */
  function EnqueueOne(s: Snapshot, d: string): (r: Snapshot)
    ensures r.queue == s.queue + [d]
    ensures r.reports == s.reports + [Status(s.tasksDone, s.tasksDone + |s.queue| + 1)]
    ensures r.tasksDone == s.tasksDone && r.fileList == s.fileList && r.errors == s.errors
  {
    var q := s.queue + [d];
    s.(queue := q, reports := s.reports + [Status(s.tasksDone, s.tasksDone + |q|)])
  }

  /** `res.directories.forEach(this._enqueue, this)` */
  function Enqueued(s: Snapshot, ds: seq<string>): (r: Snapshot)
    decreases |ds|
  {
    if ds == [] then s else EnqueueOne(Enqueued(s, ds[..|ds| - 1]), ds[|ds| - 1])
  }

  /** Enqueueing appends the directories in order and touches nothing but the queue and the reports. */
  lemma {:induction false} EnqueuedFacts(s: Snapshot, ds: seq<string>)
    ensures var r := Enqueued(s, ds);
            && r.queue == s.queue + ds
            && r.tasksDone == s.tasksDone && r.fileList == s.fileList && r.errors == s.errors
            && |r.reports| == |s.reports| + |ds| && r.reports[..|s.reports|] == s.reports
            && forall i :: |s.reports| <= i < |r.reports| ==> r.reports[i].done == s.tasksDone
    decreases |ds|
  {
    if ds != [] {
      var init := ds[..|ds| - 1];
      EnqueuedFacts(s, init);
      assert init + [ds[|ds| - 1]] == ds;
      var p := Enqueued(s, init);
      assert (p.reports + [Status(p.tasksDone, p.tasksDone + |p.queue| + 1)])[..|s.reports|] == p.reports[..|s.reports|];
    }
  }

  /** `_notify()` */
  function Notified(s: Snapshot): Snapshot {
    s.(reports := s.reports + [Status(s.tasksDone, s.tasksDone + |s.queue|)])
  }

  /** The state after the worker has processed the head of the queue. */
  function Advance(tree: Tree, s: Snapshot): Snapshot
    requires s.queue != [] && s.queue[0] in tree
  {
    var d := s.queue[0];
    var taken := s.(queue := s.queue[1..]);
    match tree[d]
    case Ok(l) =>
      var found := Enqueued(taken.(fileList := taken.fileList + l.files), l.directories);
      Notified(found.(tasksDone := found.tasksDone + 1))
    case Err(m) =>
      var counted := Notified(taken.(tasksDone := taken.tasksDone + 1));
      counted.(errors := counted.errors + [Failure(d, m)])
  }

  /**
   * Processing a directory counts one task whatever happens; a listing appends its files and
   * queues its subdirectories, in order, and a failure records the directory and the message.
   */
  lemma {:induction false} AdvanceFacts(tree: Tree, s: Snapshot)
    requires s.queue != [] && s.queue[0] in tree
    ensures var r := Advance(tree, s);
            var d := s.queue[0];
            && r.tasksDone == s.tasksDone + 1
            && (tree[d].Ok? ==>
                  r.fileList == s.fileList + tree[d].value.files
                  && r.queue == s.queue[1..] + tree[d].value.directories
                  && r.errors == s.errors)
            && (tree[d].Err? ==>
                  r.fileList == s.fileList && r.queue == s.queue[1..]
                  && r.errors == s.errors + [Failure(d, tree[d].error)])
            && |r.reports| > |s.reports| && r.reports[..|s.reports|] == s.reports
            && (forall i :: |s.reports| <= i < |r.reports| - 1 ==> r.reports[i].done == s.tasksDone)
            && Last(r.reports) == Status(r.tasksDone, r.tasksDone + |r.queue|)
  {
    var d := s.queue[0];
    var taken := s.(queue := s.queue[1..]);
    if tree[d].Ok? {
      var l := tree[d].value;
      var before := taken.(fileList := taken.fileList + l.files);
      EnqueuedFacts(before, l.directories);
      var found := Enqueued(before, l.directories);
      assert (found.reports + [Status(found.tasksDone + 1, found.tasksDone + 1 + |found.queue|)])[..|s.reports|]
             == found.reports[..|s.reports|];
    } else {
      assert (s.reports + [Status(s.tasksDone + 1, s.tasksDone + 1 + |taken.queue|)])[..|s.reports|] == s.reports;
    }
  }

  function Last<T>(xs: seq<T>): T
    requires |xs| > 0
  {
    xs[|xs| - 1]
  }

  /** The queue is worked off to the end. */
  function Finish(tree: Tree, rank: map<string, nat>, s: Snapshot): Snapshot
    requires Ranked(tree, rank) && AllListed(tree, s.queue)
    decreases QueueWeight(tree, rank, s.queue)
  {
    if s.queue == [] then s
    else
      AdvanceWeight(tree, rank, s);
      Finish(tree, rank, Advance(tree, s))
  }

  /** Each task takes one unit off the work left. */
  lemma {:induction false} AdvanceWeight(tree: Tree, rank: map<string, nat>, s: Snapshot)
    requires Ranked(tree, rank) && AllListed(tree, s.queue) && s.queue != []
    ensures AllListed(tree, Advance(tree, s).queue)
    ensures QueueWeight(tree, rank, Advance(tree, s).queue) + 1 == QueueWeight(tree, rank, s.queue)
  {
    var d := s.queue[0];
    AdvanceFacts(tree, s);
    var rest := s.queue[1..];
    assert AllListed(tree, rest) by {
      forall i | 0 <= i < |rest| ensures rest[i] in tree { assert rest[i] == s.queue[i + 1]; }
    }
    if tree[d].Ok? {
      var subs := tree[d].value.directories;
      WeightsQueue(tree, rank, subs, rank[d]);
      QueueWeightConcat(tree, rank, rest, subs);
    }
  }

  /** `run` on an idle reader: the fields are reset and the root is queued. */
  function Started(s: Snapshot, directory: string): Snapshot {
    EnqueueOne(Snapshot(0, [], [], [], s.reports), directory)
  }

  /** The drain handler: one last report, then the callback. */
  function Reply(s: Snapshot): Callback {
    if s.errors == [] then Files(s.fileList) else Errors(s.errors)
  }

  /** `done` never decreases and never passes the number of tasks done. */
  predicate Progressing(s: Snapshot) {
    && (forall i, j :: 0 <= i <= j < |s.reports| ==> s.reports[i].done <= s.reports[j].done)
    && forall i :: 0 <= i < |s.reports| ==> s.reports[i].done <= s.tasksDone
  }

  lemma {:induction false} AdvanceProgressing(tree: Tree, s: Snapshot)
    requires s.queue != [] && s.queue[0] in tree && Progressing(s)
    ensures Progressing(Advance(tree, s))
  {
    AdvanceFacts(tree, s);
    var r := Advance(tree, s);
    forall i | 0 <= i < |r.reports|
      ensures r.reports[i].done <= r.tasksDone
      ensures i < |s.reports| ==> r.reports[i] == s.reports[i]
      ensures |s.reports| <= i ==> s.tasksDone <= r.reports[i].done
    {
      if i < |s.reports| {
        assert r.reports[i] == r.reports[..|s.reports|][i];
      }
    }
  }

  /**
   * Working off the queue runs exactly as many tasks as the tree below it has directories
   * (repetitions included), empties the queue, and keeps the progress reports monotone.
   */
  lemma {:induction false} FinishFacts(tree: Tree, rank: map<string, nat>, s: Snapshot)
    requires Ranked(tree, rank) && AllListed(tree, s.queue)
    ensures Finish(tree, rank, s).queue == []
    ensures Finish(tree, rank, s).tasksDone == s.tasksDone + QueueWeight(tree, rank, s.queue)
    ensures Progressing(s) ==> Progressing(Finish(tree, rank, s))
    decreases QueueWeight(tree, rank, s.queue)
  {
    if s.queue != [] {
      AdvanceWeight(tree, rank, s);
      AdvanceFacts(tree, s);
      if Progressing(s) {
        AdvanceProgressing(tree, s);
      }
      FinishFacts(tree, rank, Advance(tree, s));
    }
  }

  // ---------------------------------------------------------------------------------------------
  // An independent listing: depth first

  /** The files below `d`, depth first: its own files, then each subdirectory's in turn. */
  function DepthFirst(tree: Tree, rank: map<string, nat>, d: string): seq<RemoteFile>
    requires Ranked(tree, rank) && d in tree
    decreases rank[d], 1
  {
    match tree[d]
    case Err(_) => []
    case Ok(l) => l.files + DepthFirstAll(tree, rank, l.directories, rank[d])
  }

  function DepthFirstAll(tree: Tree, rank: map<string, nat>, ds: seq<string>, bound: nat): seq<RemoteFile>
    requires Ranked(tree, rank) && Below(tree, rank, ds, bound)
    decreases bound, 0, |ds|
  {
    if ds == [] then [] else DepthFirst(tree, rank, ds[0]) + DepthFirstAll(tree, rank, ds[1..], bound)
  }

  /** The files below every directory of a queue. */
  function QueueFiles(tree: Tree, rank: map<string, nat>, q: seq<string>): seq<RemoteFile>
    requires Ranked(tree, rank) && AllListed(tree, q)
    decreases |q|
  {
    if q == [] then [] else DepthFirst(tree, rank, q[0]) + QueueFiles(tree, rank, q[1..])
  }

  lemma {:induction false} DepthFirstAllQueue(tree: Tree, rank: map<string, nat>, ds: seq<string>, bound: nat)
    requires Ranked(tree, rank) && Below(tree, rank, ds, bound)
    ensures AllListed(tree, ds) && DepthFirstAll(tree, rank, ds, bound) == QueueFiles(tree, rank, ds)
    decreases |ds|
  {
    if ds != [] {
      DepthFirstAllQueue(tree, rank, ds[1..], bound);
    }
  }

  lemma {:induction false} QueueFilesConcat(tree: Tree, rank: map<string, nat>, a: seq<string>, b: seq<string>)
    requires Ranked(tree, rank) && AllListed(tree, a) && AllListed(tree, b)
    ensures AllListed(tree, a + b)
    ensures QueueFiles(tree, rank, a + b) == QueueFiles(tree, rank, a) + QueueFiles(tree, rank, b)
    decreases |a|
  {
    if a == [] {
      assert a + b == b;
    } else {
      assert (a + b)[0] == a[0] && (a + b)[1..] == a[1..] + b;
      QueueFilesConcat(tree, rank, a[1..], b);
    }
  }

  /** One task moves the head's own files to the list and its subdirectories' files to the queue. */
  lemma {:induction false} AdvanceFiles(tree: Tree, rank: map<string, nat>, s: Snapshot)
    requires Ranked(tree, rank) && AllListed(tree, s.queue) && s.queue != []
    ensures AllListed(tree, Advance(tree, s).queue)
    ensures multiset(Advance(tree, s).fileList) + multiset(QueueFiles(tree, rank, Advance(tree, s).queue))
            == multiset(s.fileList) + multiset(QueueFiles(tree, rank, s.queue))
  {
    var d := s.queue[0];
    AdvanceFacts(tree, s);
    AdvanceWeight(tree, rank, s);
    var rest := s.queue[1..];
    assert AllListed(tree, rest) by {
      forall i | 0 <= i < |rest| ensures rest[i] in tree { assert rest[i] == s.queue[i + 1]; }
    }
    if tree[d].Ok? {
      var l := tree[d].value;
      DepthFirstAllQueue(tree, rank, l.directories, rank[d]);
      QueueFilesConcat(tree, rank, rest, l.directories);
      assert QueueFiles(tree, rank, s.queue) == l.files + QueueFiles(tree, rank, l.directories) + QueueFiles(tree, rank, rest);
    }
  }

  /**
   * Whatever the order the queue imposes, the files the reader collects are exactly those of a
   * depth-first walk from the queued directories, as many times each.
   */
  lemma {:induction false} FinishFiles(tree: Tree, rank: map<string, nat>, s: Snapshot)
    requires Ranked(tree, rank) && AllListed(tree, s.queue)
    ensures multiset(Finish(tree, rank, s).fileList) == multiset(s.fileList) + multiset(QueueFiles(tree, rank, s.queue))
    decreases QueueWeight(tree, rank, s.queue)
  {
    if s.queue != [] {
      AdvanceWeight(tree, rank, s);
      AdvanceFiles(tree, rank, s);
      FinishFiles(tree, rank, Advance(tree, s));
    }
  }

  // ---------------------------------------------------------------------------------------------
  // The reader

  class RemoteDirectoryReader {
    /** `process` */
    const tree: Tree
    const concurrency: nat
    var running: bool
    var tasksDone: nat
    var fileList: seq<RemoteFile>
    var errors: seq<Failure>
    var queue: seq<string>
    /** The statuses passed to the `progress` callback, in order. */
    var reports: seq<Status>

    function State(): Snapshot
      reads this
    {
      Snapshot(tasksDone, fileList, errors, queue, reports)
    }

    /** `new RemoteDirectoryReader(options)`: idle, with a concurrency of one unless given. */
    constructor (process: Tree, concurrency: Option<nat>)
      ensures tree == process && this.concurrency == concurrency.GetOr(1)
      ensures !running && State() == Snapshot(0, [], [], [], [])
    {
      tree := process;
      this.concurrency := concurrency.GetOr(1);
      running := false;
      tasksDone := 0;
      fileList := [];
      errors := [];
      queue := [];
      reports := [];
    }

    /** `_notify()`: `done` is the tasks done, `total` adds the directories still queued. */
    method Notify()
      modifies this
      ensures State() == Notified(old(State())) && running == old(running)
      ensures reports == old(reports) + [Status(tasksDone, tasksDone + |queue|)]
    {
      reports := reports + [Status(tasksDone, tasksDone + |queue|)];
    }

    /** `_enqueue(directory)` */
    method Enqueue(directory: string)
      modifies this
      ensures State() == EnqueueOne(old(State()), directory) && running == old(running)
    {
      queue := queue + [directory];
      Notify();
    }

    /**
     * The synchronous part of `run`: a busy reader calls back with an error at once and keeps its
     * state; an idle one resets its fields, queues the root and leaves the callback pending.
     */
    method Run(directory: string) returns (r: Option<Callback>)
      modifies this
      ensures old(running) ==> r == Some(Busy("Reader is already running")) && running
      ensures old(running) ==> State() == old(State())
      ensures !old(running) ==> r.None? && running && State() == Started(old(State()), directory)
    {
      if running {
        return Some(Busy("Reader is already running"));
      }
      running := true;
      tasksDone := 0;
      fileList := [];
      errors := [];
      queue := [];
      Enqueue(directory);
      return None;
    }

    /** `_createWorker` and `_processDirectory` for the head of the queue. */
    method Work()
      requires queue != [] && queue[0] in tree
      modifies this
      ensures State() == Advance(tree, old(State())) && running == old(running)
    {
      var d := queue[0];
      queue := queue[1..];
      ghost var taken := State();
      match tree[d]
      case Ok(l) =>
        fileList := fileList + l.files;
        ghost var before := State();
        var i := 0;
        while i < |l.directories|
          invariant 0 <= i <= |l.directories|
          invariant State() == Enqueued(before, l.directories[..i]) && running == old(running)
        {
          assert l.directories[..i + 1][..i] == l.directories[..i];
          Enqueue(l.directories[i]);
          i := i + 1;
        }
        assert l.directories[..i] == l.directories;
        tasksDone := tasksDone + 1;
        Notify();
      case Err(m) =>
        tasksDone := tasksDone + 1;
        Notify();
        errors := errors + [Failure(d, m)];
    }

    /** The drain handler: a last report, the reader goes idle, and the callback gets its result. */
    method Drain() returns (r: Callback)
      modifies this
      ensures State() == Notified(old(State())) && !running
      ensures r == Reply(old(State()))
      ensures r.Files? <==> errors == []
    {
      Notify();
      running := false;
      r := if errors == [] then Files(fileList) else Errors(errors);
    }

    /** `run` on an idle reader, followed by the queue's work until it drains. */
    method Traverse(directory: string, ghost rank: map<string, nat>) returns (r: Callback)
      requires !running && Ranked(tree, rank) && directory in tree
      modifies this
      ensures !running
      ensures State() == Notified(Finish(tree, rank, Started(old(State()), directory)))
      ensures r == Reply(Finish(tree, rank, Started(old(State()), directory)))
    {
      var pending := Run(directory);
      ghost var start := State();
      while queue != []
        invariant Ranked(tree, rank) && AllListed(tree, queue) && running
        invariant Finish(tree, rank, State()) == Finish(tree, rank, start)
        decreases QueueWeight(tree, rank, queue)
      {
        AdvanceWeight(tree, rank, State());
        Work();
      }
      r := Drain();
    }
  }

  // ---------------------------------------------------------------------------------------------
  // The fixture tree

  const Root := "/"
  const Empty := "/empty/"
  const More := "/more/"
  const EvenMore := "/more/even more/"
  const Other := "/other stuff/"
  const Nested := "/other stuff/nested/"
  const Deeply := "/other stuff/nested/deeply/"

  /** The dummy file system, with the names made absolute as the test's processor does. */
  const Fixture: Tree := map[
    Root := Ok(Listing([RemoteFile("/hello.txt", 42)], [Empty, More, Other])),
    Empty := Ok(Listing([], [])),
    More := Ok(Listing([], [EvenMore])),
    EvenMore := Ok(Listing([], [])),
    Other := Ok(Listing(
      [RemoteFile("/other stuff/how.txt", 42), RemoteFile("/other stuff/now.txt", 17),
       RemoteFile("/other stuff/brown.txt", 1337), RemoteFile("/other stuff/cow.txt", 47110815)],
      [Nested])),
    Nested := Ok(Listing([], [Deeply])),
    Deeply := Ok(Listing([RemoteFile("/other stuff/nested/deeply/bananarama.jpg", 1000)], []))
  ]

  const FixtureRank: map<string, nat> := map[
    Root := 3, Empty := 0, More := 1, EvenMore := 0, Other := 2, Nested := 1, Deeply := 0
  ]

  lemma FixtureRanked()
    ensures Ranked(Fixture, FixtureRank)
  {
  }

  /** The fixture's listings, one by one. */
  predicate FixtureShaped(tree: Tree) {
    && Root in tree && tree[Root] == Ok(Listing([Hello], [Empty, More, Other]))
    && Empty in tree && tree[Empty] == Ok(Listing([], []))
    && More in tree && tree[More] == Ok(Listing([], [EvenMore]))
    && EvenMore in tree && tree[EvenMore] == Ok(Listing([], []))
    && Other in tree && tree[Other] == Ok(Listing(StuffFiles, [Nested]))
    && Nested in tree && tree[Nested] == Ok(Listing([], [Deeply]))
    && Deeply in tree && tree[Deeply] == Ok(Listing([Banana], []))
  }

  lemma FixtureEntries()
    ensures Ranked(Fixture, FixtureRank) && FixtureShaped(Fixture)
  {
    FixtureRanked();
  }

  /** One task, from a queue whose head lists as `l`. */
  lemma {:induction false} FixtureStep(tree: Tree, rank: map<string, nat>, s: Snapshot, l: Listing)
    requires Ranked(tree, rank) && AllListed(tree, s.queue)
    requires s.queue != [] && tree[s.queue[0]] == Ok(l)
    ensures var r := Advance(tree, s);
            && AllListed(tree, r.queue)
            && Finish(tree, rank, s) == Finish(tree, rank, r)
            && r.queue == s.queue[1..] + l.directories && r.fileList == s.fileList + l.files
            && r.errors == s.errors && r.tasksDone == s.tasksDone + 1
  {
    AdvanceWeight(tree, rank, s);
    AdvanceFacts(tree, s);
  }

  const Hello := RemoteFile("/hello.txt", 42)
  const StuffFiles := [
    RemoteFile("/other stuff/how.txt", 42), RemoteFile("/other stuff/now.txt", 17),
    RemoteFile("/other stuff/brown.txt", 1337), RemoteFile("/other stuff/cow.txt", 47110815)]
  const Banana := RemoteFile("/other stuff/nested/deeply/bananarama.jpg", 1000)

  /**
   * Reading the fixture from "/" takes seven tasks and calls back with its six files, level by
   * level: the root's, those of "/other stuff/", then the deeply nested one.
   */
  lemma FixtureListing()
    ensures var s := Started(Snapshot(0, [], [], [], []), Root);
            Ranked(Fixture, FixtureRank) && AllListed(Fixture, s.queue)
            && var r := Finish(Fixture, FixtureRank, s);
            && r.tasksDone == 7
            && Reply(r) == Files([Hello] + StuffFiles + [Banana])
  {
    var s := Started(Snapshot(0, [], [], [], []), Root);
    assert s.queue == [Root] && s.tasksDone == 0 && s.fileList == [] && s.errors == [];
    FixtureEntries();
    FixtureFromRoot(Fixture, FixtureRank, s);
    assert [] + [Hello] + StuffFiles + [Banana] == [Hello] + StuffFiles + [Banana];
  }

  /** The root lists `/hello.txt` and queues its three subdirectories. */
  lemma FixtureFromRoot(tree: Tree, rank: map<string, nat>, s: Snapshot)
    requires Ranked(tree, rank) && FixtureShaped(tree) && s.queue == [Root]
    ensures AllListed(tree, s.queue)
    ensures var r := Finish(tree, rank, s);
            && r.tasksDone == s.tasksDone + 7 && r.errors == s.errors
            && r.fileList == s.fileList + [Hello] + StuffFiles + [Banana]
  {
    FixtureStep(tree, rank, s, tree[Root].value);
    var t := Advance(tree, s);
    assert t.queue == [Empty, More, Other] && t.fileList == s.fileList + [Hello];
    FixtureFromEmpty(tree, rank, t);
  }

  /** "/empty/" adds nothing. */
  lemma FixtureFromEmpty(tree: Tree, rank: map<string, nat>, s: Snapshot)
    requires Ranked(tree, rank) && FixtureShaped(tree) && s.queue == [Empty, More, Other]
    ensures AllListed(tree, s.queue)
    ensures var r := Finish(tree, rank, s);
            && r.tasksDone == s.tasksDone + 6 && r.errors == s.errors
            && r.fileList == s.fileList + StuffFiles + [Banana]
  {
    FixtureStep(tree, rank, s, tree[Empty].value);
    var t := Advance(tree, s);
    assert t.queue == [More, Other] && t.fileList == s.fileList;
    FixtureFromMore(tree, rank, t);
  }

  /** "/more/" queues "/more/even more/" behind "/other stuff/". */
  lemma FixtureFromMore(tree: Tree, rank: map<string, nat>, s: Snapshot)
    requires Ranked(tree, rank) && FixtureShaped(tree) && s.queue == [More, Other]
    ensures AllListed(tree, s.queue)
    ensures var r := Finish(tree, rank, s);
            && r.tasksDone == s.tasksDone + 5 && r.errors == s.errors
            && r.fileList == s.fileList + StuffFiles + [Banana]
  {
    FixtureStep(tree, rank, s, tree[More].value);
    var t := Advance(tree, s);
    assert t.queue == [Other, EvenMore] && t.fileList == s.fileList;
    FixtureFromOther(tree, rank, t);
  }

  /** "/other stuff/" lists its four files and queues "nested/". */
  lemma FixtureFromOther(tree: Tree, rank: map<string, nat>, s: Snapshot)
    requires Ranked(tree, rank) && FixtureShaped(tree) && s.queue == [Other, EvenMore]
    ensures AllListed(tree, s.queue)
    ensures var r := Finish(tree, rank, s);
            && r.tasksDone == s.tasksDone + 4 && r.errors == s.errors
            && r.fileList == s.fileList + StuffFiles + [Banana]
  {
    FixtureStep(tree, rank, s, tree[Other].value);
    var t := Advance(tree, s);
    assert t.queue == [EvenMore, Nested] && t.fileList == s.fileList + StuffFiles;
    FixtureFromEvenMore(tree, rank, t);
  }

  /** "/more/even more/" adds nothing. */
  lemma FixtureFromEvenMore(tree: Tree, rank: map<string, nat>, s: Snapshot)
    requires Ranked(tree, rank) && FixtureShaped(tree) && s.queue == [EvenMore, Nested]
    ensures AllListed(tree, s.queue)
    ensures var r := Finish(tree, rank, s);
            && r.tasksDone == s.tasksDone + 3 && r.errors == s.errors
            && r.fileList == s.fileList + [Banana]
  {
    FixtureStep(tree, rank, s, tree[EvenMore].value);
    var t := Advance(tree, s);
    assert t.queue == [Nested] && t.fileList == s.fileList;
    FixtureFromNested(tree, rank, t);
  }

  /** "/other stuff/nested/" only queues "deeply/". */
  lemma FixtureFromNested(tree: Tree, rank: map<string, nat>, s: Snapshot)
    requires Ranked(tree, rank) && FixtureShaped(tree) && s.queue == [Nested]
    ensures AllListed(tree, s.queue)
    ensures var r := Finish(tree, rank, s);
            && r.tasksDone == s.tasksDone + 2 && r.errors == s.errors
            && r.fileList == s.fileList + [Banana]
  {
    FixtureStep(tree, rank, s, tree[Nested].value);
    var t := Advance(tree, s);
    assert t.queue == [Deeply] && t.fileList == s.fileList;
    FixtureFromDeeply(tree, rank, t);
  }

  /** "/other stuff/nested/deeply/" lists the last file, and the queue is empty. */
  lemma FixtureFromDeeply(tree: Tree, rank: map<string, nat>, s: Snapshot)
    requires Ranked(tree, rank) && FixtureShaped(tree) && s.queue == [Deeply]
    ensures AllListed(tree, s.queue)
    ensures var r := Finish(tree, rank, s);
            && r.tasksDone == s.tasksDone + 1 && r.errors == s.errors
            && r.fileList == s.fileList + [Banana]
  {
    FixtureStep(tree, rank, s, tree[Deeply].value);
    var t := Advance(tree, s);
    assert t.queue == [] && t.fileList == s.fileList + [Banana];
  }
}
