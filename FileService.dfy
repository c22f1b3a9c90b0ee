/**
 * The upload orchestrator: for each local file it looks up the remote file
 * of the same name, then inserts, updates or skips it, re-running a failed
 * request as a whole; a batch uploads its files one after the other and
 * drops those that fail.
 *
 * The local file system is a read-only map from the names the caller passes
 * to what `java.io.File` reports about them. As in the request modules, the
 * remote side is specified by pure functions of the remote state before the
 * call (`Retried`, `UploadFileSpec`, `Chain`); the methods of the service
 * class are proved to do exactly that.
 */
module FileService {
  import opened Wrappers
  import opened RemoteStore
  import opened AbstractFileService
  import opened EqualUtils
  import FileRequest
  import DirectoryService

  const SEPARATOR := '/'

  /** What the local file system reports for `filename`. */
  function Stat(files: map<string, LocalStat>, filename: string): LocalStat {
    if filename in files then files[filename] else Missing
  }

  // ---- the file name of a local path ----

  /** The number of separators `s` ends with. */
  function TrailingSeparators(s: string): (k: nat)
    ensures k <= |s|
  {
    if s != [] && s[|s| - 1] == SEPARATOR then 1 + TrailingSeparators(s[..|s| - 1]) else 0
  }

  /** Where the last component of `s` starts: just after its last separator. */
  function NameStart(s: string): (k: nat)
    ensures k <= |s|
  {
    if s == [] then 0
    else if s[|s| - 1] == SEPARATOR then |s|
    else NameStart(s[..|s| - 1])
  }

  /**
   * `Paths.get(filename).getFileName()`: the last component, trailing
   * separators ignored; the root (separators only) has none, and the empty
   * path is its own single, empty component.
   */
  function FileName(filename: string): Option<string> {
    var end := |filename| - TrailingSeparators(filename);
    if end == 0 then
      if filename == "" then Some("") else None
    else Some(filename[NameStart(filename[..end])..end])
  }

  lemma {:induction false} TrailingSeparatorsAre(s: string)
    ensures var k := TrailingSeparators(s);
      && (forall i | |s| - k <= i < |s| :: s[i] == SEPARATOR)
      && (k < |s| ==> s[|s| - k - 1] != SEPARATOR)
  {
    if s != [] && s[|s| - 1] == SEPARATOR {
      var p := s[..|s| - 1];
      TrailingSeparatorsAre(p);
      assert forall i | 0 <= i < |p| :: p[i] == s[i];
    }
  }

  lemma {:induction false} NameStartAfterLast(s: string)
    ensures var k := NameStart(s);
      && (0 < k ==> s[k - 1] == SEPARATOR)
      && (forall i | k <= i < |s| :: s[i] != SEPARATOR)
  {
    if s != [] && s[|s| - 1] != SEPARATOR {
      var p := s[..|s| - 1];
      NameStartAfterLast(p);
      assert forall i | 0 <= i < |p| :: p[i] == s[i];
    }
  }

  /** A path has no file name exactly when it is made of separators only, and is not empty. */
  lemma FileNameRoot(filename: string)
    ensures FileName(filename).None? <==> filename != "" && forall i | 0 <= i < |filename| :: filename[i] == SEPARATOR
  {
    TrailingSeparatorsAre(filename);
    var t := TrailingSeparators(filename);
    if t < |filename| {
      assert filename[|filename| - t - 1] != SEPARATOR;
    }
  }

  /**
   * The file name is the last component: no separator in it, only
   * separators after it, and a separator or the start before it.
   */
  lemma FileNameIsLastComponent(filename: string)
    requires FileName(filename).Some?
    ensures var name := FileName(filename).value;
      var n := |name|;
      var t := TrailingSeparators(filename);
      && SEPARATOR !in name
      && n + t <= |filename|
      && filename[|filename| - t - n..|filename| - t] == name
      && (|filename| - t - n == 0 || filename[|filename| - t - n - 1] == SEPARATOR)
      && (forall i | |filename| - t <= i < |filename| :: filename[i] == SEPARATOR)
  {
    TrailingSeparatorsAre(filename);
    var t := TrailingSeparators(filename);
    var end := |filename| - t;
    if end > 0 {
      var p := filename[..end];
      NameStartAfterLast(p);
      var k := NameStart(p);
      var name := filename[k..end];
      assert FileName(filename) == Some(name);
      assert |filename| - t - |name| == k;
      assert forall i | 0 <= i < |name| :: name[i] == p[k + i];
      assert k > 0 ==> filename[k - 1] == p[k - 1];
    }
  }

  // ---- execute: the whole-request retry ----

  /** What `execute(request)` returns and leaves behind, and how many times it ran the request. */
  datatype Executed = Executed(result: Result<FileMetadata, Error>, store: Store, calls: seq<Call>, attempts: nat)

  /** How many times `execute` runs a request at most. */
  function MaxAttempts(retries: int): (n: nat)
    ensures n >= 1 && n > retries
  {
    if retries > 0 then retries + 1 else 1
  }

  /** One run of the request for `local` to `path` with `mode`, as a function of the remote state. */
  function RunOf(local: LocalStat, path: string, mode: WriteMode): Store -> FileRequest.Upload {
    s => FileRequest.UploadSpec(local, path, mode, s)
  }

  /**
   * `execute` from remote state `s` after `failures` runs of the request
   * threw a DbxException: run it again; another DbxException is retried
   * while the failures stay within `retries`, anything else returns.
   */
  function Retried(run: Store -> FileRequest.Upload, s: Store, failures: nat, retries: int): Executed
    decreases if retries > failures then retries - failures else 0
  {
    var u := run(s);
    if u.result == Err(Transport) && failures + 1 <= retries then
      var rest := Retried(run, u.store, failures + 1, retries);
      Executed(rest.result, rest.store, u.calls + rest.calls, rest.attempts + 1)
    else Executed(u.result, u.store, u.calls, 1)
  }

  /** `n` runs of the same request, each from the remote state the one before left. */
  function Runs(run: Store -> FileRequest.Upload, s: Store, n: nat): (runs: seq<FileRequest.Upload>)
    ensures |runs| == n
    decreases n
  {
    if n == 0 then [] else [run(s)] + Runs(run, run(s).store, n - 1)
  }

  /** How many of `runs` fail with a DbxException, one after the other, from the first. */
  function LeadingTransport(runs: seq<FileRequest.Upload>): (k: nat)
    ensures k <= |runs|
  {
    if runs != [] && runs[0].result == Err(Transport) then 1 + LeadingTransport(runs[1..]) else 0
  }

  /** The calls of `runs`, in order. */
  function RunCalls(runs: seq<FileRequest.Upload>): seq<Call> {
    if runs == [] then [] else runs[0].calls + RunCalls(runs[1..])
  }

  /** The runs counted by `LeadingTransport` all fail with a DbxException, and the next one does not. */
  lemma {:induction false} LeadingTransportFail(runs: seq<FileRequest.Upload>)
    ensures forall i | 0 <= i < LeadingTransport(runs) :: runs[i].result == Err(Transport)
    ensures LeadingTransport(runs) < |runs| ==> runs[LeadingTransport(runs)].result != Err(Transport)
  {
    if runs != [] && runs[0].result == Err(Transport) {
      LeadingTransportFail(runs[1..]);
      forall i | 0 < i < LeadingTransport(runs)
        ensures runs[i].result == Err(Transport)
      {
        assert runs[i] == runs[1..][i - 1];
      }
    }
  }

  /** The first of `n` runs, and the runs after it. */
  lemma RunsUnfold(run: Store -> FileRequest.Upload, s: Store, n: nat)
    requires n > 0
    ensures Runs(run, s, n)[0] == run(s) && Runs(run, s, n)[1..] == Runs(run, run(s).store, n - 1)
  {
  }

  /** The calls of the first `a` runs: those of the first, then those of the `a - 1` after it. */
  lemma RunCallsPrefix(runs: seq<FileRequest.Upload>, a: nat)
    requires 0 < a <= |runs|
    ensures RunCalls(runs[..a]) == runs[0].calls + RunCalls(runs[1..][..a - 1])
  {
    assert runs[..a][1..] == runs[1..][..a - 1];
  }

  /** `Retried` against the runs it makes, from `failures` failures on. */
  ghost predicate FollowsRuns(run: Store -> FileRequest.Upload, s: Store, failures: nat, retries: int)
    requires failures < MaxAttempts(retries)
  {
    var runs := Runs(run, s, MaxAttempts(retries) - failures);
    var k := LeadingTransport(runs);
    var e := Retried(run, s, failures, retries);
    && e.attempts == (if k < |runs| then k + 1 else |runs|)
    && e.result == runs[e.attempts - 1].result
    && e.store == runs[e.attempts - 1].store
    && e.calls == RunCalls(runs[..e.attempts])
  }

  /** The step of `RetriedFollowsRuns`: a run that throws, then the retries after it. */
  lemma RetriedFollowsStep(run: Store -> FileRequest.Upload, s: Store, failures: nat, retries: int)
    requires failures + 1 < MaxAttempts(retries)
    requires run(s).result == Err(Transport) && failures + 1 <= retries
    requires FollowsRuns(run, run(s).store, failures + 1, retries)
    ensures FollowsRuns(run, s, failures, retries)
  {
    var runs := Runs(run, s, MaxAttempts(retries) - failures);
    RunsUnfold(run, s, MaxAttempts(retries) - failures);
    RunCallsPrefix(runs, Retried(run, s, failures, retries).attempts);
  }

  /**
   * `execute` against the runs it may make: with k leading DbxExceptions
   * among the runs it is still allowed, it makes k+1 runs when k is below
   * that allowance and returns what the last run returned; when every
   * allowed run fails, it gives up after the last one and rethrows.
   */
  lemma {:induction false} RetriedFollowsRuns(run: Store -> FileRequest.Upload, s: Store, failures: nat, retries: int)
    requires failures < MaxAttempts(retries)
    ensures FollowsRuns(run, s, failures, retries)
    decreases MaxAttempts(retries) - failures
  {
    var u := run(s);
    if u.result == Err(Transport) && failures + 1 <= retries {
      RetriedFollowsRuns(run, u.store, failures + 1, retries);
      RetriedFollowsStep(run, s, failures, retries);
    } else {
      var runs := Runs(run, s, MaxAttempts(retries) - failures);
      RunsUnfold(run, s, MaxAttempts(retries) - failures);
      assert RunCalls(runs[..1]) == u.calls + RunCalls([]);
    }
  }

  /**
   * The promise of `execute` with `retries`: a request whose first k runs
   * throw a DbxException is run k+1 times if k <= retries; otherwise the
   * exception is rethrown after retries+1 runs (one run when retries <= 0).
   * Only a DbxException is retried.
   */
  lemma RetriedAttempts(run: Store -> FileRequest.Upload, s: Store, retries: int)
    ensures var runs := Runs(run, s, MaxAttempts(retries));
      var k := LeadingTransport(runs);
      var e := Retried(run, s, 0, retries);
      && (k < MaxAttempts(retries) ==> e.attempts == k + 1 && e.result == runs[k].result && e.result != Err(Transport))
      && (k == MaxAttempts(retries) ==> e.attempts == MaxAttempts(retries) && e.result == Err(Transport))
      && (forall i | 0 <= i < e.attempts - 1 :: runs[i].result == Err(Transport))
  {
    var runs := Runs(run, s, MaxAttempts(retries));
    RetriedFollowsRuns(run, s, 0, retries);
    LeadingTransportFail(runs);
    var k := LeadingTransport(runs);
    if k == MaxAttempts(retries) {
      assert runs[k - 1].result == Err(Transport);
    }
  }

  /**
   * `total` is what the retries make from state `st` on, after `failures`
   * failed runs whose calls were `done`.
   */
  ghost predicate RetriedFrom(run: Store -> FileRequest.Upload, st: Store, failures: nat, retries: int, total: Executed, done: seq<Call>) {
    var here := Retried(run, st, failures, retries);
    total.result == here.result && total.store == here.store && total.calls == done + here.calls
  }

  /** One more run of `execute`'s loop, in terms of what is left of the whole: a retried DbxException. */
  lemma RetriedAgain(run: Store -> FileRequest.Upload, st: Store, failures: nat, retries: int, total: Executed, done: seq<Call>)
    requires run(st).result == Err(Transport) && failures + 1 <= retries
    requires RetriedFrom(run, st, failures, retries, total, done)
    ensures RetriedFrom(run, run(st).store, failures + 1, retries, total, done + run(st).calls)
  {
    ConcatAssoc(done, run(st).calls, Retried(run, run(st).store, failures + 1, retries).calls);
  }

  /** The last run of `execute`'s loop: what it returns is what `execute` returns. */
  lemma RetriedLast(run: Store -> FileRequest.Upload, st: Store, failures: nat, retries: int, total: Executed, done: seq<Call>)
    requires !(run(st).result == Err(Transport) && failures + 1 <= retries)
    requires RetriedFrom(run, st, failures, retries, total, done)
    ensures total.result == run(st).result && total.store == run(st).store && total.calls == done + run(st).calls
  {
  }

  /** Every run of `run` that succeeds writes `local`, with its size and time, at `path`, and nothing else; a failed one writes nothing. */
  ghost predicate WritesOnly(run: Store -> FileRequest.Upload, local: LocalStat, path: string) {
    forall s: Store ::
      && (run(s).result.Ok? ==> local.present && run(s).result.value.path == path && run(s).result.value.size == local.length
                                && run(s).result.value.clientModified == local.lastModified
                                && run(s).store.entries == s.entries[path := run(s).result.value])
      && (run(s).result.Err? ==> run(s).store.entries == s.entries)
  }

  /** A run of a request writes only the local file at the request's path. */
  lemma UploadWrites(local: LocalStat, path: string, mode: WriteMode)
    ensures WritesOnly(RunOf(local, path, mode), local, path)
  {
    forall s: Store
      ensures var u := FileRequest.UploadSpec(local, path, mode, s);
        && (u.result.Ok? ==> local.present && u.result.value.path == path && u.result.value.size == local.length
                             && u.result.value.clientModified == local.lastModified
                             && u.store.entries == s.entries[path := u.result.value])
        && (u.result.Err? ==> u.store.entries == s.entries)
    {
    }
  }

  /** So does `execute`, over all its runs: the file it returns is the only change to the entries. */
  lemma {:induction false} RetriedWrites(run: Store -> FileRequest.Upload, local: LocalStat, path: string, s: Store, failures: nat, retries: int)
    requires WritesOnly(run, local, path)
    ensures var e := Retried(run, s, failures, retries);
      && (e.result.Ok? ==> local.present && e.result.value.path == path && e.result.value.size == local.length
                           && e.result.value.clientModified == local.lastModified
                           && e.store.entries == s.entries[path := e.result.value])
      && (e.result.Err? ==> e.store.entries == s.entries)
    decreases if retries > failures then retries - failures else 0
  {
    var u := run(s);
    if u.result == Err(Transport) && failures + 1 <= retries {
      RetriedWrites(run, local, path, u.store, failures + 1, retries);
    }
  }

  // ---- uploadFile: insert, update or skip ----

  /** What `uploadFile` returns and leaves behind. */
  datatype Uploaded<+T> = Uploaded(result: Result<T, Error>, store: Store, calls: seq<Call>)

  /** The request `uploadFile` runs for a local file: an insert at the looked-up path, or an update of the remote file. */
  function Target(name: string, parent: Option<FolderMetadata>, current: Option<FileMetadata>): (string, WriteMode) {
    match current
    case None => (PathOf(name, parent), Add)
    case Some(f) => (f.path, Update(f.rev))
  }

  /**
   * `uploadFile(filename, parentDir)` from remote state `s`: find the remote
   * file named like the local file's last component, then insert it when
   * there is none, update it when it differs, or return it unchanged; any
   * exception leaves as a FileHandleException around its cause.
   */
  function UploadFileSpec(files: map<string, LocalStat>, filename: string, parent: Option<FolderMetadata>, s: Store, retries: int): Uploaded<FileMetadata> {
    match FileName(filename)
    case None => Uploaded(Err(FileHandle(NoFileName)), s, [])
    case Some(name) =>
      var lookup := [GetMetadataCall(PathOf(name, parent))];
      var s1 := s.(faults := Rest(s.faults));
      if FailsNext(s.faults) then Uploaded(Err(FileHandle(FileHandle(Transport))), s1, lookup)
      else
        var u := Decided(Stat(files, filename), name, parent, FileAt(s.entries, name, parent), s1, retries);
        Uploaded(u.result, u.store, lookup + u.calls)
  }

  /**
   * `uploadFile` once the lookup found `current` (null: None): skip an equal
   * file, or run the insert or update and wrap its exception.
   */
  function Decided(local: LocalStat, name: string, parent: Option<FolderMetadata>, current: Option<FileMetadata>, s: Store, retries: int): Uploaded<FileMetadata> {
    if current.Some? && !NotEquals(current, Some(local)) then Uploaded(Ok(current.value), s, [])
    else
      var (path, mode) := Target(name, parent, current);
      var e := Retried(RunOf(local, path, mode), s, 0, retries);
      Uploaded(if e.result.Ok? then e.result else Err(FileHandle(e.result.error)), e.store, e.calls)
  }

  /**
   * `uploadFile` looks the file up at the last component of the local path
   * under the parent, and only there; every failure is a FileHandleException
   * around its cause: a path with no name, or the lookup's own
   * FileHandleException.
   */
  lemma UploadLooksUpName(files: map<string, LocalStat>, filename: string, parent: Option<FolderMetadata>, s: Store, retries: int)
    ensures var u := UploadFileSpec(files, filename, parent, s, retries);
      && (FileName(filename).Some? ==> |u.calls| > 0 && u.calls[0] == GetMetadataCall(PathOf(FileName(filename).value, parent)))
      && (FileName(filename).None? ==> u == Uploaded(Err(FileHandle(NoFileName)), s, []))
      && (FileName(filename).Some? && FailsNext(s.faults) ==>
            u == Uploaded(Err(FileHandle(FileHandle(Transport))), s.(faults := Rest(s.faults)), [GetMetadataCall(PathOf(FileName(filename).value, parent))]))
      && (u.result.Err? ==> u.result.error.FileHandle?)
  {
  }

  /**
   * The choice of `uploadFile` once the lookup answered: no remote file is an
   * insert at the looked-up path, a differing one an update of its revision
   * at its own path, and an equal one is returned with nothing sent. The
   * insert or update returns the file the retried request returned, or fails
   * with a FileHandleException around the request's own failure.
   */
  lemma UploadDecides(files: map<string, LocalStat>, filename: string, parent: Option<FolderMetadata>, s: Store, retries: int)
    requires FileName(filename).Some? && !FailsNext(s.faults)
    ensures var name := FileName(filename).value;
      var current := FileAt(s.entries, name, parent);
      var local := Stat(files, filename);
      var u := UploadFileSpec(files, filename, parent, s, retries);
      var s1 := s.(faults := Rest(s.faults));
      && (current.None? ==>
            var e := Retried(RunOf(local, PathOf(name, parent), Add), s1, 0, retries);
            u == Uploaded(if e.result.Ok? then e.result else Err(FileHandle(e.result.error)), e.store,
                          [GetMetadataCall(PathOf(name, parent))] + e.calls))
      && (current.Some? && NotEquals(current, Some(local)) ==>
            var e := Retried(RunOf(local, current.value.path, Update(current.value.rev)), s1, 0, retries);
            u == Uploaded(if e.result.Ok? then e.result else Err(FileHandle(e.result.error)), e.store,
                          [GetMetadataCall(PathOf(name, parent))] + e.calls))
      && (current.Some? && Equals(current, Some(local)) ==> u == Uploaded(Ok(current.value), s1, [GetMetadataCall(PathOf(name, parent))]))
  {
  }

  /**
   * After `uploadFile` succeeds, the remote holds the returned file at the
   * looked-up path, and it is equal to the local file; nothing else changed.
   */
  lemma UploadLeavesEqualFile(files: map<string, LocalStat>, filename: string, parent: Option<FolderMetadata>, s: Store, retries: int)
    requires Consistent(s.entries)
    ensures var u := UploadFileSpec(files, filename, parent, s, retries);
      u.result.Ok? ==>
        var name := FileName(filename).value;
        && u.store.entries == s.entries[PathOf(name, parent) := u.result.value]
        && FileAt(u.store.entries, name, parent) == Some(u.result.value)
        && Equals(Some(u.result.value), Some(Stat(files, filename)))
  {
    var u := UploadFileSpec(files, filename, parent, s, retries);
    if u.result.Ok? && !FailsNext(s.faults) {
      var name := FileName(filename).value;
      var current := FileAt(s.entries, name, parent);
      var local := Stat(files, filename);
      var s1 := s.(faults := Rest(s.faults));
      if current.Some? && !NotEquals(current, Some(local)) {
        assert s.entries[PathOf(name, parent) := current.value] == s.entries;
      } else {
        var (path, mode) := Target(name, parent, current);
        UploadWrites(local, path, mode);
        RetriedWrites(RunOf(local, path, mode), local, path, s1, 0, retries);
        assert path == PathOf(name, parent);
        ToSecondsMonotone(local.lastModified, local.lastModified);
      }
    }
  }

  /**
   * Uploading the same unchanged local file again, once the first upload
   * succeeded and the lookup goes through, is a skip: one lookup, the same
   * file, and the remote entries untouched.
   */
  lemma UploadTwiceSkips(files: map<string, LocalStat>, filename: string, parent: Option<FolderMetadata>, s: Store, retries: int)
    requires Consistent(s.entries)
    requires UploadFileSpec(files, filename, parent, s, retries).result.Ok?
    requires !FailsNext(UploadFileSpec(files, filename, parent, s, retries).store.faults)
    ensures var u := UploadFileSpec(files, filename, parent, s, retries);
      var v := UploadFileSpec(files, filename, parent, u.store, retries);
      && v.result == u.result
      && v.store == u.store.(faults := Rest(u.store.faults))
      && v.calls == [GetMetadataCall(PathOf(FileName(filename).value, parent))]
  {
    UploadLeavesEqualFile(files, filename, parent, s, retries);
  }

  // ---- uploadFiles: a batch ----

  /** `uploadFile(name, parent)` as a function of the remote state, for a batch. */
  function UploadStep(files: map<string, LocalStat>, parent: Option<FolderMetadata>, retries: int): (string, Store) -> Uploaded<FileMetadata> {
    (filename, s) => UploadFileSpec(files, filename, parent, s, retries)
  }

  /** The outcome of each file of a batch, each from the remote state the one before left. */
  function Chain(step: (string, Store) -> Uploaded<FileMetadata>, names: seq<string>, s: Store): (c: seq<Uploaded<FileMetadata>>)
    ensures |c| == |names|
  {
    if names == [] then [] else [step(names[0], s)] + Chain(step, names[1..], step(names[0], s).store)
  }

  /** The remote state after a batch that started in `s`. */
  function Final(c: seq<Uploaded<FileMetadata>>, s: Store): Store {
    if c == [] then s else c[|c| - 1].store
  }

  /** The calls of a batch, file by file. */
  function ChainCalls(c: seq<Uploaded<FileMetadata>>): seq<Call> {
    if c == [] then [] else c[0].calls + ChainCalls(c[1..])
  }

  /** The files a batch returns: the successes, in input order. */
  function Successes(c: seq<Uploaded<FileMetadata>>): (r: seq<FileMetadata>)
    ensures |r| <= |c|
  {
    if c == [] then []
    else (if c[0].result.Ok? then [c[0].result.value] else []) + Successes(c[1..])
  }

  /**
   * Each file of a batch is tried, in order, from the remote state the files
   * before it left, whatever happened to them.
   */
  lemma {:induction false} ChainAt(step: (string, Store) -> Uploaded<FileMetadata>, names: seq<string>, s: Store, i: nat)
    requires i < |names|
    ensures var c := Chain(step, names, s);
      c[i] == step(names[i], if i == 0 then s else c[i - 1].store)
  {
    var c := Chain(step, names, s);
    var u := step(names[0], s);
    var rest := Chain(step, names[1..], u.store);
    assert c == [u] + rest;
    if i > 0 {
      ChainAt(step, names[1..], u.store, i - 1);
      assert c[i] == rest[i - 1] && names[i] == names[1..][i - 1];
      assert i - 1 > 0 ==> c[i - 1] == rest[i - 2];
    }
  }

  /** A batch splits at any file: what the first part returns, then what the rest returns. */
  lemma {:induction false} SuccessesConcat(a: seq<Uploaded<FileMetadata>>, b: seq<Uploaded<FileMetadata>>)
    ensures Successes(a + b) == Successes(a) + Successes(b)
  {
    if a == [] {
      assert a + b == b;
    } else {
      assert (a + b)[0] == a[0] && (a + b)[1..] == a[1..] + b;
      SuccessesConcat(a[1..], b);
      var head := if a[0].result.Ok? then [a[0].result.value] else [];
      calc {
        Successes(a + b);
        head + Successes(a[1..] + b);
        head + (Successes(a[1..]) + Successes(b));
        (head + Successes(a[1..])) + Successes(b);
      }
    }
  }

  /** A batch returns every file exactly when none failed. */
  lemma {:induction false} AllSucceedIffFull(c: seq<Uploaded<FileMetadata>>)
    ensures |Successes(c)| == |c| <==> forall i | 0 <= i < |c| :: c[i].result.Ok?
  {
    if c != [] {
      AllSucceedIffFull(c[1..]);
      if forall i | 0 <= i < |c[1..]| :: c[1..][i].result.Ok? {
        assert forall i | 1 <= i < |c| :: c[i] == c[1..][i - 1];
      }
    }
  }

  /** The step of `ChainCallsConcat`: from `a[1..]` to `a`. */
  lemma ChainCallsConcatStep(a: seq<Uploaded<FileMetadata>>, b: seq<Uploaded<FileMetadata>>)
    requires a != []
    requires ChainCalls(a[1..] + b) == ChainCalls(a[1..]) + ChainCalls(b)
    ensures ChainCalls(a + b) == ChainCalls(a) + ChainCalls(b)
  {
    assert (a + b)[0] == a[0] && (a + b)[1..] == a[1..] + b;
    ConcatAssoc(a[0].calls, ChainCalls(a[1..]), ChainCalls(b));
  }

  lemma {:induction false} ChainCallsConcat(a: seq<Uploaded<FileMetadata>>, b: seq<Uploaded<FileMetadata>>)
    ensures ChainCalls(a + b) == ChainCalls(a) + ChainCalls(b)
  {
    if a == [] {
      assert a + b == b;
    } else {
      ChainCallsConcat(a[1..], b);
      ChainCallsConcatStep(a, b);
    }
  }

  /** One more file of a batch: the chain, the successes, the calls and the remote state all grow by its outcome. */
  lemma BatchAdvance(step: (string, Store) -> Uploaded<FileMetadata>, names: seq<string>, s: Store, i: nat,
                     done: seq<Uploaded<FileMetadata>>, st: Store)
    requires i < |names|
    requires Chain(step, names, s) == done + Chain(step, names[i..], st)
    ensures var u := step(names[i], st);
      && Chain(step, names, s) == (done + [u]) + Chain(step, names[i + 1..], u.store)
      && Successes(done + [u]) == Successes(done) + (if u.result.Ok? then [u.result.value] else [])
      && ChainCalls(done + [u]) == ChainCalls(done) + u.calls
      && Final(done + [u], s) == u.store
  {
    var u := step(names[i], st);
    assert names[i..][0] == names[i] && names[i..][1..] == names[i + 1..];
    assert Chain(step, names[i..], st) == [u] + Chain(step, names[i + 1..], u.store);
    ConcatAssoc(done, [u], Chain(step, names[i + 1..], u.store));
    SuccessesConcat(done, [u]);
    assert Successes([u]) == (if u.result.Ok? then [u.result.value] else []) + Successes([]);
    ChainCallsConcat(done, [u]);
    assert ChainCalls([u]) == u.calls + ChainCalls([]);
  }

  /** What `uploadFiles(filenames, parentDir)` returns and leaves behind; a null list is an empty one. */
  function Batch(files: map<string, LocalStat>, filenames: Option<seq<string>>, parent: Option<FolderMetadata>, s: Store, retries: int): Uploaded<seq<FileMetadata>> {
    var c := Chain(UploadStep(files, parent, retries), filenames.GetOr([]), s);
    Uploaded(Ok(Successes(c)), Final(c, s), ChainCalls(c))
  }

  /** A null or empty list uploads nothing and returns an empty list. */
  lemma EmptyBatch(files: map<string, LocalStat>, filenames: Option<seq<string>>, parent: Option<FolderMetadata>, s: Store, retries: int)
    requires filenames.None? || filenames.value == []
    ensures Batch(files, filenames, parent, s, retries) == Uploaded(Ok([]), s, [])
  {
  }

  // ---- the pathname overloads ----

  /** Resolve (find or create) the upload directory from the root, then do `then` in it. */
  function InDirectory(pathname: Option<string>, s: Store): (DirectoryService.Outcome<Option<FolderMetadata>>, Store) {
    var o := DirectoryService.Resolve(s.entries, s.faults, pathname, None);
    (o, Store(o.entries, s.sessions, s.nextId, o.faults))
  }

  /**
   * `uploadFiles(filenames, pathname)` as written: the directory is resolved
   * once, outside the per-file isolation, so a failure there fails the whole
   * batch; otherwise the batch runs in the directory found or created.
   */
  function BatchTo(files: map<string, LocalStat>, filenames: Option<seq<string>>, dirname: Option<string>, s: Store, retries: int): Uploaded<seq<FileMetadata>> {
    var (o, s1) := InDirectory(dirname, s);
    if o.result.Err? then Uploaded(Err(o.result.error), s1, o.calls)
    else
      var b := Batch(files, filenames, o.result.value, s1, retries);
      Uploaded(b.result, b.store, o.calls + b.calls)
  }

  /** The batch with a directory fails only when the directory cannot be resolved; then no file is tried. */
  lemma BatchToFailsOnlyOnDirectory(files: map<string, LocalStat>, filenames: Option<seq<string>>, dirname: Option<string>, s: Store, retries: int)
    ensures var b := BatchTo(files, filenames, dirname, s, retries);
      var o := DirectoryService.Resolve(s.entries, s.faults, dirname, None);
      && (b.result.Err? <==> o.result.Err?)
      && (o.result.Err? ==> b.calls == o.calls && b.store.sessions == s.sessions && b.store.nextId == s.nextId)
      && (o.result.Ok? ==> |b.result.value| <= |filenames.GetOr([])|)
  {
  }

  /** `uploadFile(filename, pathname)`: resolve the directory, then upload the file into it. */
  function UploadFileTo(files: map<string, LocalStat>, filename: string, dirname: Option<string>, s: Store, retries: int): Uploaded<FileMetadata> {
    var (o, s1) := InDirectory(dirname, s);
    if o.result.Err? then Uploaded(Err(o.result.error), s1, o.calls)
    else
      var u := UploadFileSpec(files, filename, o.result.value, s1, retries);
      Uploaded(u.result, u.store, o.calls + u.calls)
  }

  /** With a directory that resolves to a folder, the file is looked up inside that folder. */
  lemma UploadFileToLooksInDirectory(files: map<string, LocalStat>, filename: string, dirname: Option<string>, s: Store, retries: int)
    requires FileName(filename).Some?
    ensures var o := DirectoryService.Resolve(s.entries, s.faults, dirname, None);
      var u := UploadFileTo(files, filename, dirname, s, retries);
      o.result.Ok? && o.result.value.Some? ==>
        && |u.calls| > |o.calls|
        && u.calls[..|o.calls|] == o.calls
        && u.calls[|o.calls|] == GetMetadataCall(o.result.value.value.path + "/" + FileName(filename).value)
  {
    var o := DirectoryService.Resolve(s.entries, s.faults, dirname, None);
    var u := UploadFileTo(files, filename, dirname, s, retries);
    if o.result.Ok? && o.result.value.Some? {
      var (_, s1) := InDirectory(dirname, s);
      UploadLooksUpName(files, filename, o.result.value, s1, retries);
      assert u.calls == o.calls + UploadFileSpec(files, filename, o.result.value, s1, retries).calls;
    }
  }

  // ---- the service ----

  class FileService {
    const remote: Remote
    const retries: int                    // dropdrive.file.upload.retries
    const credentialUploadDir: Option<string>
    const files: map<string, LocalStat>   // the local file system

    constructor (remote: Remote, retries: int, credentialUploadDir: Option<string>, files: map<string, LocalStat>)
      ensures this.remote == remote && this.retries == retries
      ensures this.credentialUploadDir == credentialUploadDir && this.files == files
    {
      this.remote := remote;
      this.retries := retries;
      this.credentialUploadDir := credentialUploadDir;
      this.files := files;
    }

    /** `getUploadDir`: a given directory name wins; only a null one falls back to the credential's. */
    function GetUploadDir(uploadDirname: Option<string>): (r: Option<string>)
      ensures uploadDirname.Some? ==> r == uploadDirname
      ensures uploadDirname.None? ==> r == credentialUploadDir
    {
      if uploadDirname.None? then credentialUploadDir else uploadDirname
    }

    /** `execute(request)`: runs the request until it returns, or until a DbxException is one too many. */
    method Execute(request: FileRequest.FileRequest) returns (r: Result<FileMetadata, Error>)
      requires request.remote == remote && remote.Valid() && !request.streamOpen
      modifies remote`faults, remote`log, remote`sessions, remote`nextId, remote`entries, request`events, request`streamOpen
      ensures remote.Valid()
      ensures var e := Retried(RunOf(request.localFile, request.remoteFilePath, request.writeMode), old(remote.State()), 0, retries);
        r == e.result && remote.State() == e.store && remote.log == old(remote.log) + e.calls
    {
      ghost var run := RunOf(request.localFile, request.remoteFilePath, request.writeMode);
      ghost var total := Retried(run, remote.State(), 0, retries);
      ghost var log0 := remote.log;
      ghost var done: seq<Call> := [];
      var failures := 0;
      while true
        invariant remote.Valid() && !request.streamOpen
        invariant failures < MaxAttempts(retries)
        invariant remote.log == log0 + done
        invariant RetriedFrom(run, remote.State(), failures, retries, total, done)
        decreases MaxAttempts(retries) - failures
      {
        ghost var st := remote.State();
        r := request.Execute();
        assert request.Planned(st) == run(st);
        ConcatAssoc(log0, done, run(st).calls);
        if r.Ok? || r.error != Transport || failures + 1 > retries {
          RetriedLast(run, st, failures, retries, total, done);
          break;
        }
        RetriedAgain(run, st, failures, retries, total, done);
        failures := failures + 1;
        done := done + run(st).calls;
      }
    }

    /** `insertFile`: a new file at the looked-up path, with a progress listener. */
    method InsertFile(name: string, local: LocalStat, parentDir: Option<FolderMetadata>) returns (r: Result<FileMetadata, Error>)
      requires remote.Valid()
      modifies remote`faults, remote`log, remote`sessions, remote`nextId, remote`entries
      ensures remote.Valid()
      ensures var e := Retried(RunOf(local, PathOf(name, parentDir), Add), old(remote.State()), 0, retries);
        r == e.result && remote.State() == e.store && remote.log == old(remote.log) + e.calls
    {
      var request := new FileRequest.FileRequest.Insert(remote, GetPath(Some(name), parentDir).value, local);
      request.SetProgressListener(true);
      r := Execute(request);
    }

    /** `updateFile`: overwrite the current remote file, with a progress listener. */
    method UpdateFile(current: FileMetadata, local: LocalStat) returns (r: Result<FileMetadata, Error>)
      requires remote.Valid()
      modifies remote`faults, remote`log, remote`sessions, remote`nextId, remote`entries
      ensures remote.Valid()
      ensures var e := Retried(RunOf(local, current.path, Update(current.rev)), old(remote.State()), 0, retries);
        r == e.result && remote.State() == e.store && remote.log == old(remote.log) + e.calls
    {
      var request := new FileRequest.FileRequest.Update(remote, current, local);
      request.SetProgressListener(true);
      r := Execute(request);
    }

    /** `uploadFile(filename, parentDir)`. */
    method UploadFile(filename: string, parentDir: Option<FolderMetadata>) returns (r: Result<FileMetadata, Error>)
      requires remote.Valid()
      modifies remote`faults, remote`log, remote`sessions, remote`nextId, remote`entries
      ensures remote.Valid()
      ensures var u := UploadFileSpec(files, filename, parentDir, old(remote.State()), retries);
        r == u.result && remote.State() == u.store && remote.log == old(remote.log) + u.calls
    {
      ghost var log0 := remote.log;
      var name := FileName(filename);
      if name.None? {
        r := Err(FileHandle(NoFileName));
      } else {
        var current := FindFile(remote, name.value, parentDir);
        if current.Err? {
          r := Err(FileHandle(current.error));
        } else {
          ghost var log1 := remote.log;
          r := UploadFound(Stat(files, filename), name.value, parentDir, current.value);
          ConcatAssoc(log0, [GetMetadataCall(PathOf(name.value, parentDir))], remote.log[|log1|..]);
        }
      }
    }

    /** The part of `uploadFile` after the lookup found `current`. */
    method UploadFound(local: LocalStat, name: string, parentDir: Option<FolderMetadata>, current: Option<FileMetadata>) returns (r: Result<FileMetadata, Error>)
      requires remote.Valid()
      modifies remote`faults, remote`log, remote`sessions, remote`nextId, remote`entries
      ensures remote.Valid()
      ensures var u := Decided(local, name, parentDir, current, old(remote.State()), retries);
        r == u.result && remote.State() == u.store && remote.log == old(remote.log) + u.calls
    {
      if current.None? {
        r := InsertFile(name, local, parentDir);
      } else if NotEquals(current, Some(local)) {
        r := UpdateFile(current.value, local);
      } else {
        r := Ok(current.value);
      }
      if r.Err? {
        r := Err(FileHandle(r.error));
      }
    }

    /** `uploadFile(filename)`: into the root. */
    method UploadFileToRoot(filename: string) returns (r: Result<FileMetadata, Error>)
      requires remote.Valid()
      modifies remote`faults, remote`log, remote`sessions, remote`nextId, remote`entries
      ensures remote.Valid()
      ensures var u := UploadFileSpec(files, filename, None, old(remote.State()), retries);
        r == u.result && remote.State() == u.store && remote.log == old(remote.log) + u.calls
    {
      r := UploadFile(filename, None);
    }

    /** `uploadFile(filename, pathname)`: into the upload directory, found or created first. */
    method UploadFileInto(filename: string, pathname: Option<string>) returns (r: Result<FileMetadata, Error>)
      requires remote.Valid()
      modifies remote`faults, remote`log, remote`sessions, remote`nextId, remote`entries
      ensures remote.Valid()
      ensures var u := UploadFileTo(files, filename, GetUploadDir(pathname), old(remote.State()), retries);
        r == u.result && remote.State() == u.store && remote.log == old(remote.log) + u.calls
    {
      ghost var log0 := remote.log;
      var parentDir := DirectoryService.FindOrCreateDirectoryFromRoot(remote, GetUploadDir(pathname));
      if parentDir.Err? {
        r := Err(parentDir.error);
      } else {
        ghost var log1 := remote.log;
        r := UploadFile(filename, parentDir.value);
        ConcatAssoc(log0, log1[|log0|..], remote.log[|log1|..]);
      }
    }

    /** `uploadFiles(filenames, parentDir)`: every file in turn; a failing one is dropped. */
    method UploadFiles(filenames: Option<seq<string>>, parentDir: Option<FolderMetadata>) returns (uploaded: seq<FileMetadata>)
      requires remote.Valid()
      modifies remote`faults, remote`log, remote`sessions, remote`nextId, remote`entries
      ensures remote.Valid()
      ensures var b := Batch(files, filenames, parentDir, old(remote.State()), retries);
        Ok(uploaded) == b.result && remote.State() == b.store && remote.log == old(remote.log) + b.calls
    {
      ghost var s := remote.State();
      ghost var log0 := remote.log;
      var names := filenames.GetOr([]);
      ghost var done: seq<Uploaded<FileMetadata>> := [];
      uploaded := [];
      ghost var step := UploadStep(files, parentDir, retries);
      for i := 0 to |names|
        invariant remote.Valid()
        invariant |done| == i
        invariant Chain(step, names, s) == done + Chain(step, names[i..], remote.State())
        invariant remote.State() == Final(done, s)
        invariant uploaded == Successes(done)
        invariant remote.log == log0 + ChainCalls(done)
      {
        ghost var st := remote.State();
        var file := UploadFile(names[i], parentDir);
        if file.Ok? {
          uploaded := uploaded + [file.value];
        }
        ghost var u := step(names[i], st);
        BatchAdvance(step, names, s, i, done, st);
        ConcatAssoc(log0, ChainCalls(done), u.calls);
        done := done + [u];
      }
      assert names[|names|..] == [];
      assert Chain(step, names[|names|..], remote.State()) == [];
      assert Chain(step, names, s) == done;
    }

    /** `uploadFiles(filenames)`: into the root. */
    method UploadFilesToRoot(filenames: Option<seq<string>>) returns (uploaded: seq<FileMetadata>)
      requires remote.Valid()
      modifies remote`faults, remote`log, remote`sessions, remote`nextId, remote`entries
      ensures remote.Valid()
      ensures var b := Batch(files, filenames, None, old(remote.State()), retries);
        Ok(uploaded) == b.result && remote.State() == b.store && remote.log == old(remote.log) + b.calls
    {
      uploaded := UploadFiles(filenames, None);
    }

    /** `uploadFiles(filenames, pathname)`: the directory first, outside the per-file isolation. */
    method UploadFilesInto(filenames: Option<seq<string>>, pathname: Option<string>) returns (r: Result<seq<FileMetadata>, Error>)
      requires remote.Valid()
      modifies remote`faults, remote`log, remote`sessions, remote`nextId, remote`entries
      ensures remote.Valid()
      ensures var b := BatchTo(files, filenames, GetUploadDir(pathname), old(remote.State()), retries);
        r == b.result && remote.State() == b.store && remote.log == old(remote.log) + b.calls
    {
      ghost var log0 := remote.log;
      var parentDir := DirectoryService.FindOrCreateDirectoryFromRoot(remote, GetUploadDir(pathname));
      if parentDir.Err? {
        r := Err(parentDir.error);
      } else {
        ghost var log1 := remote.log;
        var uploaded := UploadFiles(filenames, parentDir.value);
        r := Ok(uploaded);
        ConcatAssoc(log0, log1[|log0|..], remote.log[|log1|..]);
      }
    }
  }
}
