/**
 * The chunked upload of one local file (the current request class).
 *
 * `Execute` reads the file in chunks of at most CHUNK_SIZE bytes. The chunk at
 * offset 0 opens an upload session; every later chunk is appended to it at the
 * current offset; the session is then finished into a file at the target
 * path. Each chunk is retried on transport failures, CHUNK_RETRIES times at
 * most. A progress listener, when one is set, receives every state change.
 *
 * The method is proved against `UploadSpec`, a function of the remote state
 * before the call; the promised properties are lemmas about that function.
 */
module FileRequest {
  import opened Wrappers
  import opened RemoteStore
  import opened ProgressListener

  const CHUNK_SIZE: nat := 4194304
  const CHUNK_RETRIES: nat := 5

  // ---- chunks ----

  /** The length of the chunk read at `offset`: the rest of the file, at most CHUNK_SIZE. */
  function ChunkLength(offset: nat, size: nat): (n: nat)
    requires offset < size
    ensures 0 < n <= CHUNK_SIZE && offset + n <= size
    ensures n == CHUNK_SIZE || offset + n == size
  {
    if size - offset > CHUNK_SIZE then CHUNK_SIZE else size - offset
  }

  /** The number of chunks of a file of `size` bytes: size / CHUNK_SIZE, rounded up. */
  function ChunkCount(size: nat): nat {
    (size + CHUNK_SIZE - 1) / CHUNK_SIZE
  }

  /** The remote call that sends the chunk at `offset`: a session start at 0, an append after. */
  function ChunkCall(chunkId: Option<nat>, offset: nat, length: nat): Call
    requires offset == 0 || chunkId.Some?
  {
    if offset == 0 then StartCall(length) else AppendCall(chunkId.value, offset, length)
  }

  /** How many times a chunk is sent: up to the first success, CHUNK_RETRIES + 1 at most. */
  function Attempts(faults: seq<bool>, accepted: bool): (n: nat)
    ensures 1 <= n <= CHUNK_RETRIES + 1
    ensures accepted && LeadingFaults(faults) <= CHUNK_RETRIES ==> n == LeadingFaults(faults) + 1
    ensures !accepted || LeadingFaults(faults) > CHUNK_RETRIES ==> n == CHUNK_RETRIES + 1
  {
    if !accepted || LeadingFaults(faults) > CHUNK_RETRIES then CHUNK_RETRIES + 1
    else LeadingFaults(faults) + 1
  }

  /** The chunk gets through within its attempts. */
  predicate ChunkSucceeds(faults: seq<bool>, accepted: bool) {
    accepted && LeadingFaults(faults) <= CHUNK_RETRIES
  }

  /** The events an attempt at the chunk at `offset` reports before it is sent, for `n` attempts. */
  function AttemptEvents(offset: nat, n: nat): seq<ProgressEvent> {
    if offset == 0 then Repeat(ProgressEvent(InProgress, 0), n) else []
  }

  // ---- the chunk loop as a function ----

  /** The chunk loop from some offset on: whether it got through, the offset it stopped at, what it did. */
  datatype Run = Run(ok: bool, uploaded: nat, faults: seq<bool>, calls: seq<Call>, events: seq<ProgressEvent>)

  /** `run` preceded by `calls` and `events`. */
  function Then(calls: seq<Call>, events: seq<ProgressEvent>, run: Run): Run {
    Run(run.ok, run.uploaded, run.faults, calls + run.calls, events + run.events)
  }

  lemma ThenThen(c1: seq<Call>, e1: seq<ProgressEvent>, c2: seq<Call>, e2: seq<ProgressEvent>, run: Run)
    ensures Then(c1, e1, Then(c2, e2, run)) == Then(c1 + c2, e1 + e2, run)
  {
    assert c1 + (c2 + run.calls) == c1 + c2 + run.calls;
    assert e1 + (e2 + run.events) == e1 + e2 + run.events;
  }

  /** The attempts at one chunk: whether it got through, and what they did. */
  function Tried(faults: seq<bool>, accepted: bool, chunkId: Option<nat>, offset: nat, length: nat): Run
    requires offset == 0 || chunkId.Some?
  {
    var n := Attempts(faults, accepted);
    Run(ChunkSucceeds(faults, accepted), offset, Skip(faults, n),
        Repeat(ChunkCall(chunkId, offset, length), n), AttemptEvents(offset, n))
  }

  /**
   * The chunk loop from `offset` on, when session `session` already holds
   * `offset` bytes (or `offset` is 0 and no session is open yet).
   */
  function ChunkLoop(faults: seq<bool>, session: nat, offset: nat, size: nat): Run
    decreases size - offset
  {
    if offset >= size then Run(true, offset, faults, [], [])
    else
      var len := ChunkLength(offset, size);
      var tried := Tried(faults, true, SessionAt(session, offset), offset, len);
      if !tried.ok then tried
      else Then(tried.calls, tried.events + [ProgressEvent(InProgress, offset + len)],
                ChunkLoop(tried.faults, session, offset + len, size))
  }

  /** `total` is the chunk loop from `offset` on, preceded by `doneCalls` and `doneEvents`. */
  ghost predicate LoopRest(total: Run, doneCalls: seq<Call>, doneEvents: seq<ProgressEvent>,
                           faults: seq<bool>, session: nat, offset: nat, size: nat) {
    total == Then(doneCalls, doneEvents, ChunkLoop(faults, session, offset, size))
  }

  /** One step of the chunk loop, when the chunk gets through. */
  lemma ChunkLoopAdvances(total: Run, doneCalls: seq<Call>, doneEvents: seq<ProgressEvent>,
                          faults: seq<bool>, session: nat, offset: nat, size: nat)
    requires offset < size
    requires Tried(faults, true, SessionAt(session, offset), offset, ChunkLength(offset, size)).ok
    requires LoopRest(total, doneCalls, doneEvents, faults, session, offset, size)
    ensures var len := ChunkLength(offset, size);
      var tried := Tried(faults, true, SessionAt(session, offset), offset, len);
      LoopRest(total, doneCalls + tried.calls, doneEvents + tried.events + [ProgressEvent(InProgress, offset + len)],
               tried.faults, session, offset + len, size)
  {
    var len := ChunkLength(offset, size);
    var tried := Tried(faults, true, SessionAt(session, offset), offset, len);
    var events := tried.events + [ProgressEvent(InProgress, offset + len)];
    var rest := ChunkLoop(tried.faults, session, offset + len, size);
    ThenThen(doneCalls, doneEvents, tried.calls, events, rest);
    assert doneEvents + events == doneEvents + tried.events + [ProgressEvent(InProgress, offset + len)];
  }

  /** One step of the chunk loop, when the chunk does not get through: the loop ends there. */
  lemma ChunkLoopStops(total: Run, doneCalls: seq<Call>, doneEvents: seq<ProgressEvent>,
                       faults: seq<bool>, session: nat, offset: nat, size: nat)
    requires offset < size
    requires !Tried(faults, true, SessionAt(session, offset), offset, ChunkLength(offset, size)).ok
    requires LoopRest(total, doneCalls, doneEvents, faults, session, offset, size)
    ensures total == Then(doneCalls, doneEvents, Tried(faults, true, SessionAt(session, offset), offset, ChunkLength(offset, size)))
  {
  }

  /** The chunk loop's bookkeeping after a chunk got through and its progress was reported. */
  lemma ChunkStepState(total: Run, log0: seq<Call>, doneCalls: seq<Call>,
                       events0: seq<ProgressEvent>, doneEvents: seq<ProgressEvent>, listener: bool,
                       faults: seq<bool>, session: nat, offset: nat, size: nat,
                       log: seq<Call>, events: seq<ProgressEvent>)
    requires offset < size
    requires Tried(faults, true, SessionAt(session, offset), offset, ChunkLength(offset, size)).ok
    requires LoopRest(total, doneCalls, doneEvents, faults, session, offset, size)
    requires var tried := Tried(faults, true, SessionAt(session, offset), offset, ChunkLength(offset, size));
      log == log0 + doneCalls + tried.calls
    requires var len := ChunkLength(offset, size);
      var tried := Tried(faults, true, SessionAt(session, offset), offset, len);
      events == events0 + Reported(listener, doneEvents) + Reported(listener, tried.events)
                + Reported(listener, [ProgressEvent(InProgress, offset + len)])
    ensures var len := ChunkLength(offset, size);
      var tried := Tried(faults, true, SessionAt(session, offset), offset, len);
      var doneEvents' := doneEvents + tried.events + [ProgressEvent(InProgress, offset + len)];
      && LoopRest(total, doneCalls + tried.calls, doneEvents', tried.faults, session, offset + len, size)
      && log == log0 + (doneCalls + tried.calls)
      && events == events0 + Reported(listener, doneEvents')
  {
    var len := ChunkLength(offset, size);
    var tried := Tried(faults, true, SessionAt(session, offset), offset, len);
    ChunkLoopAdvances(total, doneCalls, doneEvents, faults, session, offset, size);
    ConcatAssoc(log0, doneCalls, tried.calls);
    ReportedAppend(listener, events0, doneEvents, tried.events, [ProgressEvent(InProgress, offset + len)]);
  }

  lemma ThenNothing(run: Run)
    ensures Then([], [], run) == run
  {
    assert [] + run.calls == run.calls;
    assert [] + run.events == run.events;
  }

  /** The chunk loop at the end of the file: everything was done before. */
  lemma ChunkLoopDone(total: Run, doneCalls: seq<Call>, doneEvents: seq<ProgressEvent>,
                      faults: seq<bool>, session: nat, size: nat)
    requires LoopRest(total, doneCalls, doneEvents, faults, session, size, size)
    ensures total == Run(true, size, faults, doneCalls, doneEvents)
  {
    assert doneCalls + [] == doneCalls;
    assert doneEvents + [] == doneEvents;
  }

  /** The remote state where a failed chunk loop left it. */
  lemma ChunksFailed(total: Run, s: Store, offset: nat, st: Store, faults: seq<bool>)
    requires total.uploaded == offset && total.faults == faults && st == AfterChunks(s, offset, faults)
    ensures st == AfterChunks(s, total.uploaded, total.faults)
  {
  }

  /** The outcome of a whole request: the result, the remote state after it, and what it did. */
  datatype Upload = Upload(result: Result<FileMetadata, Error>, store: Store, calls: seq<Call>, events: seq<ProgressEvent>)

  /**
   * The remote state once the chunk loop has sent `uploaded` bytes, with
   * `faults` left of the script: session s.nextId is open, holding them, once
   * the first chunk got through.
   */
  function AfterChunks(s: Store, uploaded: nat, faults: seq<bool>): Store {
    if uploaded > 0 then Store(s.entries, s.sessions[s.nextId := uploaded], s.nextId + 1, faults)
    else Store(s.entries, s.sessions, s.nextId, faults)
  }

  /** The remote holds the session at the loop's offset, so it takes the next chunk. */
  lemma ChunkAccepted(s: Store, offset: nat, st: Store)
    requires st == AfterChunks(s, offset, st.faults)
    ensures Accepts(st.sessions, SessionAt(s.nextId, offset), offset)
  {
  }

  /** The remote state after one more chunk of `len` bytes, from `st`, the state at `offset`. */
  lemma AfterChunkSent(s: Store, offset: nat, len: nat, st: Store, faults: seq<bool>)
    requires len > 0 && st == AfterChunks(s, offset, st.faults)
    ensures offset == 0 ==> AfterChunks(s, offset + len, faults) == Store(st.entries, st.sessions[st.nextId := len], st.nextId + 1, faults)
    ensures offset > 0 ==> AfterChunks(s, offset + len, faults) == Store(st.entries, st.sessions[s.nextId := offset + len], st.nextId, faults)
    ensures AfterChunks(s, offset, faults) == Store(st.entries, st.sessions, st.nextId, faults)
  {
  }

  /** What `Execute` does from remote state `s`, uploading `local` to `path` with `mode`. */
  function UploadSpec(local: LocalStat, path: string, mode: WriteMode, s: Store): Upload {
    var init := [ProgressEvent(Initiation, 0)];
    if !local.present then Upload(Err(LocalIO), s, [], init)
    else
      var run := ChunkLoop(s.faults, s.nextId, 0, local.length);
      var s1 := AfterChunks(s, run.uploaded, run.faults);
      if !run.ok then Upload(Err(Transport), s1, run.calls, init + run.events)
      else if local.length == 0 then Upload(Err(NoChunkFound), s1, [], init)
      else Finished(local, path, mode, s, run)
  }

  /**
   * What `Execute` does once the chunk loop `run` got the whole file through:
   * the finish of session s.nextId into a file at `path`, then COMPLETE.
   */
  function Finished(local: LocalStat, path: string, mode: WriteMode, s: Store, run: Run): Upload {
    var init := [ProgressEvent(Initiation, 0)];
    var s1 := AfterChunks(s, run.uploaded, run.faults);
    var calls := run.calls + [FinishCall(s.nextId, local.length, CommitInfo(path, mode, local.lastModified))];
    if FailsNext(s1.faults) || Conflict(s.entries, path, mode) then
      Upload(Err(Transport), s1.(faults := Rest(s1.faults)), calls, init + run.events)
    else
      var file := File(path, local.length, local.lastModified, s1.nextId);
      Upload(Ok(file),
             Store(s.entries[path := file], s1.sessions - {s.nextId}, s1.nextId + 1, Rest(s1.faults)),
             calls, init + run.events + [ProgressEvent(Complete, local.length)])
  }

  // ---- properties of the chunk loop ----

  /** The calls of a chunk loop that meets no failure: one per chunk. */
  function ChunkCalls(session: nat, offset: nat, size: nat): seq<Call>
    decreases size - offset
  {
    if offset >= size then []
    else [ChunkCall(Some(session), offset, ChunkLength(offset, size))] + ChunkCalls(session, offset + ChunkLength(offset, size), size)
  }

  /** Without failures the loop reaches the end of the file and sends every chunk once. */
  lemma {:induction false} ChunkLoopReliable(faults: seq<bool>, session: nat, offset: nat, size: nat)
    requires Reliable(faults) && offset <= size
    ensures var run := ChunkLoop(faults, session, offset, size);
      && run.ok && run.uploaded == size && Reliable(run.faults)
      && run.calls == ChunkCalls(session, offset, size)
    decreases size - offset
  {
    if offset < size {
      ReliableRest(faults);
      assert Skip(faults, 1) == Rest(faults);
      var len := ChunkLength(offset, size);
      ChunkLoopReliable(Rest(faults), session, offset + len, size);
      assert Repeat(ChunkCall(Some(session), offset, len), 1) == [ChunkCall(Some(session), offset, len)];
    }
  }

  /** The number of chunks counts down by one per chunk. */
  lemma ChunkCountStep(offset: nat, size: nat)
    requires offset < size
    ensures ChunkCount(size - offset) == 1 + ChunkCount(size - (offset + ChunkLength(offset, size)))
  {
    var m := size - offset;
    if m > CHUNK_SIZE {
      assert (m + CHUNK_SIZE - 1) / CHUNK_SIZE == 1 + (m - CHUNK_SIZE + CHUNK_SIZE - 1) / CHUNK_SIZE;
    } else {
      assert (m + CHUNK_SIZE - 1) / CHUNK_SIZE == 1;
    }
  }

  /** Without failures, the chunks from `offset` are sent at offset, offset + CHUNK_SIZE, ... */
  lemma {:induction false} ChunkCallsAt(session: nat, offset: nat, size: nat)
    requires offset <= size
    ensures var calls := ChunkCalls(session, offset, size);
      && |calls| == ChunkCount(size - offset)
      && forall i | 0 <= i < |calls| :: offset + i * CHUNK_SIZE < size
           && calls[i] == ChunkCall(Some(session), offset + i * CHUNK_SIZE, ChunkLength(offset + i * CHUNK_SIZE, size))
    decreases size - offset
  {
    if offset < size {
      var len := ChunkLength(offset, size);
      ChunkCountStep(offset, size);
      ChunkCallsAt(session, offset + len, size);
      var calls := ChunkCalls(session, offset, size);
      var rest := ChunkCalls(session, offset + len, size);
      assert calls == [ChunkCall(Some(session), offset, len)] + rest;
      forall i | 0 <= i < |calls|
        ensures offset + i * CHUNK_SIZE < size
        ensures calls[i] == ChunkCall(Some(session), offset + i * CHUNK_SIZE, ChunkLength(offset + i * CHUNK_SIZE, size))
      {
        if i > 0 {
          assert calls[i] == rest[i - 1];
          assert |rest| > 0;
          assert offset + len < size;
          assert offset + i * CHUNK_SIZE == offset + len + (i - 1) * CHUNK_SIZE;
        }
      }
    }
  }

  lemma AttemptEventsShape(offset: nat, n: nat)
    ensures Reports(AttemptEvents(offset, n), offset, offset)
  {
    RepeatElements(ProgressEvent(InProgress, 0), n);
  }

  /** The chunk loop stops within the file, and at its end when it gets every chunk through. */
  lemma {:induction false} ChunkLoopUploaded(faults: seq<bool>, session: nat, offset: nat, size: nat)
    requires offset <= size
    ensures var run := ChunkLoop(faults, session, offset, size);
      && offset <= run.uploaded <= size
      && (run.ok ==> run.uploaded == size)
    decreases size - offset
  {
    if offset < size {
      var len := ChunkLength(offset, size);
      var n := Attempts(faults, true);
      if ChunkSucceeds(faults, true) {
        ChunkLoopUploaded(Skip(faults, n), session, offset + len, size);
      }
    }
  }

  /** Attempt events at `offset`, then IN_PROGRESS events from `next` on, are in order. */
  /** The events of one step of the chunk loop, in terms of the chunk's attempts and the rest of the loop. */
  lemma ChunkLoopEventsStep(faults: seq<bool>, session: nat, offset: nat, size: nat)
    requires offset < size
    ensures var len := ChunkLength(offset, size);
      var tried := Tried(faults, true, SessionAt(session, offset), offset, len);
      ChunkLoop(faults, session, offset, size).events ==
        if tried.ok then tried.events + ([ProgressEvent(InProgress, offset + len)] + ChunkLoop(tried.faults, session, offset + len, size).events)
        else tried.events
  {
    var len := ChunkLength(offset, size);
    var tried := Tried(faults, true, SessionAt(session, offset), offset, len);
    if tried.ok {
      var rest := ChunkLoop(tried.faults, session, offset + len, size).events;
      assert tried.events + [ProgressEvent(InProgress, offset + len)] + rest
          == tried.events + ([ProgressEvent(InProgress, offset + len)] + rest);
    }
  }

  /**
   * Attempts at `offset`, then, when the chunk got through, a report of `next`
   * and events between `next` and `size`.
   */
  lemma StepReports(events: seq<ProgressEvent>, tried: seq<ProgressEvent>, ok: bool, next: nat,
                    rest: seq<ProgressEvent>, offset: nat, size: nat)
    requires offset <= next <= size
    requires events == if ok then tried + ([ProgressEvent(InProgress, next)] + rest) else tried
    requires Reports(tried, offset, offset)
    requires ok ==> Reports(rest, next, size)
    ensures Reports(events, offset, size)
  {
    if ok {
      var step := [ProgressEvent(InProgress, next)];
      ProgressConcat(step, rest, next, next, size);
      AllInConcat(step, rest, InProgress);
      ProgressConcat(tried, step + rest, offset, offset, size);
      AllInConcat(tried, step + rest, InProgress);
    } else {
      ProgressConcat(tried, [], offset, offset, size);
      assert tried + [] == tried;
    }
  }

  /** The events of the chunk loop from `offset` are progress reports between `offset` and `size`. */
  ghost predicate LoopReports(faults: seq<bool>, session: nat, offset: nat, size: nat)
    requires offset <= size
  {
    Reports(ChunkLoop(faults, session, offset, size).events, offset, size)
  }

  /** The step of `ChunkLoopEvents`: one chunk's attempts, its report, then the rest of the loop. */
  lemma ChunkLoopEventsAdvance(faults: seq<bool>, session: nat, offset: nat, size: nat)
    requires offset < size
    requires var len := ChunkLength(offset, size);
      var tried := Tried(faults, true, SessionAt(session, offset), offset, len);
      tried.ok ==> LoopReports(tried.faults, session, offset + len, size)
    ensures LoopReports(faults, session, offset, size)
  {
    var len := ChunkLength(offset, size);
    var tried := Tried(faults, true, SessionAt(session, offset), offset, len);
    ChunkLoopEventsStep(faults, session, offset, size);
    AttemptEventsShape(offset, Attempts(faults, true));
    if tried.ok {
      var rest := ChunkLoop(tried.faults, session, offset + len, size).events;
      StepReports(ChunkLoop(faults, session, offset, size).events, tried.events, true, offset + len, rest, offset, size);
    } else {
      StepReports(ChunkLoop(faults, session, offset, size).events, tried.events, false, offset + len, [], offset, size);
    }
  }

  /** Every event of the chunk loop reports progress, in order, between where it started and the file's size. */
  lemma {:induction false} ChunkLoopEvents(faults: seq<bool>, session: nat, offset: nat, size: nat)
    requires offset <= size
    ensures LoopReports(faults, session, offset, size)
    decreases size - offset
  {
    if offset < size {
      var len := ChunkLength(offset, size);
      if Tried(faults, true, SessionAt(session, offset), offset, len).ok {
        ChunkLoopEvents(Tried(faults, true, SessionAt(session, offset), offset, len).faults, session, offset + len, size);
      }
      ChunkLoopEventsAdvance(faults, session, offset, size);
    }
  }

  // ---- properties of a whole request ----

  /** Without failures and conflicts, an upload sends one call per chunk, then finishes the session into the file. */
  lemma ReliableUpload(local: LocalStat, path: string, mode: WriteMode, s: Store)
    requires local.present && local.length > 0 && Reliable(s.faults) && !Conflict(s.entries, path, mode)
    ensures var u := UploadSpec(local, path, mode, s);
      var file := File(path, local.length, local.lastModified, s.nextId + 1);
      && u.result == Ok(file)
      && u.store.entries == s.entries[path := file]
      && u.calls == ChunkCalls(s.nextId, 0, local.length)
                    + [FinishCall(s.nextId, local.length, CommitInfo(path, mode, local.lastModified))]
      && |u.calls| == ChunkCount(local.length) + 1
      && u.calls[0] == StartCall(ChunkLength(0, local.length))
      && forall i | 0 < i < ChunkCount(local.length) ::
           u.calls[i] == AppendCall(s.nextId, i * CHUNK_SIZE, ChunkLength(i * CHUNK_SIZE, local.length))
  {
    ChunkLoopReliable(s.faults, s.nextId, 0, local.length);
    ChunkCallsAt(s.nextId, 0, local.length);
    var run := ChunkLoop(s.faults, s.nextId, 0, local.length);
    ReliableRest(run.faults);
  }

  /** A file of zero bytes sends nothing and fails with "No chunk found", whatever the remote does. */
  lemma EmptyFileSendsNothing(local: LocalStat, path: string, mode: WriteMode, s: Store)
    requires local.present && local.length == 0
    ensures var u := UploadSpec(local, path, mode, s);
      u.result == Err(NoChunkFound) && u.calls == [] && u.store == s
  {
  }

  /** A missing local file fails before any remote call. */
  lemma MissingFileSendsNothing(local: LocalStat, path: string, mode: WriteMode, s: Store)
    requires !local.present
    ensures var u := UploadSpec(local, path, mode, s);
      u.result == Err(LocalIO) && u.calls == [] && u.store == s
  {
  }

  /** The events of a request: INITIATION, those of the chunk loop, then COMPLETE if it succeeded. */
  lemma UploadEvents(local: LocalStat, path: string, mode: WriteMode, s: Store)
    ensures var u := UploadSpec(local, path, mode, s);
      var loop := if local.present then ChunkLoop(s.faults, s.nextId, 0, local.length).events else [];
      u.events == [ProgressEvent(Initiation, 0)] + loop
                  + (if u.result.Ok? then [ProgressEvent(Complete, local.length)] else [])
  {
    if local.present {
      var run := ChunkLoop(s.faults, s.nextId, 0, local.length);
      if run.ok && local.length > 0 {
        assert UploadSpec(local, path, mode, s) == Finished(local, path, mode, s, run);
      }
    }
  }

  /**
   * Progress starts with INITIATION at 0 and reports offsets that never
   * decrease; COMPLETE, with the file size, is the last event exactly when
   * the upload succeeds, and occurs nowhere else.
   */
  lemma ProgressOrder(local: LocalStat, path: string, mode: WriteMode, s: Store)
    ensures var u := UploadSpec(local, path, mode, s);
      && |u.events| > 0 && u.events[0] == ProgressEvent(Initiation, 0)
      && NonDecreasing(u.events) && Within(u.events, 0, local.length)
      && (forall i | 0 < i < |u.events| :: u.events[i].state != Initiation)
      && (forall i | 0 <= i < |u.events| - 1 :: u.events[i].state != Complete)
      && (u.result.Ok? <==> u.events[|u.events| - 1] == ProgressEvent(Complete, local.length))
  {
    UploadEvents(local, path, mode, s);
    if local.present {
      ChunkLoopEvents(s.faults, s.nextId, 0, local.length);
      EventsOrder(ChunkLoop(s.faults, s.nextId, 0, local.length).events, UploadSpec(local, path, mode, s).result.Ok?, local.length);
    } else {
      EventsOrder([], false, local.length);
    }
  }

  // ---- the request ----

  class FileRequest {
    const remote: Remote
    const remoteFilePath: string
    const localFile: LocalStat
    const writeMode: WriteMode
    var progressListener: bool     // a listener is set
    var events: seq<ProgressEvent> // what the listener has received
    var streamOpen: bool           // the local file's input stream is open

    /** createInsert: a new file at `remoteFilePath`. */
    constructor Insert(remote: Remote, remoteFilePath: string, localFile: LocalStat)
      ensures this.remote == remote && this.remoteFilePath == remoteFilePath && this.localFile == localFile
      ensures writeMode == Add
      ensures !progressListener && events == [] && !streamOpen
    {
      this.remote := remote;
      this.remoteFilePath := remoteFilePath;
      this.localFile := localFile;
      writeMode := Add;
      progressListener := false;
      events := [];
      streamOpen := false;
    }

    /** createUpdate: overwrite `remoteFile` at its own path, expecting its revision. */
    constructor Update(remote: Remote, remoteFile: FileMetadata, localFile: LocalStat)
      ensures this.remote == remote && remoteFilePath == remoteFile.path && this.localFile == localFile
      ensures writeMode == WriteMode.Update(remoteFile.rev)
      ensures !progressListener && events == [] && !streamOpen
    {
      this.remote := remote;
      remoteFilePath := remoteFile.path;
      this.localFile := localFile;
      writeMode := WriteMode.Update(remoteFile.rev);
      progressListener := false;
      events := [];
      streamOpen := false;
    }

    method SetProgressListener(listener: bool)
      modifies this`progressListener
      ensures progressListener == listener
    {
      progressListener := listener;
    }

    /** Tells the listener, if any, about a state change. */
    method Progress(state: State, uploaded: nat)
      modifies this`events
      ensures events == old(events) + Reported(progressListener, [ProgressEvent(state, uploaded)])
    {
      if progressListener {
        events := events + [ProgressEvent(state, uploaded)];
      }
    }

    /** Sends one chunk: a session start at offset 0 (reported as IN_PROGRESS at 0), an append after. */
    method UploadChunk(offset: nat, chunkId: Option<nat>, read: nat) returns (r: Result<nat, Error>)
      requires offset == 0 || chunkId.Some?
      modifies remote`faults, remote`log, remote`sessions, remote`nextId, this`events
      ensures events == old(events) + Reported(progressListener, AttemptEvents(offset, 1))
      ensures remote.faults == Rest(old(remote.faults))
      ensures remote.log == old(remote.log) + [ChunkCall(chunkId, offset, read)]
      ensures r.Ok? <==> !FailsNext(old(remote.faults)) && Accepts(old(remote.sessions), chunkId, offset)
      ensures r.Ok? && offset == 0 ==>
                r.value == old(remote.nextId) && remote.nextId == old(remote.nextId) + 1
                && remote.sessions == old(remote.sessions)[old(remote.nextId) := read]
      ensures r.Ok? && offset > 0 ==>
                r.value == chunkId.value && remote.nextId == old(remote.nextId)
                && remote.sessions == old(remote.sessions)[chunkId.value := offset + read]
      ensures r.Err? ==> r.error == Transport && remote.sessions == old(remote.sessions) && remote.nextId == old(remote.nextId)
    {
      if offset == 0 {
        Progress(InProgress, offset);
        assert AttemptEvents(offset, 1) == [ProgressEvent(InProgress, 0)];
        r := remote.StartSession(read);
      } else {
        var appended := remote.AppendSession(chunkId.value, offset, read);
        r := if appended.Ok? then Ok(chunkId.value) else Err(appended.error);
      }
    }

    /** Sends one chunk, again after each transport failure, CHUNK_RETRIES times at most. */
    method UploadChunkWithRetries(offset: nat, chunkId: Option<nat>, read: nat) returns (r: Result<nat, Error>)
      requires offset == 0 || chunkId.Some?
      modifies remote`faults, remote`log, remote`sessions, remote`nextId, this`events
      ensures var tried := Tried(old(remote.faults), Accepts(old(remote.sessions), chunkId, offset), chunkId, offset, read);
        && (r.Ok? <==> tried.ok)
        && remote.faults == tried.faults
        && remote.log == old(remote.log) + tried.calls
        && events == old(events) + Reported(progressListener, tried.events)
      ensures r.Ok? && offset == 0 ==>
                r.value == old(remote.nextId) && remote.nextId == old(remote.nextId) + 1
                && remote.sessions == old(remote.sessions)[old(remote.nextId) := read]
      ensures r.Ok? && offset > 0 ==>
                r.value == chunkId.value && remote.nextId == old(remote.nextId)
                && remote.sessions == old(remote.sessions)[chunkId.value := offset + read]
      ensures r.Err? ==> r.error == Transport && remote.sessions == old(remote.sessions) && remote.nextId == old(remote.nextId)
    {
      ghost var faults0 := remote.faults;
      ghost var log0 := remote.log;
      ghost var events0 := events;
      ghost var sessions0 := remote.sessions;
      ghost var nextId0 := remote.nextId;
      ghost var accepted := Accepts(sessions0, chunkId, offset);
      ghost var n := Attempts(faults0, accepted);
      var retry: nat := 0;
      while true
        invariant retry < n
        invariant accepted ==> retry <= LeadingFaults(faults0)
        invariant remote.faults == Skip(faults0, retry)
        invariant remote.log == log0 + Repeat(ChunkCall(chunkId, offset, read), retry)
        invariant events == events0 + Reported(progressListener, AttemptEvents(offset, retry))
        invariant remote.sessions == sessions0 && remote.nextId == nextId0
        decreases CHUNK_RETRIES - retry
      {
        r := Attempt(faults0, log0, events0, retry, offset, chunkId, read);
        ghost var tries := retry + 1;
        if r.Err? {
          retry := retry + 1;
        }
        if r.Ok? || retry > CHUNK_RETRIES {
          assert tries == n && (r.Ok? <==> ChunkSucceeds(faults0, accepted));
          break;
        }
      }
    }

    /**
     * Attempt `retry` at sending a chunk, after `retry` transport failures:
     * one more call, which gets through exactly when the remote takes the
     * chunk and the script has no more faults before it.
     */
    method Attempt(ghost faults0: seq<bool>, ghost log0: seq<Call>, ghost events0: seq<ProgressEvent>,
                   retry: nat, offset: nat, chunkId: Option<nat>, read: nat) returns (r: Result<nat, Error>)
      requires offset == 0 || chunkId.Some?
      requires Accepts(remote.sessions, chunkId, offset) ==> retry <= LeadingFaults(faults0)
      requires remote.faults == Skip(faults0, retry)
      requires remote.log == log0 + Repeat(ChunkCall(chunkId, offset, read), retry)
      requires events == events0 + Reported(progressListener, AttemptEvents(offset, retry))
      modifies remote`faults, remote`log, remote`sessions, remote`nextId, this`events
      ensures remote.faults == Skip(faults0, retry + 1)
      ensures remote.log == log0 + Repeat(ChunkCall(chunkId, offset, read), retry + 1)
      ensures events == events0 + Reported(progressListener, AttemptEvents(offset, retry + 1))
      ensures r.Ok? <==> Accepts(old(remote.sessions), chunkId, offset) && retry == LeadingFaults(faults0)
      ensures r.Ok? && offset == 0 ==>
                r.value == old(remote.nextId) && remote.nextId == old(remote.nextId) + 1
                && remote.sessions == old(remote.sessions)[old(remote.nextId) := read]
      ensures r.Ok? && offset > 0 ==>
                r.value == chunkId.value && remote.nextId == old(remote.nextId)
                && remote.sessions == old(remote.sessions)[chunkId.value := offset + read]
      ensures r.Err? ==> r.error == Transport && remote.sessions == old(remote.sessions) && remote.nextId == old(remote.nextId)
    {
      var call := ChunkCall(chunkId, offset, read);
      if Accepts(remote.sessions, chunkId, offset) {
        SkipFaults(faults0, retry);
      } else {
        SkipRest(faults0, retry);
      }
      ReportedAppend2(progressListener, events0, AttemptEvents(offset, retry), AttemptEvents(offset, 1));
      ConcatAssoc(log0, Repeat(call, retry), [call]);
      r := UploadChunk(offset, chunkId, read);
      assert AttemptEvents(offset, retry) + AttemptEvents(offset, 1) == AttemptEvents(offset, retry + 1);
      assert Repeat(call, retry) + [call] == Repeat(call, retry + 1);
    }

    /** What this request does from remote state `s`. */
    function Planned(s: Store): Upload {
      UploadSpec(localFile, remoteFilePath, writeMode, s)
    }

    /**
     * One round of the chunk loop of `execute`: the chunk at `offset` with retries,
     * then IN_PROGRESS with the new offset. `total` is the whole loop, and
     * `doneCalls` and `doneEvents` are what the rounds before this one did;
     * `calls` and `shown` extend them with this round.
     */
    method SendChunk(ghost s: Store, ghost log0: seq<Call>, ghost events0: seq<ProgressEvent>, ghost total: Run,
                     ghost doneCalls: seq<Call>, ghost doneEvents: seq<ProgressEvent>,
                     offset: nat, chunkId: Option<nat>, size: nat)
      returns (sent: Result<nat, Error>, ghost calls: seq<Call>, ghost shown: seq<ProgressEvent>)
      requires offset < size && chunkId == SessionAt(s.nextId, offset)
      requires LoopRest(total, doneCalls, doneEvents, remote.faults, s.nextId, offset, size)
      requires remote.log == log0 + doneCalls
      requires events == events0 + Reported(progressListener, doneEvents)
      requires remote.State() == AfterChunks(s, offset, remote.faults)
      modifies remote`faults, remote`log, remote`sessions, remote`nextId, this`events
      ensures var next := offset + ChunkLength(offset, size);
        sent.Ok? ==>
          && sent.value == s.nextId
          && LoopRest(total, calls, shown, remote.faults, s.nextId, next, size)
          && remote.log == log0 + calls
          && events == events0 + Reported(progressListener, shown)
          && remote.State() == AfterChunks(s, next, remote.faults)
      ensures sent.Err? ==>
          && sent.error == Transport
          && !total.ok && total.uploaded == offset && total.faults == remote.faults
          && remote.log == log0 + total.calls
          && events == events0 + Reported(progressListener, total.events)
          && remote.State() == AfterChunks(s, offset, remote.faults)
    {
      var readBytes := ChunkLength(offset, size);
      ghost var faults := remote.faults;
      ghost var before := remote.State();
      ghost var tried := Tried(faults, true, chunkId, offset, readBytes);
      ChunkAccepted(s, offset, before);
      sent := UploadChunkWithRetries(offset, chunkId, readBytes);
      AfterChunkSent(s, offset, readBytes, before, remote.faults);
      calls := doneCalls + tried.calls;
      if sent.Err? {
        shown := doneEvents + tried.events;
        ConcatAssoc(log0, doneCalls, tried.calls);
        ReportedAppend2(progressListener, events0, doneEvents, tried.events);
        ChunkLoopStops(total, doneCalls, doneEvents, faults, s.nextId, offset, size);
      } else {
        shown := doneEvents + tried.events + [ProgressEvent(InProgress, offset + readBytes)];
        Progress(InProgress, offset + readBytes);
        ChunkStepState(total, log0, doneCalls, events0, doneEvents, progressListener,
                       faults, s.nextId, offset, size, remote.log, events);
      }
    }

    /**
     * The chunk loop of `execute`: sends the file's `size` bytes chunk by chunk
     * and gives the session id, or null when there was nothing to send.
     */
    method UploadChunks(size: nat) returns (r: Result<Option<nat>, Error>)
      modifies remote`faults, remote`log, remote`sessions, remote`nextId, this`events
      ensures r.Ok? <==> ChunkLoop(old(remote.faults), old(remote.nextId), 0, size).ok
      ensures r.Ok? ==> r.value == SessionAt(old(remote.nextId), size)
      ensures r.Err? ==> r.error == Transport
      ensures var run := ChunkLoop(old(remote.faults), old(remote.nextId), 0, size);
        remote.State() == AfterChunks(old(remote.State()), run.uploaded, run.faults)
      ensures remote.log == old(remote.log) + ChunkLoop(old(remote.faults), old(remote.nextId), 0, size).calls
      ensures events == old(events) + Reported(progressListener, ChunkLoop(old(remote.faults), old(remote.nextId), 0, size).events)
    {
      ghost var s := remote.State();
      ghost var log0 := remote.log;
      ghost var events0 := events;
      var offset: nat := 0;
      var chunkId: Option<nat> := None;
      ghost var total := ChunkLoop(s.faults, s.nextId, 0, size);
      ghost var doneCalls: seq<Call> := [];
      ghost var doneEvents: seq<ProgressEvent> := [];
      ThenNothing(total);
      while offset < size
        invariant offset <= size
        invariant LoopRest(total, doneCalls, doneEvents, remote.faults, s.nextId, offset, size)
        invariant remote.log == log0 + doneCalls
        invariant events == events0 + Reported(progressListener, doneEvents)
        invariant chunkId == SessionAt(s.nextId, offset)
        invariant remote.State() == AfterChunks(s, offset, remote.faults)
        decreases size - offset
      {
        var readBytes := ChunkLength(offset, size);
        var sent;
        sent, doneCalls, doneEvents := SendChunk(s, log0, events0, total, doneCalls, doneEvents, offset, chunkId, size);
        if sent.Err? {
          ChunksFailed(total, s, offset, remote.State(), remote.faults);
          return Err(sent.error);
        }
        chunkId := Some(sent.value);
        offset := offset + readBytes;
      }
      ChunkLoopDone(total, doneCalls, doneEvents, remote.faults, s.nextId, size);
      r := Ok(chunkId);
    }

    /**
     * The end of `execute` once the chunk loop sent all `size` bytes into
     * session `session`: the finish of the session, committed with the file's
     * modification time, then COMPLETE when it succeeds.
     */
    method FinishUpload(ghost s: Store, ghost run: Run, session: nat, size: nat) returns (r: Result<FileMetadata, Error>)
      requires remote.Valid() && localFile.present && size == localFile.length && 0 < size
      requires run.ok && run.uploaded == size && session == s.nextId
      requires remote.State() == AfterChunks(s, run.uploaded, run.faults)
      modifies remote`faults, remote`log, remote`sessions, remote`nextId, remote`entries, this`events
      ensures remote.Valid()
      ensures var u := Finished(localFile, remoteFilePath, writeMode, s, run);
        r == u.result && remote.State() == u.store
      ensures remote.log == old(remote.log) + [FinishCall(session, size, CommitInfo(remoteFilePath, writeMode, localFile.lastModified))]
      ensures events == old(events) + Reported(progressListener, if r.Ok? then [ProgressEvent(Complete, size)] else [])
    {
      var commit := CommitInfo(remoteFilePath, writeMode, localFile.lastModified);
      r := remote.FinishSession(session, size, commit);
      if r.Ok? {
        Progress(Complete, size);
      }
    }

    /**
     * Uploads the local file: INITIATION, the chunk loop, then the finish of the
     * session holding all `size` bytes, committed with the file's modification time.
     */
    method Execute() returns (r: Result<FileMetadata, Error>)
      requires remote.Valid() && !streamOpen
      modifies remote`faults, remote`log, remote`sessions, remote`nextId, remote`entries, this`events, this`streamOpen
      ensures remote.Valid() && !streamOpen
      ensures r == Planned(old(remote.State())).result
      ensures remote.State() == Planned(old(remote.State())).store
      ensures remote.log == old(remote.log) + Planned(old(remote.State())).calls
      ensures events == old(events) + Reported(progressListener, Planned(old(remote.State())).events)
    {
      ghost var s := remote.State();
      ghost var events0 := events;
      Progress(Initiation, 0);
      if !localFile.present {
        assert Planned(s) == Upload(Err(LocalIO), s, [], [ProgressEvent(Initiation, 0)]);
        r := Err(LocalIO);
      } else {
        streamOpen := true;
        var size := localFile.length;
        ghost var run := ChunkLoop(s.faults, s.nextId, 0, size);
        var chunkId := UploadChunks(size);
        ChunkLoopUploaded(s.faults, s.nextId, 0, size);
        ReportedAppend2(progressListener, events0, [ProgressEvent(Initiation, 0)], run.events);
        if chunkId.Err? {
          assert Planned(s) == Upload(Err(Transport), AfterChunks(s, run.uploaded, run.faults), run.calls, [ProgressEvent(Initiation, 0)] + run.events);
          r := Err(chunkId.error);
        } else if chunkId.value.None? {
          assert Planned(s) == Upload(Err(NoChunkFound), AfterChunks(s, run.uploaded, run.faults), [], [ProgressEvent(Initiation, 0)]);
          assert [ProgressEvent(Initiation, 0)] + run.events == [ProgressEvent(Initiation, 0)];
          r := Err(NoChunkFound);
        } else {
          r := FinishUpload(s, run, chunkId.value.value, size);
          assert Planned(s) == Finished(localFile, remoteFilePath, writeMode, s, run);
          ConcatAssoc(old(remote.log), run.calls, [FinishCall(s.nextId, size, CommitInfo(remoteFilePath, writeMode, localFile.lastModified))]);
          if r.Ok? {
            ReportedAppend(progressListener, events0, [ProgressEvent(Initiation, 0)], run.events, [ProgressEvent(Complete, size)]);
          }
        }
        streamOpen := false;
      }
    }
  }
}
