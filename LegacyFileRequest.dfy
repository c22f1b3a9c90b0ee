/**
 * The older chunked upload request, written against the first version of the
 * remote API.
 *
 * `Execute` reads the local file's stream until end of file into a buffer of
 * CHUNK_SIZE bytes. The first read opens an upload with `chunkedUploadFirst`,
 * every later read is appended at the current offset, and the upload is then
 * finished into a file at the target path. Nothing is retried: the first
 * failure ends the request. An empty stream sends no chunk and asks the
 * remote to finish an upload with no id.
 *
 * The stream is given as the sizes its reads return, in order; the bytes
 * themselves are not modelled. The offset is a 32-bit `int` in the code:
 * `OffsetFrom` states what it holds, and the model itself counts bytes with
 * an unbounded offset.
 */
module LegacyFileRequest {
  import opened Wrappers
  import opened RemoteStore
  import opened ProgressListener

  const CHUNK_SIZE: nat := 4194304

  /** What a stream's reads into a CHUNK_SIZE buffer return before end of file: 1 to CHUNK_SIZE bytes. */
  predicate ValidReads(sizes: seq<nat>) {
    forall i | 0 <= i < |sizes| :: 0 < sizes[i] <= CHUNK_SIZE
  }

  /** The number of bytes `sizes` deliver. */
  function Sum(sizes: seq<nat>): nat {
    if sizes == [] then 0 else sizes[0] + Sum(sizes[1..])
  }

  lemma {:induction false} SumAppend(sizes: seq<nat>, x: nat)
    ensures Sum(sizes + [x]) == Sum(sizes) + x
  {
    if sizes != [] {
      assert (sizes + [x])[1..] == sizes[1..] + [x];
      SumAppend(sizes[1..], x);
    }
  }

  /** The bytes read before read `i`, and then with it. */
  lemma SumPrefix(sizes: seq<nat>, i: nat)
    requires i < |sizes|
    ensures Sum(sizes[..i + 1]) == Sum(sizes[..i]) + sizes[i]
  {
    assert sizes[..i + 1] == sizes[..i] + [sizes[i]];
    SumAppend(sizes[..i], sizes[i]);
  }

  // ---- the 32-bit offset of the code ----

  const INT_MIN: int := -0x8000_0000
  const INT_RANGE: int := 0x1_0000_0000

  /** A Java `int` result: `x` wrapped into [-2^31, 2^31). */
  function Wrap32(x: int): (r: int)
    ensures INT_MIN <= r < INT_MIN + INT_RANGE
  {
    (x - INT_MIN) % INT_RANGE + INT_MIN
  }

  lemma WrapAdd(a: int, b: int)
    ensures Wrap32(Wrap32(a) + b) == Wrap32(a + b)
  {
    var q := (a - INT_MIN) / INT_RANGE;
    assert Wrap32(a) == a - q * INT_RANGE;
    assert Wrap32(a) + b - INT_MIN == (a + b - INT_MIN) - q * INT_RANGE;
  }

  /** The code's `int offset` after `offset += read` for each of `sizes`, starting from `offset`. */
  function OffsetFrom(offset: int, sizes: seq<nat>): int
    decreases |sizes|
  {
    if sizes == [] then offset else OffsetFrom(Wrap32(offset + sizes[0]), sizes[1..])
  }

  /** The code's offset is the number of bytes read, wrapped to 32 bits. */
  lemma {:induction false} OffsetFromWraps(offset: int, sizes: seq<nat>)
    requires INT_MIN <= offset < INT_MIN + INT_RANGE
    ensures OffsetFrom(offset, sizes) == Wrap32(offset + Sum(sizes))
    decreases |sizes|
  {
    if sizes != [] {
      OffsetFromWraps(Wrap32(offset + sizes[0]), sizes[1..]);
      WrapAdd(offset + sizes[0], Sum(sizes[1..]));
    } else {
      assert Wrap32(offset) == offset;
    }
  }

  lemma {:induction false} SumRepeat(x: nat, n: nat)
    ensures Sum(Repeat(x, n)) == n * x
  {
    if n > 0 {
      SumRepeat(x, n - 1);
      SumAppend(Repeat(x, n - 1), x);
    }
  }

  /**
   * After 512 full chunks (2 GiB) the code's offset is -2^31 instead of 2^31:
   * the next append is sent at a negative offset, which no upload holds.
   */
  lemma OffsetOverflowsAt2GiB()
    ensures var sizes := Repeat(CHUNK_SIZE, 512);
      && ValidReads(sizes)
      && Sum(sizes) == 0x8000_0000
      && OffsetFrom(0, sizes) == -0x8000_0000
  {
    var sizes := Repeat(CHUNK_SIZE, 512);
    RepeatElements(CHUNK_SIZE, 512);
    SumRepeat(CHUNK_SIZE, 512);
    OffsetFromWraps(0, sizes);
  }


  // ---- the read loop as a function ----

  /** The call that sends `read` bytes at `offset`: a new upload at 0, an append to upload `chunkId` after. */
  function ChunkCall(chunkId: Option<nat>, offset: nat, read: nat): Call
    requires offset == 0 || chunkId.Some?
  {
    if offset == 0 then ChunkedFirstCall(read) else ChunkedAppendCall(chunkId.value, offset, read)
  }

  /** What a round reports before its chunk is sent: IN_PROGRESS at 0 for the first chunk only. */
  function Opening(offset: nat): seq<ProgressEvent> {
    if offset == 0 then [ProgressEvent(InProgress, 0)] else []
  }

  /** The read loop from some read on: whether it reached the end of the stream, the bytes sent, the fault script left, what it did. */
  datatype Run = Run(ok: bool, offset: nat, faults: seq<bool>, calls: seq<Call>, events: seq<ProgressEvent>)

  /** `run` preceded by `calls` and `events`. */
  function Then(calls: seq<Call>, events: seq<ProgressEvent>, run: Run): Run {
    Run(run.ok, run.offset, run.faults, calls + run.calls, events + run.events)
  }

  lemma ThenThen(c1: seq<Call>, e1: seq<ProgressEvent>, c2: seq<Call>, e2: seq<ProgressEvent>, run: Run)
    ensures Then(c1, e1, Then(c2, e2, run)) == Then(c1 + c2, e1 + e2, run)
  {
    assert c1 + (c2 + run.calls) == c1 + c2 + run.calls;
    assert e1 + (e2 + run.events) == e1 + e2 + run.events;
  }

  lemma ThenNothing(run: Run)
    ensures Then([], [], run) == run
  {
    assert [] + run.calls == run.calls;
    assert [] + run.events == run.events;
  }

  /**
   * The loop from read `i` of `sizes`, `offset` bytes already in upload
   * `session` (which the remote holds at that size): each read is sent once,
   * then reported; the first failure ends the loop.
   */
  function Loop(sizes: seq<nat>, i: nat, faults: seq<bool>, session: nat, offset: nat): Run
    decreases |sizes| - i
  {
    if i >= |sizes| then Run(true, offset, faults, [], [])
    else
      var call := ChunkCall(SessionAt(session, offset), offset, sizes[i]);
      if FailsNext(faults) then Run(false, offset, Rest(faults), [call], Opening(offset))
      else Then([call], Opening(offset) + [ProgressEvent(InProgress, offset + sizes[i])],
                Loop(sizes, i + 1, Rest(faults), session, offset + sizes[i]))
  }

  /** One round of the loop, when its chunk gets through. */
  lemma LoopAdvances(total: Run, doneCalls: seq<Call>, doneEvents: seq<ProgressEvent>,
                     sizes: seq<nat>, i: nat, faults: seq<bool>, session: nat, offset: nat)
    requires i < |sizes| && !FailsNext(faults)
    requires total == Then(doneCalls, doneEvents, Loop(sizes, i, faults, session, offset))
    ensures total == Then(doneCalls + [ChunkCall(SessionAt(session, offset), offset, sizes[i])],
                          doneEvents + Opening(offset) + [ProgressEvent(InProgress, offset + sizes[i])],
                          Loop(sizes, i + 1, Rest(faults), session, offset + sizes[i]))
  {
    var call := ChunkCall(SessionAt(session, offset), offset, sizes[i]);
    var shown := Opening(offset) + [ProgressEvent(InProgress, offset + sizes[i])];
    ThenThen(doneCalls, doneEvents, [call], shown, Loop(sizes, i + 1, Rest(faults), session, offset + sizes[i]));
    assert doneEvents + shown == doneEvents + Opening(offset) + [ProgressEvent(InProgress, offset + sizes[i])];
  }

  /** One round of the loop, when its chunk does not get through: the loop ends there. */
  lemma LoopStops(total: Run, doneCalls: seq<Call>, doneEvents: seq<ProgressEvent>,
                  sizes: seq<nat>, i: nat, faults: seq<bool>, session: nat, offset: nat)
    requires i < |sizes| && FailsNext(faults)
    requires total == Then(doneCalls, doneEvents, Loop(sizes, i, faults, session, offset))
    ensures && !total.ok && total.offset == offset && total.faults == Rest(faults)
            && total.calls == doneCalls + [ChunkCall(SessionAt(session, offset), offset, sizes[i])]
            && total.events == doneEvents + Opening(offset)
  {
  }

  /** The loop's bookkeeping after a chunk got through and its progress was reported. */
  lemma LoopStepState(total: Run, log0: seq<Call>, doneCalls: seq<Call>,
                      events0: seq<ProgressEvent>, doneEvents: seq<ProgressEvent>, listener: bool,
                      sizes: seq<nat>, i: nat, faults: seq<bool>, session: nat, offset: nat,
                      log: seq<Call>, events: seq<ProgressEvent>)
    requires i < |sizes| && !FailsNext(faults)
    requires total == Then(doneCalls, doneEvents, Loop(sizes, i, faults, session, offset))
    requires log == log0 + doneCalls + [ChunkCall(SessionAt(session, offset), offset, sizes[i])]
    requires events == events0 + Reported(listener, doneEvents) + Reported(listener, Opening(offset))
                       + Reported(listener, [ProgressEvent(InProgress, offset + sizes[i])])
    ensures var calls := doneCalls + [ChunkCall(SessionAt(session, offset), offset, sizes[i])];
      var shown := doneEvents + Opening(offset) + [ProgressEvent(InProgress, offset + sizes[i])];
      && total == Then(calls, shown, Loop(sizes, i + 1, Rest(faults), session, offset + sizes[i]))
      && log == log0 + calls
      && events == events0 + Reported(listener, shown)
  {
    LoopAdvances(total, doneCalls, doneEvents, sizes, i, faults, session, offset);
    ConcatAssoc(log0, doneCalls, [ChunkCall(SessionAt(session, offset), offset, sizes[i])]);
    ReportedAppend(listener, events0, doneEvents, Opening(offset), [ProgressEvent(InProgress, offset + sizes[i])]);
  }

  /** The loop at the end of the stream: everything was done before. */
  lemma LoopDone(total: Run, doneCalls: seq<Call>, doneEvents: seq<ProgressEvent>,
                 sizes: seq<nat>, faults: seq<bool>, session: nat, offset: nat)
    requires total == Then(doneCalls, doneEvents, Loop(sizes, |sizes|, faults, session, offset))
    ensures total == Run(true, offset, faults, doneCalls, doneEvents)
  {
    assert doneCalls + [] == doneCalls;
    assert doneEvents + [] == doneEvents;
  }

  /**
   * The remote state once the read loop has sent `offset` bytes, with
   * `faults` left of the script: upload s.nextId is open, holding them, once
   * the first chunk got through.
   */
  function AfterReads(s: Store, offset: nat, faults: seq<bool>): Store {
    if offset > 0 then Store(s.entries, s.sessions[s.nextId := offset], s.nextId + 1, faults)
    else Store(s.entries, s.sessions, s.nextId, faults)
  }

  /** The remote holds the upload at the loop's offset, so it takes the next chunk. */
  lemma ReadAccepted(s: Store, offset: nat, st: Store)
    requires st == AfterReads(s, offset, st.faults)
    ensures Accepts(st.sessions, SessionAt(s.nextId, offset), offset)
  {
  }

  /** The remote state after one more chunk of `read` bytes, from `st`, the state at `offset`. */
  lemma AfterReadSent(s: Store, offset: nat, read: nat, st: Store, faults: seq<bool>)
    requires read > 0 && st == AfterReads(s, offset, st.faults)
    ensures offset == 0 ==> AfterReads(s, offset + read, faults) == Store(st.entries, st.sessions[st.nextId := read], st.nextId + 1, faults)
    ensures offset > 0 ==> AfterReads(s, offset + read, faults) == Store(st.entries, st.sessions[s.nextId := offset + read], st.nextId, faults)
    ensures AfterReads(s, offset, faults) == Store(st.entries, st.sessions, st.nextId, faults)
  {
  }

  /** The outcome of a whole request: the result, the remote state after it, and what it did. */
  datatype Upload = Upload(result: Result<FileMetadata, Error>, store: Store, calls: seq<Call>, events: seq<ProgressEvent>)

  /**
   * What `Execute` does from remote state `s`, uploading the stream of
   * `local`, whose reads return `sizes`, to `path` with `mode`; `now` is the
   * remote's clock. The upload is finished even when the stream was empty,
   * with no upload id.
   */
  function UploadSpec(local: LocalStat, path: string, mode: WriteMode, sizes: seq<nat>, s: Store, now: int): Upload {
    var init := [ProgressEvent(Initiation, 0)];
    if !local.present then Upload(Err(LocalIO), s, [], init)
    else
      var run := Loop(sizes, 0, s.faults, s.nextId, 0);
      var t := AfterReads(s, run.offset, run.faults);
      if !run.ok then Upload(Err(Transport), t, run.calls, init + run.events)
      else Finished(path, mode, s, run, now)
  }

  /**
   * What `Execute` does once the read loop `run` reached the end of the
   * stream: the finish of the session into a file at `path`, then COMPLETE.
   */
  function Finished(path: string, mode: WriteMode, s: Store, run: Run, now: int): Upload {
    var init := [ProgressEvent(Initiation, 0)];
    var t := AfterReads(s, run.offset, run.faults);
    var id := SessionAt(s.nextId, run.offset);
    var calls := run.calls + [ChunkedFinishCall(path, mode, id)];
    if FailsNext(t.faults) || id.None? || id.value !in t.sessions || Conflict(t.entries, path, mode) then
      Upload(Err(Transport), t.(faults := Rest(t.faults)), calls, init + run.events)
    else
      var file := File(path, t.sessions[id.value], now, t.nextId);
      Upload(Ok(file), Store(t.entries[path := file], t.sessions - {id.value}, t.nextId + 1, Rest(t.faults)),
             calls, init + run.events + [ProgressEvent(Complete, run.offset)])
  }

  // ---- properties of the read loop ----

  /** Call `k` of the fault script throws. */
  predicate FailsAt(faults: seq<bool>, k: nat) {
    k < |faults| && faults[k]
  }

  lemma FailsAtRest(faults: seq<bool>, k: nat)
    ensures FailsAt(Rest(faults), k) == FailsAt(faults, k + 1)
  {
  }

  /** The call for read `i + k` of a loop started at read `i` with `offset` bytes in upload `session`. */
  function ReadCall(sizes: seq<nat>, i: nat, k: nat, session: nat, offset: nat): Call
    requires i + k < |sizes|
  {
    var at := offset + Sum(sizes[i..i + k]);
    ChunkCall(SessionAt(session, at), at, sizes[i + k])
  }

  lemma ReadCallShift(sizes: seq<nat>, i: nat, k: nat, session: nat, offset: nat)
    requires 0 < k && i + k < |sizes|
    ensures ReadCall(sizes, i, k, session, offset) == ReadCall(sizes, i + 1, k - 1, session, offset + sizes[i])
  {
    assert sizes[i..i + k][0] == sizes[i] && sizes[i..i + k][1..] == sizes[i + 1..i + 1 + (k - 1)];
  }

  /**
   * The loop sends the reads in order, each once, at the offset of the bytes
   * read before it; when it reaches the end of the stream it has sent them
   * all, every byte.
   */
  lemma {:induction false} LoopSends(sizes: seq<nat>, i: nat, faults: seq<bool>, session: nat, offset: nat)
    requires i <= |sizes|
    ensures var run := Loop(sizes, i, faults, session, offset);
      && |run.calls| <= |sizes| - i
      && (forall k | 0 <= k < |run.calls| :: run.calls[k] == ReadCall(sizes, i, k, session, offset))
      && (run.ok ==> |run.calls| == |sizes| - i && run.offset == offset + Sum(sizes[i..]))
    decreases |sizes| - i
  {
    var run := Loop(sizes, i, faults, session, offset);
    if i < |sizes| {
      assert sizes[i..i] == [];
      assert sizes[i..][0] == sizes[i] && sizes[i..][1..] == sizes[i + 1..];
      if !FailsNext(faults) {
        var next := offset + sizes[i];
        LoopSends(sizes, i + 1, Rest(faults), session, next);
        forall k | 0 < k < |run.calls|
          ensures run.calls[k] == ReadCall(sizes, i, k, session, offset)
        {
          ReadCallShift(sizes, i, k, session, offset);
        }
      }
    } else {
      assert sizes[i..] == [];
    }
  }

  /** The loop stops right after the first call that throws, and only then. */
  lemma {:induction false} LoopStopsAtFault(sizes: seq<nat>, i: nat, faults: seq<bool>, session: nat, offset: nat)
    ensures var run := Loop(sizes, i, faults, session, offset);
      && (forall k | 0 <= k < |run.calls| - 1 :: !FailsAt(faults, k))
      && (!run.ok <==> |run.calls| > 0 && FailsAt(faults, |run.calls| - 1))
    decreases |sizes| - i
  {
    var run := Loop(sizes, i, faults, session, offset);
    if i < |sizes| && !FailsNext(faults) {
      LoopStopsAtFault(sizes, i + 1, Rest(faults), session, offset + sizes[i]);
      forall k | 0 < k < |run.calls|
        ensures FailsAt(faults, k) == FailsAt(Rest(faults), k - 1)
      {
        FailsAtRest(faults, k - 1);
      }
    }
  }

  /** The loop from read `i` reports progress between `offset` and the bytes left, and stops within them. */
  ghost predicate LoopReports(sizes: seq<nat>, i: nat, faults: seq<bool>, session: nat, offset: nat)
    requires i <= |sizes|
  {
    var run := Loop(sizes, i, faults, session, offset);
    && Reports(run.events, offset, offset + Sum(sizes[i..]))
    && offset <= run.offset <= offset + Sum(sizes[i..])
  }

  /** The step of `LoopEvents`: one read that gets through, its report, then the rest of the loop. */
  lemma LoopEventsAdvance(sizes: seq<nat>, i: nat, faults: seq<bool>, session: nat, offset: nat)
    requires i < |sizes| && !FailsNext(faults)
    requires LoopReports(sizes, i + 1, Rest(faults), session, offset + sizes[i])
    ensures LoopReports(sizes, i, faults, session, offset)
  {
    var next := offset + sizes[i];
    assert sizes[i..][0] == sizes[i] && sizes[i..][1..] == sizes[i + 1..];
    var rest := Loop(sizes, i + 1, Rest(faults), session, next).events;
    var step := Opening(offset) + [ProgressEvent(InProgress, next)];
    assert Loop(sizes, i, faults, session, offset).events == step + rest;
    ProgressConcat(Opening(offset), [ProgressEvent(InProgress, next)], offset, offset, next);
    AllInConcat(Opening(offset), [ProgressEvent(InProgress, next)], InProgress);
    ProgressConcat(step, rest, offset, next, offset + Sum(sizes[i..]));
    AllInConcat(step, rest, InProgress);
  }

  /** The loop reports only IN_PROGRESS, at offsets that never decrease, from `offset` to the bytes it got through. */
  lemma {:induction false} LoopEvents(sizes: seq<nat>, i: nat, faults: seq<bool>, session: nat, offset: nat)
    requires i <= |sizes|
    ensures LoopReports(sizes, i, faults, session, offset)
    decreases |sizes| - i
  {
    if i < |sizes| {
      if !FailsNext(faults) {
        LoopEvents(sizes, i + 1, Rest(faults), session, offset + sizes[i]);
        LoopEventsAdvance(sizes, i, faults, session, offset);
      } else {
        assert sizes[i..][0] == sizes[i];
      }
    }
  }

  /** Without failures the loop reaches the end of the stream. */
  lemma {:induction false} LoopReliable(sizes: seq<nat>, i: nat, faults: seq<bool>, session: nat, offset: nat)
    requires Reliable(faults)
    ensures var run := Loop(sizes, i, faults, session, offset); run.ok && Reliable(run.faults)
    decreases |sizes| - i
  {
    if i < |sizes| {
      ReliableRest(faults);
      LoopReliable(sizes, i + 1, Rest(faults), session, offset + sizes[i]);
    }
  }

  lemma SumGrows(sizes: seq<nat>, i: nat, j: nat)
    requires i <= j <= |sizes|
    ensures Sum(sizes[..i]) <= Sum(sizes[..j])
    decreases j - i
  {
    if i < j {
      SumGrows(sizes, i, j - 1);
      SumPrefix(sizes, j - 1);
    }
  }

  /** The calls of a loop from the start of the stream that sent every read: the first opens the upload, each later one appends at the bytes before it. */
  lemma ReadCallsInOrder(calls: seq<Call>, sizes: seq<nat>, id: nat)
    requires ValidReads(sizes) && sizes != [] && |calls| == |sizes|
    requires forall k | 0 <= k < |calls| :: calls[k] == ReadCall(sizes, 0, k, id, 0)
    ensures calls[0] == ChunkedFirstCall(sizes[0])
    ensures forall k | 0 < k < |sizes| :: calls[k] == ChunkedAppendCall(id, Sum(sizes[..k]), sizes[k])
  {
    assert sizes[0..0] == [];
    forall k | 0 < k < |sizes|
      ensures calls[k] == ChunkedAppendCall(id, Sum(sizes[..k]), sizes[k])
    {
      SumPrefix(sizes, 0);
      assert sizes[..0] == [] && sizes[0..k] == sizes[..k];
      SumGrows(sizes, 1, k);
    }
  }

  // ---- properties of a whole request ----

  /**
   * With no failures, a stream that delivers bytes becomes a file at `path`
   * holding all of them: one first chunk, an append per later read, then
   * the finish of that upload.
   */
  lemma ReliableUpload(local: LocalStat, path: string, mode: WriteMode, sizes: seq<nat>, s: Store, now: int)
    requires local.present && sizes != [] && ValidReads(sizes)
    requires Reliable(s.faults) && !Conflict(s.entries, path, mode)
    ensures var u := UploadSpec(local, path, mode, sizes, s, now);
      && u.result == Ok(File(path, Sum(sizes), now, s.nextId + 1))
      && |u.calls| == |sizes| + 1
      && u.calls[0] == ChunkedFirstCall(sizes[0])
      && (forall k | 0 < k < |sizes| :: u.calls[k] == ChunkedAppendCall(s.nextId, Sum(sizes[..k]), sizes[k]))
      && u.calls[|sizes|] == ChunkedFinishCall(path, mode, Some(s.nextId))
  {
    var run := Loop(sizes, 0, s.faults, s.nextId, 0);
    LoopSends(sizes, 0, s.faults, s.nextId, 0);
    LoopReliable(sizes, 0, s.faults, s.nextId, 0);
    ReadCallsInOrder(run.calls, sizes, s.nextId);
    SumPositive(sizes);
    var finish := ChunkedFinishCall(path, mode, Some(s.nextId));
    assert UploadSpec(local, path, mode, sizes, s, now).calls == run.calls + [finish];
  }

  lemma SumPositive(sizes: seq<nat>)
    requires ValidReads(sizes) && sizes != []
    ensures Sum(sizes[0..]) == Sum(sizes) > 0
  {
    assert sizes[0..] == sizes;
  }

  /**
   * Nothing is retried: when call `k` is the first to throw, the request
   * fails after exactly k + 1 calls, the last one sending read `k`, and the
   * upload is never finished.
   */
  lemma FirstFailureEnds(local: LocalStat, path: string, mode: WriteMode, sizes: seq<nat>, s: Store, now: int, k: nat)
    requires local.present && k < |sizes|
    requires FailsAt(s.faults, k) && forall j | 0 <= j < k :: !FailsAt(s.faults, j)
    ensures var u := UploadSpec(local, path, mode, sizes, s, now);
      && u.result == Err(Transport)
      && |u.calls| == k + 1
      && u.calls[k] == ChunkCall(SessionAt(s.nextId, Sum(sizes[..k])), Sum(sizes[..k]), sizes[k])
  {
    LoopSends(sizes, 0, s.faults, s.nextId, 0);
    LoopStopsAtFault(sizes, 0, s.faults, s.nextId, 0);
    assert sizes[0..k] == sizes[..k];
  }

  /**
   * An empty stream sends no chunk and still asks the remote to finish an
   * upload, with no id, which the remote refuses.
   */
  lemma EmptyStreamFinishesWithoutId(local: LocalStat, path: string, mode: WriteMode, s: Store, now: int)
    requires local.present
    ensures var u := UploadSpec(local, path, mode, [], s, now);
      && u.calls == [ChunkedFinishCall(path, mode, None)]
      && u.events == [ProgressEvent(Initiation, 0)]
      && u.result == Err(Transport)
  {
  }

  /** The events of a request: INITIATION, those of the read loop, then COMPLETE with the stream's length on success. */
  lemma UploadEvents(local: LocalStat, path: string, mode: WriteMode, sizes: seq<nat>, s: Store, now: int)
    ensures var u := UploadSpec(local, path, mode, sizes, s, now);
      var loop := if local.present then Loop(sizes, 0, s.faults, s.nextId, 0).events else [];
      u.events == [ProgressEvent(Initiation, 0)] + loop
                  + (if u.result.Ok? then [ProgressEvent(Complete, Sum(sizes))] else [])
  {
    if local.present {
      LoopSends(sizes, 0, s.faults, s.nextId, 0);
      assert sizes[0..] == sizes;
    }
  }

  /**
   * Progress starts with INITIATION at 0 and reports offsets that never
   * decrease; COMPLETE, with the bytes read, is the last event exactly when
   * the upload succeeds.
   */
  lemma ProgressOrder(local: LocalStat, path: string, mode: WriteMode, sizes: seq<nat>, s: Store, now: int)
    ensures var u := UploadSpec(local, path, mode, sizes, s, now);
      && |u.events| > 0 && u.events[0] == ProgressEvent(Initiation, 0)
      && NonDecreasing(u.events) && Within(u.events, 0, Sum(sizes))
      && (forall i | 0 < i < |u.events| :: u.events[i].state != Initiation)
      && (forall i | 0 <= i < |u.events| - 1 :: u.events[i].state != Complete)
      && (u.result.Ok? <==> u.events[|u.events| - 1] == ProgressEvent(Complete, Sum(sizes)))
  {
    UploadEvents(local, path, mode, sizes, s, now);
    if local.present {
      LoopEvents(sizes, 0, s.faults, s.nextId, 0);
      assert sizes[0..] == sizes;
      EventsOrder(Loop(sizes, 0, s.faults, s.nextId, 0).events, UploadSpec(local, path, mode, sizes, s, now).result.Ok?, Sum(sizes));
    } else {
      EventsOrder([], false, Sum(sizes));
    }
  }

  // ---- the request ----

  class FileRequest {
    const remote: Remote
    const remoteFilePath: string
    const localFile: LocalStat
    const writeMode: WriteMode
    var progressListener: bool     // a listener is set
    var events: seq<ProgressEvent> // what the listener has received
    var streamOpen: bool           // the local file's input stream is open

    /** Insert: a new file at `remoteFilePath`. */
    constructor Insert(remote: Remote, remoteFilePath: string, localFile: LocalStat)
      ensures this.remote == remote && this.remoteFilePath == remoteFilePath && this.localFile == localFile
      ensures writeMode == Add
      ensures !progressListener && events == [] && !streamOpen
    {
      this.remote := remote;
      this.remoteFilePath := remoteFilePath;
      this.localFile := localFile;
      writeMode := Add;
      progressListener := false;
      events := [];
      streamOpen := false;
    }

    /** Update: overwrite `remoteFile` at its own path, expecting its revision. */
    constructor Update(remote: Remote, remoteFile: FileMetadata, localFile: LocalStat)
      ensures this.remote == remote && remoteFilePath == remoteFile.path && this.localFile == localFile
      ensures writeMode == WriteMode.Update(remoteFile.rev)
      ensures !progressListener && events == [] && !streamOpen
    {
      this.remote := remote;
      remoteFilePath := remoteFile.path;
      this.localFile := localFile;
      writeMode := WriteMode.Update(remoteFile.rev);
      progressListener := false;
      events := [];
      streamOpen := false;
    }

    method SetProgressListener(listener: bool)
      modifies this`progressListener
      ensures progressListener == listener
    {
      progressListener := listener;
    }

    /** Tells the listener, if any, about a state change. */
    method Progress(state: State, uploaded: nat)
      modifies this`events
      ensures events == old(events) + Reported(progressListener, [ProgressEvent(state, uploaded)])
    {
      if progressListener {
        events := events + [ProgressEvent(state, uploaded)];
      }
    }

    /** Sends `read` bytes at `offset`: the first chunk opens an upload, later ones are appended to upload `chunkId`. */
    method SendRead(offset: nat, chunkId: Option<nat>, read: nat) returns (r: Result<nat, Error>)
      requires offset == 0 || chunkId.Some?
      modifies remote`faults, remote`log, remote`sessions, remote`nextId, this`events
      ensures events == old(events) + Reported(progressListener, Opening(offset))
      ensures remote.faults == Rest(old(remote.faults))
      ensures remote.log == old(remote.log) + [ChunkCall(chunkId, offset, read)]
      ensures r.Ok? <==> !FailsNext(old(remote.faults)) && Accepts(old(remote.sessions), chunkId, offset)
      ensures r.Ok? && offset == 0 ==>
                r.value == old(remote.nextId) && remote.nextId == old(remote.nextId) + 1
                && remote.sessions == old(remote.sessions)[old(remote.nextId) := read]
      ensures r.Ok? && offset > 0 ==>
                r.value == chunkId.value && remote.nextId == old(remote.nextId)
                && remote.sessions == old(remote.sessions)[chunkId.value := offset + read]
      ensures r.Err? ==> r.error == Transport && remote.sessions == old(remote.sessions) && remote.nextId == old(remote.nextId)
    {
      if offset == 0 {
        Progress(InProgress, offset);
        r := remote.ChunkedUploadFirst(read);
      } else {
        var appended := remote.ChunkedUploadAppend(chunkId.value, offset, read);
        r := if appended.Ok? then Ok(chunkId.value) else Err(appended.error);
      }
    }

    /**
     * One round of the read loop: the chunk of `read` bytes, then IN_PROGRESS
     * with the new offset. `s` is the remote state before the loop, `total`
     * the whole loop, and `doneCalls` and `doneEvents` what the rounds before
     * this one did; `calls` and `shown` extend them with this round.
     */
    method ReadRound(ghost s: Store, ghost sizes: seq<nat>, ghost i: nat, ghost log0: seq<Call>,
                     ghost events0: seq<ProgressEvent>, ghost total: Run,
                     ghost doneCalls: seq<Call>, ghost doneEvents: seq<ProgressEvent>,
                     read: nat, offset: nat, chunkId: Option<nat>)
      returns (sent: Result<nat, Error>, ghost calls: seq<Call>, ghost shown: seq<ProgressEvent>)
      requires i < |sizes| && read == sizes[i] && read > 0 && chunkId == SessionAt(s.nextId, offset)
      requires total == Then(doneCalls, doneEvents, Loop(sizes, i, remote.faults, s.nextId, offset))
      requires remote.log == log0 + doneCalls
      requires events == events0 + Reported(progressListener, doneEvents)
      requires remote.State() == AfterReads(s, offset, remote.faults)
      modifies remote`faults, remote`log, remote`sessions, remote`nextId, this`events
      ensures sent.Ok? ==>
          && sent.value == s.nextId
          && total == Then(calls, shown, Loop(sizes, i + 1, remote.faults, s.nextId, offset + read))
          && remote.log == log0 + calls
          && events == events0 + Reported(progressListener, shown)
          && remote.State() == AfterReads(s, offset + read, remote.faults)
      ensures sent.Err? ==>
          && sent.error == Transport
          && !total.ok && total.offset == offset && total.faults == remote.faults
          && remote.log == log0 + total.calls
          && events == events0 + Reported(progressListener, total.events)
          && remote.State() == AfterReads(s, offset, remote.faults)
    {
      ghost var faults := remote.faults;
      ghost var before := remote.State();
      ReadAccepted(s, offset, before);
      sent := SendRead(offset, chunkId, read);
      AfterReadSent(s, offset, read, before, remote.faults);
      if sent.Err? {
        LoopStops(total, doneCalls, doneEvents, sizes, i, faults, s.nextId, offset);
        ConcatAssoc(log0, doneCalls, [ChunkCall(chunkId, offset, read)]);
        ReportedAppend2(progressListener, events0, doneEvents, Opening(offset));
        calls := total.calls;
        shown := total.events;
      } else {
        Progress(InProgress, offset + read);
        LoopStepState(total, log0, doneCalls, events0, doneEvents, progressListener,
                      sizes, i, faults, s.nextId, offset, remote.log, events);
        calls := doneCalls + [ChunkCall(chunkId, offset, read)];
        shown := doneEvents + Opening(offset) + [ProgressEvent(InProgress, offset + read)];
      }
    }

    /**
     * The read loop of `execute`: every read of the stream is sent, the first
     * opening the upload; gives the bytes sent and the upload id, null when
     * the stream was empty.
     */
    method SendReads(sizes: seq<nat>) returns (r: Result<(nat, Option<nat>), Error>)
      requires ValidReads(sizes)
      modifies remote`faults, remote`log, remote`sessions, remote`nextId, this`events
      ensures var run := Loop(sizes, 0, old(remote.faults), old(remote.nextId), 0);
        && (r.Ok? <==> run.ok)
        && (r.Ok? ==> r.value == (run.offset, SessionAt(old(remote.nextId), run.offset)))
        && (r.Err? ==> r.error == Transport)
        && remote.State() == AfterReads(old(remote.State()), run.offset, run.faults)
        && remote.log == old(remote.log) + run.calls
        && events == old(events) + Reported(progressListener, run.events)
    {
      ghost var s := remote.State();
      ghost var log0 := remote.log;
      ghost var events0 := events;
      ghost var total := Loop(sizes, 0, s.faults, s.nextId, 0);
      ghost var doneCalls: seq<Call> := [];
      ghost var doneEvents: seq<ProgressEvent> := [];
      var offset: nat := 0;
      var chunkId: Option<nat> := None;
      var i := 0;
      ThenNothing(total);
      r := Ok((offset, chunkId));
      while i < |sizes|
        invariant i <= |sizes|
        invariant total == Then(doneCalls, doneEvents, Loop(sizes, i, remote.faults, s.nextId, offset))
        invariant remote.log == log0 + doneCalls
        invariant events == events0 + Reported(progressListener, doneEvents)
        invariant chunkId == SessionAt(s.nextId, offset)
        invariant remote.State() == AfterReads(s, offset, remote.faults)
        invariant r == Ok((offset, chunkId))
        decreases |sizes| - i
      {
        var read := sizes[i];
        var sent;
        sent, doneCalls, doneEvents := ReadRound(s, sizes, i, log0, events0, total, doneCalls, doneEvents, read, offset, chunkId);
        if sent.Err? {
          r := Err(sent.error);
          break;
        }
        chunkId := Some(sent.value);
        offset := offset + read;
        i := i + 1;
        r := Ok((offset, chunkId));
      }
      if r.Ok? {
        LoopDone(total, doneCalls, doneEvents, sizes, remote.faults, s.nextId, offset);
      }
    }

    /** What this request does from remote state `s` with the stream's reads `sizes` and the remote clock `now`. */
    function Planned(sizes: seq<nat>, s: Store, now: int): Upload {
      UploadSpec(localFile, remoteFilePath, writeMode, sizes, s, now)
    }

    /**
     * The end of `execute` once the stream is exhausted, `offset` bytes having
     * gone into session `upload`: the finish of the session into the file,
     * then COMPLETE when it succeeds.
     */
    method FinishUpload(ghost s: Store, ghost run: Run, offset: nat, upload: Option<nat>) returns (r: Result<FileMetadata, Error>)
      requires remote.Valid() && run.ok && offset == run.offset && upload == SessionAt(s.nextId, run.offset)
      requires remote.State() == AfterReads(s, run.offset, run.faults)
      modifies remote`faults, remote`log, remote`sessions, remote`nextId, remote`entries, this`events
      ensures remote.Valid()
      ensures var u := Finished(remoteFilePath, writeMode, s, run, remote.now);
        r == u.result && remote.State() == u.store
      ensures remote.log == old(remote.log) + [ChunkedFinishCall(remoteFilePath, writeMode, upload)]
      ensures events == old(events) + Reported(progressListener, if r.Ok? then [ProgressEvent(Complete, offset)] else [])
    {
      r := remote.ChunkedUploadFinish(remoteFilePath, writeMode, upload);
      if r.Ok? {
        Progress(Complete, offset);
      }
    }

    /**
     * Uploads the local file, whose reads return `sizes`: INITIATION, the
     * read loop, then the finish of the upload. `streamOpen` only marks where
     * the stream is opened and where `finally` closes it.
     */
    method Execute(sizes: seq<nat>) returns (r: Result<FileMetadata, Error>)
      requires remote.Valid() && !streamOpen && ValidReads(sizes)
      modifies remote`faults, remote`log, remote`sessions, remote`nextId, remote`entries, this`events, this`streamOpen
      ensures remote.Valid() && !streamOpen
      ensures r == Planned(sizes, old(remote.State()), remote.now).result
      ensures remote.State() == Planned(sizes, old(remote.State()), remote.now).store
      ensures remote.log == old(remote.log) + Planned(sizes, old(remote.State()), remote.now).calls
      ensures events == old(events) + Reported(progressListener, Planned(sizes, old(remote.State()), remote.now).events)
    {
      ghost var s := remote.State();
      ghost var events0 := events;
      Progress(Initiation, 0);
      if !localFile.present {
        assert Planned(sizes, s, remote.now) == Upload(Err(LocalIO), s, [], [ProgressEvent(Initiation, 0)]);
        r := Err(LocalIO);
      } else {
        streamOpen := true;
        ghost var run := Loop(sizes, 0, s.faults, s.nextId, 0);
        var sent := SendReads(sizes);
        ReportedAppend2(progressListener, events0, [ProgressEvent(Initiation, 0)], run.events);
        if sent.Err? {
          assert Planned(sizes, s, remote.now)
              == Upload(Err(Transport), AfterReads(s, run.offset, run.faults), run.calls, [ProgressEvent(Initiation, 0)] + run.events);
          r := Err(sent.error);
        } else {
          var offset := sent.value.0;
          r := FinishUpload(s, run, offset, sent.value.1);
          assert Planned(sizes, s, remote.now) == Finished(remoteFilePath, writeMode, s, run, remote.now);
          ConcatAssoc(old(remote.log), run.calls, [ChunkedFinishCall(remoteFilePath, writeMode, sent.value.1)]);
          if r.Ok? {
            ReportedAppend(progressListener, events0, [ProgressEvent(Initiation, 0)], run.events, [ProgressEvent(Complete, offset)]);
          }
        }
        streamOpen := false;
      }
    }
  }
}
