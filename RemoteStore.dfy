/**
 * The Dropbox client the upload engine talks to, as an abstract remote store.
 *
 * The store maps display paths to file or folder metadata and keeps the
 * resumable upload sessions that are still open. Transport failures are
 * scripted: `faults` holds one flag per remote call still to come (true: the
 * call throws a DbxException and has no effect; an exhausted script means
 * every further call goes through). Every call is appended to `log`, so the
 * exact calls the engine makes can be stated.
 */
module RemoteStore {
  import opened Wrappers

  /** Metadata of a remote entry: sizes in bytes, times in milliseconds since the epoch. */
  datatype Entry =
    | File(path: string, size: nat, clientModified: int, rev: nat)
    | Folder(path: string)

  /** The metadata classes of the SDK: a file is never a folder and vice versa. */
  type FileMetadata = e: Entry | e.File? witness File("", 0, 0, 0)
  type FolderMetadata = e: Entry | e.Folder? witness Folder("")

  /** What the engine reads of a local file: `exists()` (as `present`), `length()` and `lastModified()`. */
  datatype LocalStat = LocalStat(present: bool, length: nat, lastModified: int)

  /** What `java.io.File` reports for a path that names no file. */
  const Missing := LocalStat(false, 0, 0)

  /** Write mode of a finished upload: add a new file, or overwrite the given revision. */
  datatype WriteMode = Add | Update(rev: nat)

  datatype CommitInfo = CommitInfo(path: string, mode: WriteMode, clientModified: int)

  /** The exceptions of the upload path. */
  datatype Error =
    | Transport                     // DbxException thrown by the remote client
    | LocalIO                       // IOException opening the local file
    | NoChunkFound                  // DropDriveException "No chunk found"
    | IllegalArgument               // a null argument rejected by an assertion
    | NoFileName                    // a local path without a file name component
    | FileHandle(cause: Error)      // FileHandleException wrapping its cause
    | DirectoryHandle(cause: Error) // DirectoryHandleException wrapping its cause

  /** One request sent to the remote. */
  datatype Call =
    | GetMetadataCall(path: string)
    | CreateFolderCall(path: string)
    | StartCall(length: nat)
    | AppendCall(session: nat, offset: nat, length: nat)
    | FinishCall(session: nat, offset: nat, commit: CommitInfo)
    | ChunkedFirstCall(length: nat)
    | ChunkedAppendCall(upload: nat, offset: nat, length: nat)
    | ChunkedFinishCall(path: string, mode: WriteMode, uploadId: Option<nat>)

  /** The part of the remote the engine's calls change, as one value. */
  datatype Store = Store(entries: map<string, Entry>, sessions: map<nat, nat>, nextId: nat, faults: seq<bool>)

  function Lookup(entries: map<string, Entry>, path: string): (r: Option<Entry>)
    ensures r.Some? <==> path in entries
    ensures r.Some? ==> r.value == entries[path]
  {
    if path in entries then Some(entries[path]) else None
  }

  /** Every entry is stored under its own path. */
  ghost predicate Consistent(entries: map<string, Entry>) {
    forall p | p in entries :: entries[p].path == p
  }

  /** Finishing an upload at `path` with `mode` is refused by the remote. */
  predicate Conflict(entries: map<string, Entry>, path: string, mode: WriteMode) {
    match mode
    case Add => path in entries
    case Update(rev) => path in entries && !(entries[path].File? && entries[path].rev == rev)
  }

  /**
   * The remote takes the bytes sent at `offset` unless the transport fails:
   * a new session always, an append only at the size its session holds.
   */
  predicate Accepts(sessions: map<nat, nat>, chunkId: Option<nat>, offset: nat) {
    offset == 0 || (chunkId.Some? && chunkId.value in sessions && sessions[chunkId.value] == offset)
  }

  /** The session id a client holds once it has sent `offset` bytes: none before the first chunk. */
  function SessionAt(session: nat, offset: nat): Option<nat> {
    if offset == 0 then None else Some(session)
  }

  // ---- the fault script ----

  /** The next remote call throws. */
  predicate FailsNext(faults: seq<bool>) {
    faults != [] && faults[0]
  }

  /** The script after one call. */
  function Rest(faults: seq<bool>): (r: seq<bool>)
    ensures |r| == if faults == [] then 0 else |faults| - 1
  {
    if faults == [] then [] else faults[1..]
  }

  /** The script after `n` calls. */
  function Skip(faults: seq<bool>, n: nat): seq<bool> {
    if n <= |faults| then faults[n..] else []
  }

  /** No remote call will throw. */
  predicate Reliable(faults: seq<bool>) {
    forall i | 0 <= i < |faults| :: !faults[i]
  }

  /** How many of the next calls throw, one after the other. */
  function LeadingFaults(faults: seq<bool>): (k: nat)
    ensures k <= |faults|
    ensures k < |faults| ==> !faults[k]
  {
    if FailsNext(faults) then 1 + LeadingFaults(faults[1..]) else 0
  }

  /** The calls counted by `LeadingFaults` all throw. */
  lemma {:induction false} LeadingFaultsFail(faults: seq<bool>)
    ensures forall i | 0 <= i < LeadingFaults(faults) :: faults[i]
  {
    if FailsNext(faults) {
      LeadingFaultsFail(faults[1..]);
      forall i | 0 < i < LeadingFaults(faults)
        ensures faults[i]
      {
        assert faults[i] == faults[1..][i - 1];
      }
    }
  }

  lemma ReliableRest(faults: seq<bool>)
    requires Reliable(faults)
    ensures !FailsNext(faults) && Reliable(Rest(faults)) && LeadingFaults(faults) == 0
  {
  }

  /** After `n` failed calls, the next one fails exactly when fewer than `LeadingFaults` have failed. */
  lemma SkipFaults(faults: seq<bool>, n: nat)
    requires n <= LeadingFaults(faults)
    ensures FailsNext(Skip(faults, n)) <==> n < LeadingFaults(faults)
    ensures Rest(Skip(faults, n)) == Skip(faults, n + 1)
  {
    LeadingFaultsFail(faults);
  }

  lemma SkipRest(faults: seq<bool>, n: nat)
    ensures Rest(Skip(faults, n)) == Skip(faults, n + 1)
  {
  }

  class Remote {
    var entries: map<string, Entry>
    var sessions: map<nat, nat>   // open upload session -> bytes received
    var nextId: nat               // next session id and next revision
    var now: int                  // the remote's clock, for uploads that carry no client time
    var faults: seq<bool>
    var log: seq<Call>

    ghost predicate Valid()
      reads this
    {
      Consistent(entries)
    }

    function State(): Store
      reads this
    {
      Store(entries, sessions, nextId, faults)
    }

    constructor (entries: map<string, Entry>, faults: seq<bool>, now: int)
      requires Consistent(entries)
      ensures Valid()
      ensures this.entries == entries && this.faults == faults && this.now == now
      ensures sessions == map[] && nextId == 0 && log == []
    {
      this.entries := entries;
      this.faults := faults;
      this.now := now;
      sessions := map[];
      nextId := 0;
      log := [];
    }

    /** Sends one call: records it and consumes one step of the fault script. */
    method Send(call: Call) returns (failed: bool)
      modifies this`faults, this`log
      ensures failed == FailsNext(old(faults))
      ensures faults == Rest(old(faults)) && log == old(log) + [call]
    {
      failed := FailsNext(faults);
      faults := Rest(faults);
      log := log + [call];
    }

    method GetMetadata(path: string) returns (r: Result<Option<Entry>, Error>)
      modifies this`faults, this`log
      ensures faults == Rest(old(faults)) && log == old(log) + [GetMetadataCall(path)]
      ensures r == if FailsNext(old(faults)) then Err(Transport) else Ok(Lookup(entries, path))
    {
      var failed := Send(GetMetadataCall(path));
      r := if failed then Err(Transport) else Ok(Lookup(entries, path));
    }

    /**
     * Creating a folder where any entry already exists creates nothing and
     * answers null; otherwise the new folder is added and returned.
     */
    method CreateFolder(path: string) returns (r: Result<Option<FolderMetadata>, Error>)
      requires Valid()
      modifies this`faults, this`log, this`entries
      ensures Valid()
      ensures faults == Rest(old(faults)) && log == old(log) + [CreateFolderCall(path)]
      ensures r.Err? <==> FailsNext(old(faults))
      ensures r.Err? ==> r.error == Transport && entries == old(entries)
      ensures r.Ok? && path in old(entries) ==> r.value.None? && entries == old(entries)
      ensures r.Ok? && path !in old(entries) ==> r.value == Some(Folder(path)) && entries == old(entries)[path := Folder(path)]
    {
      var failed := Send(CreateFolderCall(path));
      if failed {
        r := Err(Transport);
      } else if path in entries {
        r := Ok(None);
      } else {
        entries := entries[path := Folder(path)];
        r := Ok(Some(Folder(path)));
      }
    }

    /** Opens an upload session holding the first `length` bytes. */
    method StartSession(length: nat) returns (r: Result<nat, Error>)
      modifies this`faults, this`log, this`sessions, this`nextId
      ensures faults == Rest(old(faults)) && log == old(log) + [StartCall(length)]
      ensures r.Ok? <==> !FailsNext(old(faults))
      ensures r.Ok? ==> r.value == old(nextId) && nextId == old(nextId) + 1
                        && sessions == old(sessions)[old(nextId) := length]
      ensures r.Err? ==> r.error == Transport && sessions == old(sessions) && nextId == old(nextId)
    {
      var failed := Send(StartCall(length));
      if failed {
        r := Err(Transport);
      } else {
        r := Ok(nextId);
        sessions := sessions[nextId := length];
        nextId := nextId + 1;
      }
    }

    /** Appends `length` bytes to a session; the offset must be the bytes it already holds. */
    method AppendSession(session: nat, offset: nat, length: nat) returns (r: Result<(), Error>)
      modifies this`faults, this`log, this`sessions
      ensures faults == Rest(old(faults)) && log == old(log) + [AppendCall(session, offset, length)]
      ensures r.Ok? <==> !FailsNext(old(faults)) && session in old(sessions) && old(sessions)[session] == offset
      ensures r.Ok? ==> sessions == old(sessions)[session := offset + length]
      ensures r.Err? ==> r.error == Transport && sessions == old(sessions)
    {
      var failed := Send(AppendCall(session, offset, length));
      if failed || session !in sessions || sessions[session] != offset {
        r := Err(Transport);
      } else {
        sessions := sessions[session := offset + length];
        r := Ok(());
      }
    }

    /** Closes a session holding `offset` bytes into a file at the commit's path. */
    method FinishSession(session: nat, offset: nat, commit: CommitInfo) returns (r: Result<FileMetadata, Error>)
      requires Valid()
      modifies this`faults, this`log, this`sessions, this`nextId, this`entries
      ensures Valid()
      ensures faults == Rest(old(faults)) && log == old(log) + [FinishCall(session, offset, commit)]
      ensures r.Ok? <==> && !FailsNext(old(faults))
                         && session in old(sessions) && old(sessions)[session] == offset
                         && !Conflict(old(entries), commit.path, commit.mode)
      ensures r.Ok? ==> && r.value == File(commit.path, offset, commit.clientModified, old(nextId))
                        && entries == old(entries)[commit.path := r.value]
                        && sessions == old(sessions) - {session} && nextId == old(nextId) + 1
      ensures r.Err? ==> && r.error == Transport && entries == old(entries)
                         && sessions == old(sessions) && nextId == old(nextId)
    {
      var failed := Send(FinishCall(session, offset, commit));
      if failed || session !in sessions || sessions[session] != offset || Conflict(entries, commit.path, commit.mode) {
        r := Err(Transport);
      } else {
        var file := File(commit.path, offset, commit.clientModified, nextId);
        entries := entries[commit.path := file];
        sessions := sessions - {session};
        nextId := nextId + 1;
        r := Ok(file);
      }
    }

    // ---- the chunked-upload calls of the first API version ----

    method ChunkedUploadFirst(length: nat) returns (r: Result<nat, Error>)
      modifies this`faults, this`log, this`sessions, this`nextId
      ensures faults == Rest(old(faults)) && log == old(log) + [ChunkedFirstCall(length)]
      ensures r.Ok? <==> !FailsNext(old(faults))
      ensures r.Ok? ==> r.value == old(nextId) && nextId == old(nextId) + 1
                        && sessions == old(sessions)[old(nextId) := length]
      ensures r.Err? ==> r.error == Transport && sessions == old(sessions) && nextId == old(nextId)
    {
      var failed := Send(ChunkedFirstCall(length));
      if failed {
        r := Err(Transport);
      } else {
        r := Ok(nextId);
        sessions := sessions[nextId := length];
        nextId := nextId + 1;
      }
    }

    method ChunkedUploadAppend(upload: nat, offset: nat, length: nat) returns (r: Result<(), Error>)
      modifies this`faults, this`log, this`sessions
      ensures faults == Rest(old(faults)) && log == old(log) + [ChunkedAppendCall(upload, offset, length)]
      ensures r.Ok? <==> !FailsNext(old(faults)) && upload in old(sessions) && old(sessions)[upload] == offset
      ensures r.Ok? ==> sessions == old(sessions)[upload := offset + length]
      ensures r.Err? ==> r.error == Transport && sessions == old(sessions)
    {
      var failed := Send(ChunkedAppendCall(upload, offset, length));
      if failed || upload !in sessions || sessions[upload] != offset {
        r := Err(Transport);
      } else {
        sessions := sessions[upload := offset + length];
        r := Ok(());
      }
    }

    /**
     * Closes an upload into a file at `path`. No client time travels with it,
     * so the file carries the remote's clock. A missing upload id is refused.
     */
    method ChunkedUploadFinish(path: string, mode: WriteMode, upload: Option<nat>) returns (r: Result<FileMetadata, Error>)
      requires Valid()
      modifies this`faults, this`log, this`sessions, this`nextId, this`entries
      ensures Valid()
      ensures faults == Rest(old(faults)) && log == old(log) + [ChunkedFinishCall(path, mode, upload)]
      ensures r.Ok? <==> && !FailsNext(old(faults)) && upload.Some? && upload.value in old(sessions)
                         && !Conflict(old(entries), path, mode)
      ensures r.Ok? ==> && r.value == File(path, old(sessions)[upload.value], now, old(nextId))
                        && entries == old(entries)[path := r.value]
                        && sessions == old(sessions) - {upload.value} && nextId == old(nextId) + 1
      ensures r.Err? ==> && r.error == Transport && entries == old(entries)
                         && sessions == old(sessions) && nextId == old(nextId)
    {
      var failed := Send(ChunkedFinishCall(path, mode, upload));
      if failed || upload.None? || upload.value !in sessions || Conflict(entries, path, mode) {
        r := Err(Transport);
      } else {
        var file := File(path, sessions[upload.value], now, nextId);
        entries := entries[path := file];
        sessions := sessions - {upload.value};
        nextId := nextId + 1;
        r := Ok(file);
      }
    }
  }
}
