# dropdrive upload engine, modelled in Dafny

This project models the upload engine of `dropdrive-core`, a client that
uploads local files to Dropbox. It covers five parts:

- **The change detector** (`EqualUtils`). It decides whether a local file
  differs from its remote copy, by size and by modification time truncated to
  whole seconds.
- **Path building and typed lookups** (`AbstractFileService`).
- **The directory resolver** (`DirectoryService`). It splits a pathname at its
  first separator. It finds directories, or finds and creates them, segment
  by segment.
- **The chunked upload request.** There are two versions:
  - the current `request/FileRequest`, with per-chunk retries and an upload
    session (`FileRequest`);
  - the older `request/impl/FileRequest`, which reads until end of file with
    no retry (`LegacyFileRequest`).
- **The orchestrator** (`FileService`). It chooses insert, update or skip. It
  re-runs a failed request as a whole, and it uploads batches in which a
  failing file is dropped.

The Dropbox client is modelled as a `Remote` object (`RemoteStore`). It has:

- a map from display paths to file and folder metadata;
- the upload sessions still open;
- an id counter;
- a call log;
- a fault script. The script has one flag per coming remote call, and `true`
  means the call throws a `DbxException` and has no effect.

With a deterministic script, retry counts can be stated exactly. With a call
log, the exact requests the engine sends can be stated. Java `null` is
`Option.None`, and a thrown exception is `Result.Err`.

Creating a folder where an entry already exists answers null, as the Dropbox
client does. `findOrCreateDirectory` does not check for that null and goes on
from the root. So with a file at `/a`, resolving `a/b` creates and returns
`/b`. The model keeps this behaviour. Its "lands at `parent/a/b`" lemmas hold
when no file stands along the path (`NoFileAlong`).

Each stateful operation is specified as a pure function of the remote state
before the call. These functions are `Resolve` and `FindDir` for the directory
service, `UploadSpec` for each request version, and `Retried`,
`UploadFileSpec`, `Batch` and `BatchTo` for the service. The method that
changes the `Remote` is proved to do exactly what its function says. The
properties the code promises are then proved as lemmas about these functions.

Paths below are relative to `dropdrive-core/src/main/java/net/czpilar/dropdrive/core/` in the prose. The table gives full paths.

## Model

| member | source | states |
|---|---|---|
| EqualUtils.ToSeconds | dropdrive-core/src/main/java/net/czpilar/dropdrive/core/util/EqualUtils.java:40-42 | the result is the number of whole seconds in the time, truncated toward zero as Java's `long` division does: for non-negative times s*1000 <= t < s*1000+1000, for negative ones s*1000-1000 < t <= s*1000 |
| EqualUtils.Equals | dropdrive-core/src/main/java/net/czpilar/dropdrive/core/util/EqualUtils.java:22-32 | a null remote file, a null local path or a local file that does not exist is never equal; equality implies equal sizes |
| EqualUtils.NotEquals | dropdrive-core/src/main/java/net/czpilar/dropdrive/core/util/EqualUtils.java:51-53 | an upload is needed exactly when there is no remote file or no path, the local file is missing, the sizes differ, or the remote time is in an earlier whole second than the local time |
| EqualUtils.ToSecondsMonotone | dropdrive-core/src/main/java/net/czpilar/dropdrive/core/util/EqualUtils.java:40-42 | truncation to seconds never reverses the order of two times |
| EqualUtils.NotOlderIsEqual | dropdrive-core/src/main/java/net/czpilar/dropdrive/core/util/EqualUtils.java:27-28 | with equal sizes, a remote time equal to or later than the local time is equal, and not "not equal" |
| EqualUtils.SameSecondIsEqual | dropdrive-core/src/main/java/net/czpilar/dropdrive/core/util/EqualUtils.java:40-42 | two times in the same whole second compare as equal, whichever is larger by milliseconds |
| EqualUtils.OneSecondOlderIsNotEqual | dropdrive-core/src/main/java/net/czpilar/dropdrive/core/util/EqualUtils.java:27-28 | with equal sizes, a remote one second older than the local file is not equal, except for local times strictly between 0 and 1000, where truncation toward zero puts both in second 0 |
| EqualUtils.EqualsIffNotBeforeLocalSecond | dropdrive-core/src/main/java/net/czpilar/dropdrive/core/util/EqualUtils.java:27-28 | an independent definition for non-negative times: with equal sizes, equal holds iff the remote time is no earlier than the start of the local time's second |
| AbstractFileService.GetPath | dropdrive-core/src/main/java/net/czpilar/dropdrive/core/service/impl/AbstractFileService.java:19-29 | a null file name is rejected; under the root the path is "/" + name, under a parent it is parent.path + "/" + name |
| AbstractFileService.FolderAt | dropdrive-core/src/main/java/net/czpilar/dropdrive/core/service/impl/AbstractFileService.java:31-34 | a folder is returned exactly when a folder is stored at the looked-up path, and it is that entry; an absent entry or a file gives null |
| AbstractFileService.FileAt | dropdrive-core/src/main/java/net/czpilar/dropdrive/core/service/impl/AbstractFileService.java:36-39 | a file is returned exactly when a file is stored at the looked-up path, and it is that entry; an absent entry or a folder gives null |
| AbstractFileService.FoundAtItsPath | dropdrive-core/src/main/java/net/czpilar/dropdrive/core/service/impl/AbstractFileService.java:44 | in a store where every entry sits under its own path, what a lookup finds has exactly the path `getPath(filename, parent)` |
| AbstractFileService.FindEntry | dropdrive-core/src/main/java/net/czpilar/dropdrive/core/service/impl/AbstractFileService.java:41-50 | exactly one metadata call, at `getPath(filename, parent)`; a remote failure becomes a FileHandleException and is never read as "not found" |
| AbstractFileService.FindFolder | dropdrive-core/src/main/java/net/czpilar/dropdrive/core/service/impl/AbstractFileService.java:31-34 | one lookup at the child path; the result is the folder there, or null, or a FileHandleException when the remote fails |
| AbstractFileService.FindFile | dropdrive-core/src/main/java/net/czpilar/dropdrive/core/service/impl/AbstractFileService.java:36-39 | one lookup at the child path; the result is the file there, or null, or a FileHandleException when the remote fails |
| DirectoryService.NormalizePathname | dropdrive-core/src/main/java/net/czpilar/dropdrive/core/service/impl/DirectoryService.java:22-24 | null stays null and the length is kept |
| DirectoryService.NormalizeOnlyBackslashes | dropdrive-core/src/main/java/net/czpilar/dropdrive/core/service/impl/DirectoryService.java:22-24 | every backslash becomes `/`, every other character is unchanged, and no backslash is left |
| DirectoryService.SubstringBefore | dropdrive-core/src/main/java/net/czpilar/dropdrive/core/service/impl/DirectoryService.java:26-28 | the head is never longer than the text |
| DirectoryService.SubstringAfter | dropdrive-core/src/main/java/net/czpilar/dropdrive/core/service/impl/DirectoryService.java:30-32 | the tail is strictly shorter than the text, or empty |
| DirectoryService.SplitAtFirstSeparator | dropdrive-core/src/main/java/net/czpilar/dropdrive/core/service/impl/DirectoryService.java:26-32 | the head holds no separator; with a separator, head + "/" + tail gives the text back; without one, the head is the whole text and the tail is empty |
| DirectoryService.TrimToNull | dropdrive-core/src/main/java/net/czpilar/dropdrive/core/service/impl/DirectoryService.java:26-28 | a non-null result is non-empty and no longer than its input |
| DirectoryService.TrimToNullOfBlank | dropdrive-core/src/main/java/net/czpilar/dropdrive/core/service/impl/DirectoryService.java:26-28 | null comes back exactly for text made only of blanks (characters up to the space) |
| DirectoryService.TrimToNullCutsBlanks | dropdrive-core/src/main/java/net/czpilar/dropdrive/core/service/impl/DirectoryService.java:26-28 | a non-null result is a contiguous slice of the text, and only blanks lie before and after it |
| DirectoryService.TrimToNullEnds | dropdrive-core/src/main/java/net/czpilar/dropdrive/core/service/impl/DirectoryService.java:26-28 | a non-null result starts and ends with a non-blank character |
| DirectoryService.CurrentDirname | dropdrive-core/src/main/java/net/czpilar/dropdrive/core/service/impl/DirectoryService.java:26-28 | a null pathname has no head |
| DirectoryService.NextPathname | dropdrive-core/src/main/java/net/czpilar/dropdrive/core/service/impl/DirectoryService.java:30-32 | a tail is strictly shorter than its pathname, so the descent ends |
| DirectoryService.HeadIsDirectoryName | dropdrive-core/src/main/java/net/czpilar/dropdrive/core/service/impl/DirectoryService.java:26-28 | a head is a one-level name: non-empty, with no separator and no blank at either end |
| DirectoryService.SegmentsAreDirectoryNames | dropdrive-core/src/main/java/net/czpilar/dropdrive/core/service/impl/DirectoryService.java:77-90 | every directory name the descent passes through is a one-level name |
| DirectoryService.ResolveFollowsSegments | dropdrive-core/src/main/java/net/czpilar/dropdrive/core/service/impl/DirectoryService.java:77-90 | `findOrCreateDirectory` is the same as finding or creating the pathname's segments one by one, each under the previous result |
| DirectoryService.FindDirFixedFollowsSegments | dropdrive-core/src/main/java/net/czpilar/dropdrive/core/service/impl/DirectoryService.java:57-70 | the corrected `findDirectory` is the same as looking the segments up one by one and stopping at the first miss |
| DirectoryService.FindDirFixedAgrees | dropdrive-core/src/main/java/net/czpilar/dropdrive/core/service/impl/DirectoryService.java:57-70 | with a parent folder, or a pathname that starts with a name, the code as written and the corrected search give the same outcome |
| DirectoryService.FindOrCreateOneAdds | dropdrive-core/src/main/java/net/czpilar/dropdrive/core/service/impl/DirectoryService.java:34-50 | one level keeps the store consistent and adds only folders; a folder returned is stored at the child path; null comes back only when a file holds that path, and then nothing changes; a failure changes nothing and is a File- or DirectoryHandleException |
| DirectoryService.ResolveAllGrows | dropdrive-core/src/main/java/net/czpilar/dropdrive/core/service/impl/DirectoryService.java:77-90 | resolving any segment list keeps the store consistent and only adds folders |
| DirectoryService.ResolveAllReaches | dropdrive-core/src/main/java/net/czpilar/dropdrive/core/service/impl/DirectoryService.java:82-89 | on success with segments, a folder returned is the entry stored at its own path; no segments returns the parent; when no file lies along the descent, the result is non-null and its path is the parent's path extended by every segment |
| DirectoryService.ResolveAllIdempotent | dropdrive-core/src/main/java/net/czpilar/dropdrive/core/service/impl/DirectoryService.java:44-50 | after a success, resolving the same segments against any grown store with no failures returns the same result and changes nothing; it creates nothing when no file lay along the descent |
| DirectoryService.ResolveAllCreatesOnlyMissing | dropdrive-core/src/main/java/net/czpilar/dropdrive/core/service/impl/DirectoryService.java:44-50 | every folder creation is at a path that held no folder when resolution began |
| DirectoryService.FindAllStopsAtFirstMiss | dropdrive-core/src/main/java/net/czpilar/dropdrive/core/service/impl/DirectoryService.java:57-70 | the segment-wise search only looks up and never changes the store; every lookup but the last found a folder, and a last miss gives null |
| DirectoryService.FindOrCreateOneOnlyLooks | dropdrive-core/src/main/java/net/czpilar/dropdrive/core/service/impl/DirectoryService.java:44-50 | a level that creates nothing is exactly its lookup, and that lookup found a folder |
| DirectoryService.FindAllMatchesResolveAll | dropdrive-core/src/main/java/net/czpilar/dropdrive/core/service/impl/DirectoryService.java:57-90 | when resolution succeeds without creating anything, the search over the same segments returns the same result |
| DirectoryService.ResolveNullPathname | dropdrive-core/src/main/java/net/czpilar/dropdrive/core/service/impl/DirectoryService.java:77-90 | `findOrCreateDirectory(null, parent)` returns `parent`, makes no remote call and changes nothing |
| DirectoryService.ResolveGrows | dropdrive-core/src/main/java/net/czpilar/dropdrive/core/service/impl/DirectoryService.java:77-90 | resolution keeps the store consistent and only ever adds folders |
| DirectoryService.ResolveReachesTarget | dropdrive-core/src/main/java/net/czpilar/dropdrive/core/service/impl/DirectoryService.java:77-90 | a folder returned for a pathname naming a directory is the one stored at its own path; the parent comes back when the pathname names no directory; with no file along the way, the result for `a/b/c` under `parent` is the folder at `parent/a/b/c` |
| DirectoryService.ResolveIdempotent | dropdrive-core/src/main/java/net/czpilar/dropdrive/core/service/impl/DirectoryService.java:44-50 | after resolution succeeds, a second call (on that store or a grown one, with no failures) returns the same result and changes no entry; it creates nothing when no file stood in the way |
| DirectoryService.ResolveCreatesOnlyMissing | dropdrive-core/src/main/java/net/czpilar/dropdrive/core/service/impl/DirectoryService.java:44-50 | a folder is created only where `findFolder` would have returned null when resolution began |
| DirectoryService.FindDirBlankHeadFromRoot | dropdrive-core/src/main/java/net/czpilar/dropdrive/core/service/impl/DirectoryService.java:57-70 | from the root, a pathname with a blank head gives null at once, with no remote call |
| DirectoryService.FindDirStopsAtFirstMiss | dropdrive-core/src/main/java/net/czpilar/dropdrive/core/service/impl/DirectoryService.java:57-70 | `findDirectory` only looks up and never changes the store; every lookup but the last found a folder, and a last lookup that missed makes the result null |
| DirectoryService.FindDirFixedAfterResolve | dropdrive-core/src/main/java/net/czpilar/dropdrive/core/service/impl/DirectoryService.java:57-70 | after a successful resolution with no file along the path, the corrected `findDirectory` of the same pathname finds the same directory |
| DirectoryService.ResolveFallsBackToRoot | dropdrive-core/src/main/java/net/czpilar/dropdrive/core/service/impl/DirectoryService.java:34-50 | with a file at `/a`, `findOrCreateDirectory("a/b")` from the root gets null for `/a`, goes on from the root, and creates and returns `/b`; a later lookup of `a/b` finds nothing |
| DirectoryService.FindDirMissesLeadingSeparator | dropdrive-core/src/main/java/net/czpilar/dropdrive/core/service/impl/DirectoryService.java:52-70 | with folder `/a` stored, `findDirectory("/a")` from the root returns null without a lookup, while `findOrCreateDirectory("/a")` and the corrected search return `/a` |
| DirectoryService.CreateOneDirectory | dropdrive-core/src/main/java/net/czpilar/dropdrive/core/service/impl/DirectoryService.java:34-42 | one create call at the child path; the new folder is added and returned; a path already taken gives null and changes nothing; a failed call is a DirectoryHandleException that changes nothing |
| DirectoryService.FindOrCreateOneDirectory | dropdrive-core/src/main/java/net/czpilar/dropdrive/core/service/impl/DirectoryService.java:44-50 | result, entries, fault script and calls are those of the one-level specification: creates only when the lookup finds no folder |
| DirectoryService.FindOrCreateDirectory | dropdrive-core/src/main/java/net/czpilar/dropdrive/core/service/impl/DirectoryService.java:77-90 | result, entries, fault script and calls are exactly those of `Resolve`, about which the resolver lemmas above hold |
| DirectoryService.FindOrCreateDirectoryFromRoot | dropdrive-core/src/main/java/net/czpilar/dropdrive/core/service/impl/DirectoryService.java:72-75 | the one-argument overload is `Resolve` from the root |
| DirectoryService.FindDirectory | dropdrive-core/src/main/java/net/czpilar/dropdrive/core/service/impl/DirectoryService.java:57-70 | result and calls are exactly those of `FindDir`, and no entry is touched |
| DirectoryService.FindDirectoryFromRoot | dropdrive-core/src/main/java/net/czpilar/dropdrive/core/service/impl/DirectoryService.java:52-55 | the one-argument overload is `FindDir` from the root |
| FileRequest.ChunkLength | dropdrive-core/src/main/java/net/czpilar/dropdrive/core/request/FileRequest.java:64-68 | a chunk is 1 to CHUNK_SIZE bytes, never runs past the file, and is short only when it reaches the end of the file |
| FileRequest.Attempts | dropdrive-core/src/main/java/net/czpilar/dropdrive/core/request/FileRequest.java:91-104 | a chunk that fails k <= 5 times is attempted k+1 times; otherwise it is attempted 6 times |
| FileRequest.ChunkLoopReliable | dropdrive-core/src/main/java/net/czpilar/dropdrive/core/request/FileRequest.java:64-72 | without failures the loop reaches the end of the file and sends each chunk exactly once |
| FileRequest.ChunkCallsAt | dropdrive-core/src/main/java/net/czpilar/dropdrive/core/request/FileRequest.java:64-72 | without failures there are ceil(size / 4194304) chunk calls; call i is at offset i*CHUNK_SIZE with length min(CHUNK_SIZE, size - offset) |
| FileRequest.ChunkLoopUploaded | dropdrive-core/src/main/java/net/czpilar/dropdrive/core/request/FileRequest.java:64-72 | the loop stops within the file, and at `offset == size` whenever every chunk got through |
| FileRequest.ChunkLoopEvents | dropdrive-core/src/main/java/net/czpilar/dropdrive/core/request/FileRequest.java:64-72 | every event of the chunk loop is IN_PROGRESS, the offsets never decrease, and all lie between the start offset and the file size |
| FileRequest.ReliableUpload | dropdrive-core/src/main/java/net/czpilar/dropdrive/core/request/FileRequest.java:55-89 | without failures or conflict, a non-empty file becomes a file at the target with its size and time: one session start, an append per later chunk at its offset, then the finish of that session |
| FileRequest.EmptyFileSendsNothing | dropdrive-core/src/main/java/net/czpilar/dropdrive/core/request/FileRequest.java:74-76 | a zero-length file sends no call and fails with "No chunk found", whatever the remote does |
| FileRequest.MissingFileSendsNothing | dropdrive-core/src/main/java/net/czpilar/dropdrive/core/request/FileRequest.java:60 | a local file that cannot be opened fails before any remote call |
| FileRequest.UploadEvents | dropdrive-core/src/main/java/net/czpilar/dropdrive/core/request/FileRequest.java:55-89 | the events are INITIATION at 0, then the chunk loop's events, then COMPLETE with the size exactly when the upload succeeds |
| FileRequest.ProgressOrder | dropdrive-core/src/main/java/net/czpilar/dropdrive/core/request/FileRequest.java:55-89 | progress starts with INITIATION at 0, offsets never decrease and stay within the size; COMPLETE is the last event exactly on success, and appears nowhere else |
| FileRequest.FileRequest.Insert | dropdrive-core/src/main/java/net/czpilar/dropdrive/core/request/FileRequest.java:29-31 | `createInsert` targets the given path with mode ADD, with no listener |
| FileRequest.FileRequest.Update | dropdrive-core/src/main/java/net/czpilar/dropdrive/core/request/FileRequest.java:33-35 | `createUpdate` targets the remote file's own path with `update(rev)` |
| FileRequest.FileRequest.SetProgressListener | dropdrive-core/src/main/java/net/czpilar/dropdrive/core/request/FileRequest.java:51-53 | sets or clears the listener |
| FileRequest.FileRequest.Progress | dropdrive-core/src/main/java/net/czpilar/dropdrive/core/request/FileRequest.java:120-124 | the event is delivered when a listener is set, and dropped otherwise |
| FileRequest.FileRequest.UploadChunk | dropdrive-core/src/main/java/net/czpilar/dropdrive/core/request/FileRequest.java:106-118 | at offset 0 it reports IN_PROGRESS 0, starts a session and returns its id; later it appends at the offset to the given session and returns that id; one call either way, which succeeds exactly when the remote takes it |
| FileRequest.FileRequest.UploadChunkWithRetries | dropdrive-core/src/main/java/net/czpilar/dropdrive/core/request/FileRequest.java:91-104 | sends the same chunk call as often as the retry rule says, stopping at the first success; after the sixth failure the error is rethrown and no session changed |
| FileRequest.FileRequest.Attempt | dropdrive-core/src/main/java/net/czpilar/dropdrive/core/request/FileRequest.java:93-102 | one more try after `retry` failures: one more identical call, which succeeds exactly when it is the first the fault script lets through |
| FileRequest.FileRequest.SendChunk | dropdrive-core/src/main/java/net/czpilar/dropdrive/core/request/FileRequest.java:64-72 | one round of the loop keeps the remote, the log and the events equal to the loop specification up to the new offset |
| FileRequest.FileRequest.UploadChunks | dropdrive-core/src/main/java/net/czpilar/dropdrive/core/request/FileRequest.java:60-73 | succeeds exactly when the loop specification gets through, and then returns the session id (null for an empty file); remote state, calls and events are those of the specification |
| FileRequest.FileRequest.FinishUpload | dropdrive-core/src/main/java/net/czpilar/dropdrive/core/request/FileRequest.java:78-87 | one finish call with cursor (session, size) and a commit carrying the path, the write mode and the local modification time; COMPLETE with the size only after it succeeds |
| FileRequest.FileRequest.Execute | dropdrive-core/src/main/java/net/czpilar/dropdrive/core/request/FileRequest.java:55-89 | result, remote state, calls and events are exactly `UploadSpec` of the state before, about which the lemmas above hold |
| ProgressListener.EventsOrder | dropdrive-core/src/main/java/net/czpilar/dropdrive/core/request/FileRequest.java:55-89 | INITIATION, then orderly progress reports, then COMPLETE on success, form a sequence that starts at 0, never decreases and ends with COMPLETE exactly on success |
| FileService.FileNameRoot | dropdrive-core/src/main/java/net/czpilar/dropdrive/core/service/impl/FileService.java:101-102 | a path has no file name exactly when it is non-empty and made of separators only |
| FileService.FileNameIsLastComponent | dropdrive-core/src/main/java/net/czpilar/dropdrive/core/service/impl/FileService.java:101-102 | the file name is the last component: it holds no separator, only separators follow it, and a separator or the start precedes it |
| FileService.MaxAttempts | dropdrive-core/src/main/java/net/czpilar/dropdrive/core/service/impl/FileService.java:83-96 | a request is run at least once and more than `retries` times at most |
| FileService.LeadingTransportFail | dropdrive-core/src/main/java/net/czpilar/dropdrive/core/service/impl/FileService.java:83-96 | the counted leading runs all throw a DbxException and the next one does not |
| FileService.RetriedFollowsRuns | dropdrive-core/src/main/java/net/czpilar/dropdrive/core/service/impl/FileService.java:83-96 | `execute` against the runs it is allowed: the attempts, the result and the calls are those of the leading failed runs plus one |
| FileService.RetriedAttempts | dropdrive-core/src/main/java/net/czpilar/dropdrive/core/service/impl/FileService.java:83-96 | a request whose first k runs throw is run k+1 times when k <= retries and returns that run's result; otherwise the exception is rethrown after retries+1 runs (4 when retries = 3); only a DbxException is retried |
| FileService.UploadWrites | dropdrive-core/src/main/java/net/czpilar/dropdrive/core/service/impl/FileService.java:67-81 | a run of an insert or update request writes only the local file, with its size and time, at the request's path; a failed run writes nothing |
| FileService.RetriedWrites | dropdrive-core/src/main/java/net/czpilar/dropdrive/core/service/impl/FileService.java:83-96 | across all its runs `execute` changes only the entry at the target path, to the file it returns; a failure leaves the entries unchanged |
| FileService.UploadLooksUpName | dropdrive-core/src/main/java/net/czpilar/dropdrive/core/service/impl/FileService.java:98-118 | the first call is the lookup of the last component of the local path under the parent; a path with no file name makes no call and fails with a FileHandleException around that cause; a failed lookup fails with a FileHandleException around the lookup's own FileHandleException; every failure is a FileHandleException |
| FileService.UploadDecides | dropdrive-core/src/main/java/net/czpilar/dropdrive/core/service/impl/FileService.java:101-117 | no remote file gives an insert at the looked-up path; a different one gives an update of its revision at its own path; either returns the file the retried request returned, or fails with a FileHandleException around the request's failure, leaving the request's remote state and calls after the lookup; an equal one is returned with nothing sent after the lookup |
| FileService.UploadLeavesEqualFile | dropdrive-core/src/main/java/net/czpilar/dropdrive/core/service/impl/FileService.java:98-118 | after a successful `uploadFile`, the remote holds the returned file at the looked-up path, it equals the local file, and no other entry changed |
| FileService.UploadTwiceSkips | dropdrive-core/src/main/java/net/czpilar/dropdrive/core/service/impl/FileService.java:98-118 | uploading the same unchanged file again after a success is a skip: one lookup, the same file, no entry changed |
| FileService.Chain | dropdrive-core/src/main/java/net/czpilar/dropdrive/core/service/impl/FileService.java:139-146 | a batch has exactly one outcome per file name |
| FileService.Successes | dropdrive-core/src/main/java/net/czpilar/dropdrive/core/service/impl/FileService.java:139-146 | the returned list is never longer than the input |
| FileService.ChainAt | dropdrive-core/src/main/java/net/czpilar/dropdrive/core/service/impl/FileService.java:139-146 | file i of a batch is uploaded from the remote state that file i-1 left, whatever happened to it |
| FileService.SuccessesConcat | dropdrive-core/src/main/java/net/czpilar/dropdrive/core/service/impl/FileService.java:139-146 | the successes of a split batch are those of the first part followed by those of the rest, so input order is kept |
| FileService.AllSucceedIffFull | dropdrive-core/src/main/java/net/czpilar/dropdrive/core/service/impl/FileService.java:139-146 | a batch returns as many files as it was given exactly when no file failed |
| FileService.BatchAdvance | dropdrive-core/src/main/java/net/czpilar/dropdrive/core/service/impl/FileService.java:140-146 | one more file extends the outcomes, the successes (by its file on success only), the calls and the final state by its own outcome |
| FileService.EmptyBatch | dropdrive-core/src/main/java/net/czpilar/dropdrive/core/service/impl/FileService.java:136-149 | a null or empty list returns an empty list, makes no call and changes nothing |
| FileService.BatchToFailsOnlyOnDirectory | dropdrive-core/src/main/java/net/czpilar/dropdrive/core/service/impl/FileService.java:130-134 | the batch with a pathname fails exactly when the directory cannot be resolved, and then no file is tried; otherwise it returns at most as many files as given |
| FileService.UploadFileToLooksInDirectory | dropdrive-core/src/main/java/net/czpilar/dropdrive/core/service/impl/FileService.java:61-65 | the directory is resolved first, and the file is then looked up inside the folder it resolved to |
| FileService.FileService.constructor | dropdrive-core/src/main/java/net/czpilar/dropdrive/core/service/impl/FileService.java:37-39 | keeps the configured number of retries |
| FileService.FileService.GetUploadDir | dropdrive-core/src/main/java/net/czpilar/dropdrive/core/service/impl/FileService.java:54-59 | a given directory name is returned unchanged; only a null one falls back to the credential's upload directory |
| FileService.FileService.Execute | dropdrive-core/src/main/java/net/czpilar/dropdrive/core/service/impl/FileService.java:83-96 | result, remote state and calls are exactly `Retried` from the state before, about which RetriedAttempts holds |
| FileService.FileService.InsertFile | dropdrive-core/src/main/java/net/czpilar/dropdrive/core/service/impl/FileService.java:67-73 | runs, with retries, an ADD request at the child path of the file name |
| FileService.FileService.UpdateFile | dropdrive-core/src/main/java/net/czpilar/dropdrive/core/service/impl/FileService.java:75-81 | runs, with retries, an update of the current file's revision at its own path |
| FileService.FileService.UploadFile | dropdrive-core/src/main/java/net/czpilar/dropdrive/core/service/impl/FileService.java:98-118 | result, remote state and calls are exactly `UploadFileSpec`, about which the uploadFile lemmas above hold |
| FileService.FileService.UploadFound | dropdrive-core/src/main/java/net/czpilar/dropdrive/core/service/impl/FileService.java:104-117 | once the lookup answered: insert, update or skip, with a request failure wrapped as a FileHandleException |
| FileService.FileService.UploadFileToRoot | dropdrive-core/src/main/java/net/czpilar/dropdrive/core/service/impl/FileService.java:120-123 | `uploadFile(filename)` is `uploadFile` with a null parent |
| FileService.FileService.UploadFileInto | dropdrive-core/src/main/java/net/czpilar/dropdrive/core/service/impl/FileService.java:61-65 | resolves (finds or creates) `getUploadDir(pathname)` from the root once, then uploads into it; a resolution failure is returned as is |
| FileService.FileService.UploadFiles | dropdrive-core/src/main/java/net/czpilar/dropdrive/core/service/impl/FileService.java:136-149 | returns the successes of the batch, in input order, with failures dropped; remote state and calls are those of the batch |
| FileService.FileService.UploadFilesToRoot | dropdrive-core/src/main/java/net/czpilar/dropdrive/core/service/impl/FileService.java:125-128 | `uploadFiles(filenames)` is the batch with a null parent |
| FileService.FileService.UploadFilesInto | dropdrive-core/src/main/java/net/czpilar/dropdrive/core/service/impl/FileService.java:130-134 | resolves `getUploadDir(pathname)` once, outside the per-file isolation, then runs the batch in it |
| LegacyFileRequest.Wrap32 | dropdrive-core/src/main/java/net/czpilar/dropdrive/core/request/impl/FileRequest.java:55 | the result lies in Java's `int` range |
| LegacyFileRequest.WrapAdd | dropdrive-core/src/main/java/net/czpilar/dropdrive/core/request/impl/FileRequest.java:72 | wrapping after every addition is the same as wrapping once at the end |
| LegacyFileRequest.OffsetFromWraps | dropdrive-core/src/main/java/net/czpilar/dropdrive/core/request/impl/FileRequest.java:72 | the code's `int offset` is the number of bytes read, wrapped to 32 bits |
| LegacyFileRequest.OffsetOverflowsAt2GiB | dropdrive-core/src/main/java/net/czpilar/dropdrive/core/request/impl/FileRequest.java:72 | after 512 full chunks (2 GiB) the code's offset is -2^31, not 2^31 |
| LegacyFileRequest.LoopSends | dropdrive-core/src/main/java/net/czpilar/dropdrive/core/request/impl/FileRequest.java:65-74 | the reads are sent in order, each at most once, at the offset of the bytes read before it; on reaching end of file all were sent and the offset equals the total bytes read |
| LegacyFileRequest.LoopStopsAtFault | dropdrive-core/src/main/java/net/czpilar/dropdrive/core/request/impl/FileRequest.java:59-80 | no retry: the loop stops right after the first call that throws, and only then |
| LegacyFileRequest.LoopEvents | dropdrive-core/src/main/java/net/czpilar/dropdrive/core/request/impl/FileRequest.java:65-74 | the loop reports only IN_PROGRESS, at offsets that never decrease, between the start and the bytes left |
| LegacyFileRequest.LoopReliable | dropdrive-core/src/main/java/net/czpilar/dropdrive/core/request/impl/FileRequest.java:65-74 | without failures the loop reaches the end of the stream |
| LegacyFileRequest.ReadCallsInOrder | dropdrive-core/src/main/java/net/czpilar/dropdrive/core/request/impl/FileRequest.java:65-71 | the first read goes to `chunkedUploadFirst`, and every later read to `chunkedUploadAppend` at the bytes read before it |
| LegacyFileRequest.ReliableUpload | dropdrive-core/src/main/java/net/czpilar/dropdrive/core/request/impl/FileRequest.java:54-81 | without failures, a non-empty stream becomes a file at the target holding every byte: a first chunk, an append per later read, then the finish of that upload |
| LegacyFileRequest.FirstFailureEnds | dropdrive-core/src/main/java/net/czpilar/dropdrive/core/request/impl/FileRequest.java:59-80 | when call k is the first to throw, the request fails after exactly k+1 calls, the last one sending read k, and the upload is never finished |
| LegacyFileRequest.EmptyStreamFinishesWithoutId | dropdrive-core/src/main/java/net/czpilar/dropdrive/core/request/impl/FileRequest.java:63-76 | an empty stream sends no chunk and calls finish with a null upload id; nothing is thrown before that call |
| LegacyFileRequest.UploadEvents | dropdrive-core/src/main/java/net/czpilar/dropdrive/core/request/impl/FileRequest.java:54-81 | the events are INITIATION at 0, the read loop's events, then COMPLETE with the bytes read exactly on success |
| LegacyFileRequest.ProgressOrder | dropdrive-core/src/main/java/net/czpilar/dropdrive/core/request/impl/FileRequest.java:54-81 | INITIATION at 0 comes first, offsets never decrease, and COMPLETE with the bytes read is the last event exactly on success |
| LegacyFileRequest.FileRequest.Insert | dropdrive-core/src/main/java/net/czpilar/dropdrive/core/request/impl/FileRequest.java:23-27 | `Insert` uses `add()` on the given path |
| LegacyFileRequest.FileRequest.Update | dropdrive-core/src/main/java/net/czpilar/dropdrive/core/request/impl/FileRequest.java:29-33 | `Update` uses `update(rev)` on the remote file's path |
| LegacyFileRequest.FileRequest.SetProgressListener | dropdrive-core/src/main/java/net/czpilar/dropdrive/core/request/impl/FileRequest.java:49-51 | sets or clears the listener |
| LegacyFileRequest.FileRequest.Progress | dropdrive-core/src/main/java/net/czpilar/dropdrive/core/request/impl/FileRequest.java:83-87 | the event is delivered when a listener is set, and dropped otherwise |
| LegacyFileRequest.FileRequest.SendRead | dropdrive-core/src/main/java/net/czpilar/dropdrive/core/request/impl/FileRequest.java:66-71 | at offset 0 it reports IN_PROGRESS 0 and opens an upload; later it appends at the offset; one call, which succeeds exactly when the remote takes it |
| LegacyFileRequest.FileRequest.ReadRound | dropdrive-core/src/main/java/net/czpilar/dropdrive/core/request/impl/FileRequest.java:65-74 | one round of the loop keeps the remote, the log and the events equal to the loop specification up to the new offset |
| LegacyFileRequest.FileRequest.SendReads | dropdrive-core/src/main/java/net/czpilar/dropdrive/core/request/impl/FileRequest.java:63-74 | succeeds exactly when the loop specification reaches end of file, and then gives the bytes read and the upload id (null for an empty stream) |
| LegacyFileRequest.FileRequest.FinishUpload | dropdrive-core/src/main/java/net/czpilar/dropdrive/core/request/impl/FileRequest.java:75-77 | one finish call with the path, the write mode and the upload id; COMPLETE with the bytes read only after it succeeds |
| LegacyFileRequest.FileRequest.Execute | dropdrive-core/src/main/java/net/czpilar/dropdrive/core/request/impl/FileRequest.java:54-81 | result, remote state, calls and events are exactly `UploadSpec` of the state before, about which the lemmas above hold |

## Left out

- The Dropbox client is replaced by the `Remote` store. Its methods state what the engine relies on: a lookup, a folder creation that answers null where an entry exists, session start and append at the held size, and a finish refused on conflict. The SDK's own behaviour is not part of this model.
- Byte contents of files and streams are not modelled, only lengths. So the reuse, on a retry, of a stream that already advanced is not captured.
- IOExceptions while reading the stream are not modelled. Only the failure to open the local file (`LocalIO`) is.
- The older request's stream is given as the sizes its reads return. Every read returns 1 to CHUNK_SIZE bytes.
- LegacyFileRequest.Execute: counts bytes with an unbounded offset instead of the code's 32-bit `int`. The wrap-around is stated and shown separately (see Findings).
- The older API's reaction to a finish with a null upload id is unknown. The model refuses it as a transport error.
- The progress listener is modelled as "set or not" plus the list of events it receives. `FileUploadProgressListener` only logs and computes a floating-point percentage.
- A null name inside a file-name list is not modelled. Lists hold strings, and the list itself may be null.
- `Paths.get(...).getFileName()` is modelled for `/`-separated paths. Windows path syntax and `InvalidPathException` are left out.
- Credentials, Spring wiring, the client lookup, the CLI and authorization are not part of this model. The credential's upload directory is a field of the service.
- The model follows the code where `AbstractFileServiceTest` expects `/filename` for `getPath("/filename", null)`: the code gives `//filename`.
- `uploadFiles(filenames, pathname)` resolves the directory outside the per-file `try`, so a directory failure fails the whole batch. The model follows the code (`BatchTo`).
- Closing the stream in `finally` is not modelled: streams hold no resource here. Each request's `streamOpen` field only marks where the code closes the stream.
- DirectoryService.FindDirFixedAfterResolve: holds only when no file lies along the resolved path. With a file in the way, resolution goes on from the root (`ResolveFallsBackToRoot`), and a later search of the same pathname does not find the result.
- Logging is left out everywhere.

## Findings

| source | as written | input that shows it | evidently intended | confidence | as-written member | corrected member |
|---|---|---|---|---|---|---|
| dropdrive-core/src/main/java/net/czpilar/dropdrive/core/service/impl/DirectoryService.java:57-70 | a null current directory ends the descent, whether it means "not found" or "the root" | folder `/a` stored, `findDirectory("/a")` from the root: returns null without a lookup, while `findOrCreateDirectory("/a")` returns `/a` | only a lookup that misses ends the descent, so `findDirectory` finds what `findOrCreateDirectory` resolved | not executed | DirectoryService.FindDirMissesLeadingSeparator | DirectoryService.FindDirFixedAfterResolve |
| dropdrive-core/src/main/java/net/czpilar/dropdrive/core/request/impl/FileRequest.java:55-72 | the offset is a 32-bit `int` | a stream of 512 full 4 MiB reads: after 2 GiB the offset is -2^31, so the next append is sent at a negative offset | the offset counts every byte read (a `long`) | not executed | LegacyFileRequest.OffsetOverflowsAt2GiB | LegacyFileRequest.LoopSends |

The `FindDirectory` methods model `findDirectory` as written. `FindDirFixed`
is the corrected search, and it is proved to agree with the code whenever a
parent folder is given or the pathname starts with a name.
