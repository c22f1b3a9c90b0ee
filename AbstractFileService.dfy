/**
 * Path building and typed lookups shared by the directory and file services.
 * A lookup that finds the wrong kind of entry reports "not found"; a lookup
 * the remote fails is a FileHandleException, never "not found".
 */
module AbstractFileService {
  import opened Wrappers
  import opened RemoteStore

  /** The remote path of `filename` under `parent`; the root is the null parent. */
  function GetPath(filename: Option<string>, parent: Option<FolderMetadata>): (r: Result<string, Error>)
    ensures filename.None? <==> r == Err(IllegalArgument)
    ensures filename.Some? && parent.None? ==> r == Ok("/" + filename.value)
    ensures filename.Some? && parent.Some? ==> r == Ok(parent.value.path + "/" + filename.value)
  {
    if filename.None? then Err(IllegalArgument)
    else if parent.None? then Ok("/" + filename.value)
    else Ok(parent.value.path + "/" + filename.value)
  }

  /** The path a lookup of `filename` under `parent` asks for. */
  function PathOf(filename: string, parent: Option<FolderMetadata>): string {
    GetPath(Some(filename), parent).value
  }

  /** What `findFolder` returns when the remote answers. */
  function FolderAt(entries: map<string, Entry>, filename: string, parent: Option<FolderMetadata>): (r: Option<FolderMetadata>)
    ensures r.Some? <==> PathOf(filename, parent) in entries && entries[PathOf(filename, parent)].Folder?
    ensures r.Some? ==> r.value == entries[PathOf(filename, parent)]
  {
    match Lookup(entries, PathOf(filename, parent))
    case Some(e) => if e.Folder? then Some(e) else None
    case None => None
  }

  /** What `findFile` returns when the remote answers. */
  function FileAt(entries: map<string, Entry>, filename: string, parent: Option<FolderMetadata>): (r: Option<FileMetadata>)
    ensures r.Some? <==> PathOf(filename, parent) in entries && entries[PathOf(filename, parent)].File?
    ensures r.Some? ==> r.value == entries[PathOf(filename, parent)]
  {
    match Lookup(entries, PathOf(filename, parent))
    case Some(e) => if e.File? then Some(e) else None
    case None => None
  }

  /** In a consistent store, what a lookup finds sits at the path it asked for. */
  lemma FoundAtItsPath(entries: map<string, Entry>, filename: string, parent: Option<FolderMetadata>)
    requires Consistent(entries)
    ensures FolderAt(entries, filename, parent).Some? ==> FolderAt(entries, filename, parent).value.path == PathOf(filename, parent)
    ensures FileAt(entries, filename, parent).Some? ==> FileAt(entries, filename, parent).value.path == PathOf(filename, parent)
  {
  }

  method FindEntry(remote: Remote, filename: string, parent: Option<FolderMetadata>) returns (r: Result<Option<Entry>, Error>)
    modifies remote`faults, remote`log
    ensures remote.faults == Rest(old(remote.faults))
    ensures remote.log == old(remote.log) + [GetMetadataCall(PathOf(filename, parent))]
    ensures r == if FailsNext(old(remote.faults)) then Err(FileHandle(Transport))
                 else Ok(Lookup(remote.entries, PathOf(filename, parent)))
  {
    var found := remote.GetMetadata(PathOf(filename, parent));
    if found.Err? {
      r := Err(FileHandle(found.error));
    } else {
      r := Ok(found.value);
    }
  }

  method FindFolder(remote: Remote, filename: string, parent: Option<FolderMetadata>) returns (r: Result<Option<FolderMetadata>, Error>)
    modifies remote`faults, remote`log
    ensures remote.faults == Rest(old(remote.faults))
    ensures remote.log == old(remote.log) + [GetMetadataCall(PathOf(filename, parent))]
    ensures r == if FailsNext(old(remote.faults)) then Err(FileHandle(Transport))
                 else Ok(FolderAt(remote.entries, filename, parent))
  {
    var found := FindEntry(remote, filename, parent);
    if found.Err? {
      r := Err(found.error);
    } else if found.value.Some? && found.value.value.Folder? {
      r := Ok(Some(found.value.value));
    } else {
      r := Ok(None);
    }
  }

  method FindFile(remote: Remote, filename: string, parent: Option<FolderMetadata>) returns (r: Result<Option<FileMetadata>, Error>)
    modifies remote`faults, remote`log
    ensures remote.faults == Rest(old(remote.faults))
    ensures remote.log == old(remote.log) + [GetMetadataCall(PathOf(filename, parent))]
    ensures r == if FailsNext(old(remote.faults)) then Err(FileHandle(Transport))
                 else Ok(FileAt(remote.entries, filename, parent))
  {
    var found := FindEntry(remote, filename, parent);
    if found.Err? {
      r := Err(found.error);
    } else if found.value.Some? && found.value.value.File? {
      r := Ok(Some(found.value.value));
    } else {
      r := Ok(None);
    }
  }
}
