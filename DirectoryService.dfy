/**
 * The directory resolver: a pathname such as `a/b/c` is split at the first
 * separator into a head directory name and a tail pathname, the head is
 * looked up (and, for `FindOrCreateDirectory`, created when missing) under
 * the current parent, and the tail is resolved under the result.
 *
 * The remote side is specified by pure functions over the store's entries
 * and fault script that return an `Outcome`: the result, the entries and
 * script left behind, and the calls made. The methods, which change the
 * `Remote` object as the service does, are proved to follow them.
 */
module DirectoryService {
  import opened Wrappers
  import opened RemoteStore
  import opened AbstractFileService

  const DIRECTORY_SEPARATOR: char := '/'

  // ---- pathname segments ----

  /** The length of a pathname, zero for null: what the descent consumes. */
  function Len(pathname: Option<string>): nat {
    if pathname.None? then 0 else |pathname.value|
  }

  function Replace(s: string): (r: string)
    ensures |r| == |s|
  {
    seq(|s|, i requires 0 <= i < |s| => if s[i] == '\\' then DIRECTORY_SEPARATOR else s[i])
  }

  /** Every backslash becomes a separator; a null pathname stays null. */
  function NormalizePathname(pathname: Option<string>): (r: Option<string>)
    ensures r.Some? <==> pathname.Some?
    ensures Len(r) == Len(pathname)
  {
    if pathname.None? then None else Some(Replace(pathname.value))
  }

  /** The position of the first `c` in `s`, or `|s|` when there is none. */
  function IndexOf(s: string, c: char): (k: nat)
    ensures k <= |s|
  {
    if s == [] || s[0] == c then 0 else 1 + IndexOf(s[1..], c)
  }

  /** `StringUtils.substringBefore`: the text before the first separator, the whole text when there is none. */
  function SubstringBefore(s: string): (r: string)
    ensures |r| <= |s|
  {
    s[..IndexOf(s, DIRECTORY_SEPARATOR)]
  }

  /** `StringUtils.substringAfter`: the text after the first separator, empty when there is none. */
  function SubstringAfter(s: string): (r: string)
    ensures |r| < |s| || r == []
  {
    var k := IndexOf(s, DIRECTORY_SEPARATOR);
    if k < |s| then s[k + 1..] else []
  }

  /** What `String.trim` removes: characters up to and including the space. */
  predicate IsBlank(c: char) {
    c <= ' '
  }

  function LeadingBlanks(s: string): (k: nat)
    ensures k <= |s|
  {
    if s != [] && IsBlank(s[0]) then 1 + LeadingBlanks(s[1..]) else 0
  }

  function TrailingBlanks(s: string): (k: nat)
    ensures k <= |s|
  {
    if s != [] && IsBlank(s[|s| - 1]) then 1 + TrailingBlanks(s[..|s| - 1]) else 0
  }

  /** `StringUtils.trimToNull`: text with its blank ends removed, or null when nothing is left. */
  function TrimToNull(s: string): (r: Option<string>)
    ensures r.Some? ==> 0 < |r.value| <= |s|
  {
    var k := LeadingBlanks(s);
    var j := |s| - TrailingBlanks(s[k..]);
    if k == j then None else Some(s[k..j])
  }

  /** The first directory name of a pathname, or null when it is blank. */
  function CurrentDirname(pathname: Option<string>): (r: Option<string>)
    ensures pathname.None? ==> r.None?
  {
    if pathname.None? then None else TrimToNull(SubstringBefore(pathname.value))
  }

  /** The pathname after the first separator, or null when there is none or it is blank. */
  function NextPathname(pathname: Option<string>): (r: Option<string>)
    ensures r.Some? ==> Len(r) < Len(pathname)
  {
    if pathname.None? then None else TrimToNull(SubstringAfter(pathname.value))
  }

  /** The directory names a pathname descends through, in order. */
  function Segments(pathname: Option<string>): seq<string>
    decreases Len(pathname)
  {
    var p := NormalizePathname(pathname);
    var head := CurrentDirname(p);
    var tail := NextPathname(p);
    (if head.Some? then [head.value] else []) + (if tail.Some? then Segments(tail) else [])
  }

  /** Normalisation turns every backslash into a separator and changes no other character. */
  lemma NormalizeOnlyBackslashes(pathname: string)
    ensures var r := NormalizePathname(Some(pathname)).value;
      && |r| == |pathname|
      && (forall i | 0 <= i < |r| :: r[i] == if pathname[i] == '\\' then DIRECTORY_SEPARATOR else pathname[i])
      && '\\' !in r
  {
  }

  lemma {:induction false} IndexOfIsFirst(s: string, c: char)
    ensures forall i | 0 <= i < IndexOf(s, c) :: s[i] != c
    ensures IndexOf(s, c) < |s| <==> c in s
    ensures IndexOf(s, c) < |s| ==> s[IndexOf(s, c)] == c
  {
    if s != [] && s[0] != c {
      IndexOfIsFirst(s[1..], c);
      assert s == [s[0]] + s[1..];
    }
  }

  /** Head and tail split a text at its first separator, and joining them gives the text back. */
  lemma SplitAtFirstSeparator(s: string)
    ensures DIRECTORY_SEPARATOR !in SubstringBefore(s)
    ensures DIRECTORY_SEPARATOR in s ==> s == SubstringBefore(s) + [DIRECTORY_SEPARATOR] + SubstringAfter(s)
    ensures DIRECTORY_SEPARATOR !in s ==> SubstringBefore(s) == s && SubstringAfter(s) == []
  {
    IndexOfIsFirst(s, DIRECTORY_SEPARATOR);
    var k := IndexOf(s, DIRECTORY_SEPARATOR);
    if k < |s| {
      assert s == s[..k] + [s[k]] + s[k + 1..];
    }
  }

  lemma {:induction false} LeadingBlanksAreBlank(s: string)
    ensures forall i | 0 <= i < LeadingBlanks(s) :: IsBlank(s[i])
    ensures LeadingBlanks(s) < |s| ==> !IsBlank(s[LeadingBlanks(s)])
  {
    if s != [] && IsBlank(s[0]) {
      LeadingBlanksAreBlank(s[1..]);
    }
  }

  lemma {:induction false} TrailingBlanksAreBlank(s: string)
    ensures forall i | |s| - TrailingBlanks(s) <= i < |s| :: IsBlank(s[i])
    ensures TrailingBlanks(s) < |s| ==> !IsBlank(s[|s| - 1 - TrailingBlanks(s)])
  {
    if s != [] && IsBlank(s[|s| - 1]) {
      TrailingBlanksAreBlank(s[..|s| - 1]);
    }
  }

  /** `trimToNull` gives null exactly for blank text. */
  lemma TrimToNullOfBlank(s: string)
    ensures TrimToNull(s).None? <==> forall i | 0 <= i < |s| :: IsBlank(s[i])
  {
    LeadingBlanksAreBlank(s);
    TrailingBlanksAreBlank(s[LeadingBlanks(s)..]);
  }

  /** Otherwise it cuts only blanks away, on either side. */
  lemma TrimToNullCutsBlanks(s: string)
    requires TrimToNull(s).Some?
    ensures var r, k := TrimToNull(s).value, LeadingBlanks(s);
      && k + |r| <= |s| && r == s[k..k + |r|]
      && (forall i | 0 <= i < k :: IsBlank(s[i]))
      && (forall i | k + |r| <= i < |s| :: IsBlank(s[i]))
  {
    var k := LeadingBlanks(s);
    var t := s[k..];
    LeadingBlanksAreBlank(s);
    TrailingBlanksAreBlank(t);
    forall i | |s| - TrailingBlanks(t) <= i < |s| ensures IsBlank(s[i]) {
      assert s[i] == t[i - k];
    }
  }

  /** What is left starts and ends with a non-blank character. */
  lemma TrimToNullEnds(s: string)
    requires TrimToNull(s).Some?
    ensures var r := TrimToNull(s).value; !IsBlank(r[0]) && !IsBlank(r[|r| - 1])
  {
    var k := LeadingBlanks(s);
    var t := s[k..];
    LeadingBlanksAreBlank(s);
    TrailingBlanksAreBlank(t);
    assert s[|s| - TrailingBlanks(t) - 1] == t[|t| - 1 - TrailingBlanks(t)];
  }

  /** A name one directory level deep: non-empty, with no separator and no blank at either end. */
  predicate IsDirectoryName(name: string) {
    name != [] && DIRECTORY_SEPARATOR !in name && !IsBlank(name[0]) && !IsBlank(name[|name| - 1])
  }

  /** The head of a pathname is a directory name. */
  lemma HeadIsDirectoryName(pathname: Option<string>)
    requires CurrentDirname(pathname).Some?
    ensures IsDirectoryName(CurrentDirname(pathname).value)
  {
    var before := SubstringBefore(pathname.value);
    SplitAtFirstSeparator(pathname.value);
    TrimToNullCutsBlanks(before);
    TrimToNullEnds(before);
  }

  /** Every segment is a directory name. */
  lemma {:induction false} SegmentsAreDirectoryNames(pathname: Option<string>)
    ensures forall i | 0 <= i < |Segments(pathname)| :: IsDirectoryName(Segments(pathname)[i])
    decreases Len(pathname)
  {
    var p := NormalizePathname(pathname);
    var head := CurrentDirname(p);
    var tail := NextPathname(p);
    var first := if head.Some? then [head.value] else [];
    var rest := if tail.Some? then Segments(tail) else [];
    if head.Some? {
      HeadIsDirectoryName(p);
    }
    if tail.Some? {
      SegmentsAreDirectoryNames(tail);
    }
    assert Segments(pathname) == first + rest;
    assert forall i | 0 <= i < |first| :: IsDirectoryName(first[i]);
    assert forall i | 0 <= i < |rest| :: IsDirectoryName(rest[i]);
  }

  /** `getPath` on paths: the child `name` of `base`, or of the root when `base` is null. */
  function Child(base: Option<string>, name: string): string {
    if base.Some? then base.value + "/" + name else "/" + name
  }

  /** The path reached from `base` by descending through `segments`. */
  function Descend(base: Option<string>, segments: seq<string>): Option<string>
    decreases |segments|
  {
    if segments == [] then base else Descend(Some(Child(base, segments[0])), segments[1..])
  }

  function PathOfFolder(folder: Option<FolderMetadata>): Option<string> {
    if folder.Some? then Some(folder.value.path) else None
  }

  /** No entry met while descending from `base` through `segments` is a file. */
  predicate NoFileAlong(entries: map<string, Entry>, base: Option<string>, segments: seq<string>)
    decreases |segments|
  {
    segments == [] ||
    var path := Child(base, segments[0]);
    !(path in entries && entries[path].File?) && NoFileAlong(entries, Some(path), segments[1..])
  }

  // ---- the remote side, as functions ----

  /** What a run of remote calls returned, the entries and fault script it left, and the calls it made. */
  datatype Outcome<+T> = Outcome(result: Result<T, Error>, entries: map<string, Entry>, faults: seq<bool>, calls: seq<Call>)

  /** `rest`, preceded by the calls already made. */
  function Then<T>(calls: seq<Call>, rest: Outcome<T>): Outcome<T> {
    Outcome(rest.result, rest.entries, rest.faults, calls + rest.calls)
  }

  ghost predicate Extends(small: map<string, Entry>, large: map<string, Entry>) {
    forall p | p in small :: p in large && large[p] == small[p]
  }

  /** `large` holds everything `small` holds, and what it adds are folders. */
  ghost predicate GrowsByFolders(small: map<string, Entry>, large: map<string, Entry>) {
    Extends(small, large) && forall p | p in large && p !in small :: large[p].Folder?
  }

  predicate FolderThere(entries: map<string, Entry>, path: string) {
    path in entries && entries[path].Folder?
  }

  predicate CreatesNothing(calls: seq<Call>) {
    forall c | c in calls :: !c.CreateFolderCall?
  }

  /** `findFolder` as one remote call. */
  function LookupFolder(entries: map<string, Entry>, faults: seq<bool>, dirname: string, parent: Option<FolderMetadata>): Outcome<Option<FolderMetadata>> {
    Outcome(if FailsNext(faults) then Err(FileHandle(Transport)) else Ok(FolderAt(entries, dirname, parent)),
            entries, Rest(faults), [GetMetadataCall(PathOf(dirname, parent))])
  }

  /** `createOneDirectory`: the remote answers null for a path that is taken. */
  function CreateOne(entries: map<string, Entry>, faults: seq<bool>, dirname: string, parent: Option<FolderMetadata>): Outcome<Option<FolderMetadata>> {
    var path := PathOf(dirname, parent);
    var folder: FolderMetadata := Folder(path);
    if FailsNext(faults) then
      Outcome(Err(DirectoryHandle(Transport)), entries, Rest(faults), [CreateFolderCall(path)])
    else if path in entries then
      Outcome(Ok(None), entries, Rest(faults), [CreateFolderCall(path)])
    else
      Outcome(Ok(Some(folder)), entries[path := folder], Rest(faults), [CreateFolderCall(path)])
  }

  /** `findOrCreateOneDirectory`: create only when the lookup finds no folder. */
  function FindOrCreateOne(entries: map<string, Entry>, faults: seq<bool>, dirname: string, parent: Option<FolderMetadata>): Outcome<Option<FolderMetadata>> {
    var found := LookupFolder(entries, faults, dirname, parent);
    if found.result.Err? || found.result.value.Some? then found
    else Then(found.calls, CreateOne(entries, found.faults, dirname, parent))
  }

  /**
   * `findOrCreateDirectory(pathname, parent)`. A null from one level is not
   * checked: the descent goes on from the root.
   */
  function Resolve(entries: map<string, Entry>, faults: seq<bool>, pathname: Option<string>, parent: Option<FolderMetadata>): Outcome<Option<FolderMetadata>>
    decreases Len(pathname)
  {
    var p := NormalizePathname(pathname);
    var head := CurrentDirname(p);
    var tail := NextPathname(p);
    if head.None? then
      if tail.None? then Outcome(Ok(parent), entries, faults, []) else Resolve(entries, faults, tail, parent)
    else
      var one := FindOrCreateOne(entries, faults, head.value, parent);
      if one.result.Err? || tail.None? then one
      else Then(one.calls, Resolve(one.entries, one.faults, tail, one.result.value))
  }

  /**
   * `findDirectory(pathname, parent)` as written: a null current directory
   * ends the descent, whether it stands for a lookup that missed or for the
   * root.
   */
  function FindDir(entries: map<string, Entry>, faults: seq<bool>, pathname: Option<string>, parent: Option<FolderMetadata>): Outcome<Option<FolderMetadata>>
    decreases Len(pathname)
  {
    var p := NormalizePathname(pathname);
    var head := CurrentDirname(p);
    var tail := NextPathname(p);
    if head.None? then
      if parent.None? || tail.None? then Outcome(Ok(parent), entries, faults, []) else FindDir(entries, faults, tail, parent)
    else
      var found := LookupFolder(entries, faults, head.value, parent);
      if found.result.Err? || found.result.value.None? || tail.None? then found
      else Then(found.calls, FindDir(entries, found.faults, tail, found.result.value))
  }

  /** `findDirectory` as evidently intended: only a lookup that misses ends the descent. */
  function FindDirFixed(entries: map<string, Entry>, faults: seq<bool>, pathname: Option<string>, parent: Option<FolderMetadata>): Outcome<Option<FolderMetadata>>
    decreases Len(pathname)
  {
    var p := NormalizePathname(pathname);
    var head := CurrentDirname(p);
    var tail := NextPathname(p);
    if head.None? then
      if tail.None? then Outcome(Ok(parent), entries, faults, []) else FindDirFixed(entries, faults, tail, parent)
    else
      var found := LookupFolder(entries, faults, head.value, parent);
      if found.result.Err? || found.result.value.None? || tail.None? then found
      else Then(found.calls, FindDirFixed(entries, found.faults, tail, found.result.value))
  }

  /** Finding or creating the directory names one by one, each under the previous result. */
  function ResolveAll(entries: map<string, Entry>, faults: seq<bool>, segments: seq<string>, parent: Option<FolderMetadata>): Outcome<Option<FolderMetadata>>
    decreases |segments|
  {
    if segments == [] then Outcome(Ok(parent), entries, faults, [])
    else
      var one := FindOrCreateOne(entries, faults, segments[0], parent);
      if one.result.Err? then one
      else Then(one.calls, ResolveAll(one.entries, one.faults, segments[1..], one.result.value))
  }

  /** Looking the directory names up one by one, stopping at the first that is missing. */
  function FindAll(entries: map<string, Entry>, faults: seq<bool>, segments: seq<string>, parent: Option<FolderMetadata>): Outcome<Option<FolderMetadata>>
    decreases |segments|
  {
    if segments == [] then Outcome(Ok(parent), entries, faults, [])
    else
      var found := LookupFolder(entries, faults, segments[0], parent);
      if found.result.Err? || found.result.value.None? then found
      else Then(found.calls, FindAll(entries, found.faults, segments[1..], found.result.value))
  }

  // ---- the resolver follows the segments ----

  lemma {:induction false} ResolveFollowsSegments(entries: map<string, Entry>, faults: seq<bool>, pathname: Option<string>, parent: Option<FolderMetadata>)
    ensures Resolve(entries, faults, pathname, parent) == ResolveAll(entries, faults, Segments(pathname), parent)
    decreases Len(pathname)
  {
    var p := NormalizePathname(pathname);
    var head := CurrentDirname(p);
    var tail := NextPathname(p);
    var rest := if tail.Some? then Segments(tail) else [];
    if head.None? {
      assert Segments(pathname) == rest;
      if tail.Some? {
        assert Resolve(entries, faults, pathname, parent) == Resolve(entries, faults, tail, parent);
        ResolveFollowsSegments(entries, faults, tail, parent);
      }
    } else {
      var segs := Segments(pathname);
      assert segs == [head.value] + rest;
      assert segs[0] == head.value && segs[1..] == rest;
      var one := FindOrCreateOne(entries, faults, head.value, parent);
      if one.result.Ok? {
        var current := one.result.value;
        assert ResolveAll(entries, faults, segs, parent) == Then(one.calls, ResolveAll(one.entries, one.faults, rest, current));
        if tail.Some? {
          assert Resolve(entries, faults, pathname, parent) == Then(one.calls, Resolve(one.entries, one.faults, tail, current));
          ResolveFollowsSegments(one.entries, one.faults, tail, current);
        } else {
          assert one.calls + [] == one.calls;
        }
      }
    }
  }

  lemma {:induction false} FindDirFixedFollowsSegments(entries: map<string, Entry>, faults: seq<bool>, pathname: Option<string>, parent: Option<FolderMetadata>)
    ensures FindDirFixed(entries, faults, pathname, parent) == FindAll(entries, faults, Segments(pathname), parent)
    decreases Len(pathname)
  {
    var p := NormalizePathname(pathname);
    var head := CurrentDirname(p);
    var tail := NextPathname(p);
    var rest := if tail.Some? then Segments(tail) else [];
    if head.None? {
      assert Segments(pathname) == rest;
      if tail.Some? {
        assert FindDirFixed(entries, faults, pathname, parent) == FindDirFixed(entries, faults, tail, parent);
        FindDirFixedFollowsSegments(entries, faults, tail, parent);
      }
    } else {
      var segs := Segments(pathname);
      assert segs == [head.value] + rest;
      assert segs[0] == head.value && segs[1..] == rest;
      var found := LookupFolder(entries, faults, head.value, parent);
      if found.result.Ok? && found.result.value.Some? {
        assert FindAll(entries, faults, segs, parent) == Then(found.calls, FindAll(entries, found.faults, rest, found.result.value));
        if tail.Some? {
          assert FindDirFixed(entries, faults, pathname, parent) == Then(found.calls, FindDirFixed(entries, found.faults, tail, found.result.value));
          FindDirFixedFollowsSegments(entries, found.faults, tail, found.result.value);
        } else {
          assert found.calls + [] == found.calls;
        }
      } else {
        assert FindAll(entries, faults, segs, parent) == found;
      }
    }
  }

  /** Given a parent folder, or a pathname that starts with a name, the code as written and the intended one agree. */
  lemma {:induction false} FindDirFixedAgrees(entries: map<string, Entry>, faults: seq<bool>, pathname: Option<string>, parent: Option<FolderMetadata>)
    requires parent.Some? || CurrentDirname(NormalizePathname(pathname)).Some?
    ensures FindDir(entries, faults, pathname, parent) == FindDirFixed(entries, faults, pathname, parent)
    decreases Len(pathname)
  {
    var p := NormalizePathname(pathname);
    var head := CurrentDirname(p);
    var tail := NextPathname(p);
    if head.None? {
      if tail.Some? {
        FindDirFixedAgrees(entries, faults, tail, parent);
      }
    } else {
      var found := LookupFolder(entries, faults, head.value, parent);
      if !(found.result.Err? || found.result.value.None? || tail.None?) {
        FindDirFixedAgrees(entries, found.faults, tail, found.result.value);
      }
    }
  }

  // ---- properties of the segment-wise descent ----

  lemma ExtendsTransitive(a: map<string, Entry>, b: map<string, Entry>, c: map<string, Entry>)
    requires GrowsByFolders(a, b) && GrowsByFolders(b, c)
    ensures GrowsByFolders(a, c)
  {
  }

  /**
   * One level: a folder returned sits at the looked-up path, and only that
   * folder may be added; null comes back only when a file holds the path.
   */
  lemma FindOrCreateOneAdds(entries: map<string, Entry>, faults: seq<bool>, dirname: string, parent: Option<FolderMetadata>)
    requires Consistent(entries)
    ensures var o, path := FindOrCreateOne(entries, faults, dirname, parent), PathOf(dirname, parent);
      && Consistent(o.entries) && GrowsByFolders(entries, o.entries)
      && (o.result.Ok? && o.result.value.Some? ==>
            o.result.value.value.path == path && path in o.entries && o.entries[path] == o.result.value.value)
      && (o.result.Ok? && o.result.value.None? ==> o.entries == entries && path in entries && entries[path].File?)
      && (o.result.Err? ==> o.entries == entries && (o.result.error == FileHandle(Transport) || o.result.error == DirectoryHandle(Transport)))
  {
    FoundAtItsPath(entries, dirname, parent);
  }

  lemma {:induction false} ResolveAllGrows(entries: map<string, Entry>, faults: seq<bool>, segments: seq<string>, parent: Option<FolderMetadata>)
    requires Consistent(entries)
    ensures var o := ResolveAll(entries, faults, segments, parent);
      Consistent(o.entries) && GrowsByFolders(entries, o.entries)
    decreases |segments|
  {
    if segments != [] {
      FindOrCreateOneAdds(entries, faults, segments[0], parent);
      var one := FindOrCreateOne(entries, faults, segments[0], parent);
      if one.result.Ok? {
        ResolveAllGrows(one.entries, one.faults, segments[1..], one.result.value);
        ExtendsTransitive(entries, one.entries, ResolveAll(one.entries, one.faults, segments[1..], one.result.value).entries);
      }
    }
  }

  /** Folders added on the way cannot put a file along a descent. */
  lemma {:induction false} NoFileAlongGrows(small: map<string, Entry>, large: map<string, Entry>, base: Option<string>, segments: seq<string>)
    requires GrowsByFolders(small, large) && NoFileAlong(small, base, segments)
    ensures NoFileAlong(large, base, segments)
    decreases |segments|
  {
    if segments != [] {
      NoFileAlongGrows(small, large, Some(Child(base, segments[0])), segments[1..]);
    }
  }

  lemma {:induction false} ResolveAllReaches(entries: map<string, Entry>, faults: seq<bool>, segments: seq<string>, parent: Option<FolderMetadata>)
    requires Consistent(entries)
    ensures var o := ResolveAll(entries, faults, segments, parent);
      o.result.Ok? ==>
        && (segments == [] ==> o.result.value == parent)
        && (segments != [] && o.result.value.Some? ==>
              o.result.value.value.path in o.entries && o.entries[o.result.value.value.path] == o.result.value.value)
        && (NoFileAlong(entries, PathOfFolder(parent), segments) ==>
              PathOfFolder(o.result.value) == Descend(PathOfFolder(parent), segments) && (segments != [] ==> o.result.value.Some?))
    decreases |segments|
  {
    if segments != [] {
      FindOrCreateOneAdds(entries, faults, segments[0], parent);
      var one := FindOrCreateOne(entries, faults, segments[0], parent);
      if one.result.Ok? {
        var current := one.result.value;
        ResolveAllReaches(one.entries, one.faults, segments[1..], current);
        ResolveAllGrows(one.entries, one.faults, segments[1..], current);
        if NoFileAlong(entries, PathOfFolder(parent), segments) {
          var path := Child(PathOfFolder(parent), segments[0]);
          assert PathOf(segments[0], parent) == path;
          assert PathOfFolder(current) == Some(path);
          NoFileAlongGrows(entries, one.entries, Some(path), segments[1..]);
        }
      }
    }
  }

  lemma {:induction false} ResolveAllIdempotent(entries: map<string, Entry>, faults: seq<bool>, segments: seq<string>, parent: Option<FolderMetadata>,
                                                later: map<string, Entry>, laterFaults: seq<bool>)
    requires Consistent(entries)
    requires ResolveAll(entries, faults, segments, parent).result.Ok?
    requires Extends(ResolveAll(entries, faults, segments, parent).entries, later)
    requires Reliable(laterFaults)
    ensures var again := ResolveAll(later, laterFaults, segments, parent);
      && again.result == ResolveAll(entries, faults, segments, parent).result
      && again.entries == later
      && (NoFileAlong(entries, PathOfFolder(parent), segments) ==> CreatesNothing(again.calls))
    decreases |segments|
  {
    if segments != [] {
      FindOrCreateOneAdds(entries, faults, segments[0], parent);
      var one := FindOrCreateOne(entries, faults, segments[0], parent);
      var current := one.result.value;
      var path := PathOf(segments[0], parent);
      ResolveAllGrows(one.entries, one.faults, segments[1..], current);
      ReliableRest(laterFaults);
      var two := FindOrCreateOne(later, laterFaults, segments[0], parent);
      if current.Some? {
        assert two.result == one.result && two.entries == later && two.calls == [GetMetadataCall(path)];
      } else {
        assert two.result == one.result && two.entries == later && two.calls == [GetMetadataCall(path), CreateFolderCall(path)];
      }
      ResolveAllIdempotent(one.entries, one.faults, segments[1..], current, later, two.faults);
      if NoFileAlong(entries, PathOfFolder(parent), segments) {
        assert path == Child(PathOfFolder(parent), segments[0]);
        assert PathOfFolder(current) == Some(path);
        NoFileAlongGrows(entries, one.entries, Some(path), segments[1..]);
      }
    }
  }

  /** Every folder creation in `calls` is at a path where `entries` holds no folder. */
  predicate CreatesOnlyMissing(entries: map<string, Entry>, calls: seq<Call>) {
    forall i | 0 <= i < |calls| :: calls[i].CreateFolderCall? ==> !FolderThere(entries, calls[i].path)
  }

  lemma CreatesOnlyMissingConcat(small: map<string, Entry>, large: map<string, Entry>, a: seq<Call>, b: seq<Call>)
    requires Extends(small, large)
    requires CreatesOnlyMissing(small, a) && CreatesOnlyMissing(large, b)
    ensures CreatesOnlyMissing(small, a + b)
  {
    forall i | |a| <= i < |a + b| ensures (a + b)[i] == b[i - |a|] {
    }
  }

  lemma {:induction false} ResolveAllCreatesOnlyMissing(entries: map<string, Entry>, faults: seq<bool>, segments: seq<string>, parent: Option<FolderMetadata>)
    requires Consistent(entries)
    ensures CreatesOnlyMissing(entries, ResolveAll(entries, faults, segments, parent).calls)
    decreases |segments|
  {
    if segments != [] {
      FindOrCreateOneAdds(entries, faults, segments[0], parent);
      var one := FindOrCreateOne(entries, faults, segments[0], parent);
      assert CreatesOnlyMissing(entries, one.calls);
      if one.result.Ok? {
        var current := one.result.value;
        ResolveAllCreatesOnlyMissing(one.entries, one.faults, segments[1..], current);
        CreatesOnlyMissingConcat(entries, one.entries, one.calls, ResolveAll(one.entries, one.faults, segments[1..], current).calls);
      }
    }
  }

  predicate LooksOnly(calls: seq<Call>) {
    forall i | 0 <= i < |calls| :: calls[i].GetMetadataCall?
  }

  /** Every lookup in `calls` but the last found a folder. */
  predicate FoundAllButLast(entries: map<string, Entry>, calls: seq<Call>) {
    forall i | 0 <= i < |calls| - 1 :: calls[i].GetMetadataCall? && FolderThere(entries, calls[i].path)
  }

  lemma FoundThenRest(entries: map<string, Entry>, call: Call, rest: seq<Call>)
    requires call.GetMetadataCall? && FolderThere(entries, call.path)
    requires LooksOnly(rest) && FoundAllButLast(entries, rest)
    ensures LooksOnly([call] + rest) && FoundAllButLast(entries, [call] + rest)
  {
    assert forall i | 1 <= i < 1 + |rest| :: ([call] + rest)[i] == rest[i - 1];
  }

  lemma {:induction false} FindAllStopsAtFirstMiss(entries: map<string, Entry>, faults: seq<bool>, segments: seq<string>, parent: Option<FolderMetadata>)
    requires Reliable(faults)
    ensures var o := FindAll(entries, faults, segments, parent);
      && o.result.Ok? && o.entries == entries && LooksOnly(o.calls) && FoundAllButLast(entries, o.calls)
      && (o.calls != [] && !FolderThere(entries, o.calls[|o.calls| - 1].path) ==> o.result.value.None?)
    decreases |segments|
  {
    ReliableRest(faults);
    if segments != [] {
      var found := LookupFolder(entries, faults, segments[0], parent);
      if found.result.value.Some? {
        FindAllStopsAtFirstMiss(entries, found.faults, segments[1..], found.result.value);
        var rest := FindAll(entries, found.faults, segments[1..], found.result.value);
        FoundThenRest(entries, found.calls[0], rest.calls);
        if rest.calls != [] {
          assert (found.calls + rest.calls)[|found.calls + rest.calls| - 1] == rest.calls[|rest.calls| - 1];
        }
      }
    }
  }

  lemma CreatesNothingSplit(a: seq<Call>, b: seq<Call>)
    requires CreatesNothing(a + b)
    ensures CreatesNothing(a) && CreatesNothing(b)
  {
  }

  /** A `findOrCreateOneDirectory` that creates nothing is the lookup alone, and it found a folder. */
  lemma FindOrCreateOneOnlyLooks(entries: map<string, Entry>, faults: seq<bool>, dirname: string, parent: Option<FolderMetadata>)
    requires FindOrCreateOne(entries, faults, dirname, parent).result.Ok?
    requires CreatesNothing(FindOrCreateOne(entries, faults, dirname, parent).calls)
    ensures var one, found := FindOrCreateOne(entries, faults, dirname, parent), LookupFolder(entries, faults, dirname, parent);
      one == found && found.result.value.Some?
  {
    var found := LookupFolder(entries, faults, dirname, parent);
    var created := CreateOne(entries, found.faults, dirname, parent);
    assert created.calls[0] in found.calls + created.calls;
  }

  lemma {:induction false} FindAllMatchesResolveAll(entries: map<string, Entry>, faults: seq<bool>, segments: seq<string>, parent: Option<FolderMetadata>)
    requires ResolveAll(entries, faults, segments, parent).result.Ok?
    requires CreatesNothing(ResolveAll(entries, faults, segments, parent).calls)
    ensures FindAll(entries, faults, segments, parent).result == ResolveAll(entries, faults, segments, parent).result
    decreases |segments|
  {
    if segments != [] {
      var one := FindOrCreateOne(entries, faults, segments[0], parent);
      var rest := ResolveAll(one.entries, one.faults, segments[1..], one.result.value);
      CreatesNothingSplit(one.calls, rest.calls);
      FindOrCreateOneOnlyLooks(entries, faults, segments[0], parent);
      FindAllMatchesResolveAll(entries, one.faults, segments[1..], one.result.value);
    }
  }

  // ---- properties of the resolver ----

  /** A null pathname returns the parent and makes no remote call. */
  lemma ResolveNullPathname(entries: map<string, Entry>, faults: seq<bool>, parent: Option<FolderMetadata>)
    ensures Resolve(entries, faults, None, parent) == Outcome(Ok(parent), entries, faults, [])
  {
  }

  /** Resolution keeps the store consistent and only ever adds folders. */
  lemma ResolveGrows(entries: map<string, Entry>, faults: seq<bool>, pathname: Option<string>, parent: Option<FolderMetadata>)
    requires Consistent(entries)
    ensures var o := Resolve(entries, faults, pathname, parent);
      Consistent(o.entries) && GrowsByFolders(entries, o.entries)
  {
    ResolveFollowsSegments(entries, faults, pathname, parent);
    ResolveAllGrows(entries, faults, Segments(pathname), parent);
  }

  /**
   * A folder returned for a pathname that names a directory is the one stored
   * at its own path; the parent itself comes back when the pathname names no
   * directory. When no file stands in the way, the folder returned for `a/b/c`
   * under `parent` is the one at `parent.path/a/b/c`.
   */
  lemma ResolveReachesTarget(entries: map<string, Entry>, faults: seq<bool>, pathname: Option<string>, parent: Option<FolderMetadata>)
    requires Consistent(entries)
    ensures var o, segments := Resolve(entries, faults, pathname, parent), Segments(pathname);
      o.result.Ok? ==>
        && (segments == [] ==> o.result.value == parent)
        && (segments != [] && o.result.value.Some? ==>
              o.result.value.value.path in o.entries && o.entries[o.result.value.value.path] == o.result.value.value)
        && (NoFileAlong(entries, PathOfFolder(parent), segments) ==>
              PathOfFolder(o.result.value) == Descend(PathOfFolder(parent), segments) && (segments != [] ==> o.result.value.Some?))
  {
    ResolveFollowsSegments(entries, faults, pathname, parent);
    ResolveAllReaches(entries, faults, Segments(pathname), parent);
  }

  /**
   * Once resolution has succeeded, resolving the same pathname again, against
   * that store or any store grown from it, returns the same folder and leaves
   * the store unchanged; it creates nothing when no file stood in the way.
   */
  lemma ResolveIdempotent(entries: map<string, Entry>, faults: seq<bool>, pathname: Option<string>, parent: Option<FolderMetadata>,
                          later: map<string, Entry>, laterFaults: seq<bool>)
    requires Consistent(entries)
    requires Resolve(entries, faults, pathname, parent).result.Ok?
    requires Extends(Resolve(entries, faults, pathname, parent).entries, later)
    requires Reliable(laterFaults)
    ensures var again := Resolve(later, laterFaults, pathname, parent);
      && again.result == Resolve(entries, faults, pathname, parent).result
      && again.entries == later
      && (NoFileAlong(entries, PathOfFolder(parent), Segments(pathname)) ==> CreatesNothing(again.calls))
  {
    ResolveFollowsSegments(entries, faults, pathname, parent);
    ResolveFollowsSegments(later, laterFaults, pathname, parent);
    ResolveAllIdempotent(entries, faults, Segments(pathname), parent, later, laterFaults);
  }

  /** A folder is created only at a path where the store held no folder when resolution began. */
  lemma ResolveCreatesOnlyMissing(entries: map<string, Entry>, faults: seq<bool>, pathname: Option<string>, parent: Option<FolderMetadata>)
    requires Consistent(entries)
    ensures CreatesOnlyMissing(entries, Resolve(entries, faults, pathname, parent).calls)
  {
    ResolveFollowsSegments(entries, faults, pathname, parent);
    ResolveAllCreatesOnlyMissing(entries, faults, Segments(pathname), parent);
  }

  /** From the root, a pathname whose head is blank gives null at once. */
  lemma FindDirBlankHeadFromRoot(entries: map<string, Entry>, faults: seq<bool>, pathname: Option<string>)
    requires CurrentDirname(NormalizePathname(pathname)).None?
    ensures FindDir(entries, faults, pathname, None) == Outcome(Ok(None), entries, faults, [])
  {
  }

  /**
   * `findDirectory` only looks up, never changes the store, and stops at the
   * first lookup that finds no folder: every lookup but the last found one,
   * and a last lookup that missed makes the result null.
   */
  lemma FindDirStopsAtFirstMiss(entries: map<string, Entry>, faults: seq<bool>, pathname: Option<string>, parent: Option<FolderMetadata>)
    requires Reliable(faults)
    ensures var o := FindDir(entries, faults, pathname, parent);
      && o.result.Ok? && o.entries == entries && LooksOnly(o.calls) && FoundAllButLast(entries, o.calls)
      && (o.calls != [] && !FolderThere(entries, o.calls[|o.calls| - 1].path) ==> o.result.value.None?)
  {
    if parent.Some? || CurrentDirname(NormalizePathname(pathname)).Some? {
      FindDirFixedAgrees(entries, faults, pathname, parent);
      FindDirFixedFollowsSegments(entries, faults, pathname, parent);
      FindAllStopsAtFirstMiss(entries, faults, Segments(pathname), parent);
    } else {
      FindDirBlankHeadFromRoot(entries, faults, pathname);
    }
  }

  /**
   * After a successful resolution with no file in the way, the intended
   * `findDirectory` finds the resolved directory.
   */
  lemma FindDirFixedAfterResolve(entries: map<string, Entry>, faults: seq<bool>, pathname: Option<string>, parent: Option<FolderMetadata>,
                                 later: map<string, Entry>, laterFaults: seq<bool>)
    requires Consistent(entries)
    requires NoFileAlong(entries, PathOfFolder(parent), Segments(pathname))
    requires Resolve(entries, faults, pathname, parent).result.Ok?
    requires Extends(Resolve(entries, faults, pathname, parent).entries, later)
    requires Reliable(laterFaults)
    ensures FindDirFixed(later, laterFaults, pathname, parent).result == Resolve(entries, faults, pathname, parent).result
  {
    ResolveIdempotent(entries, faults, pathname, parent, later, laterFaults);
    ResolveFollowsSegments(later, laterFaults, pathname, parent);
    FindDirFixedFollowsSegments(later, laterFaults, pathname, parent);
    FindAllMatchesResolveAll(later, laterFaults, Segments(pathname), parent);
  }

  /**
   * `findDirectory("/a")` from the root: the blank head leaves the current
   * directory null, which the code reads as "not found", so `/a` is never
   * looked up although `findOrCreateDirectory("/a")` finds it.
   */
  lemma FindDirMissesLeadingSeparator()
    ensures var entries := map["/a" := Folder("/a")];
      && FindDir(entries, [], Some("/a"), None) == Outcome(Ok(None), entries, [], [])
      && Resolve(entries, [], Some("/a"), None).result == Ok(Some(Folder("/a")))
      && FindDirFixed(entries, [], Some("/a"), None).result == Ok(Some(Folder("/a")))
  {
    assert Replace("") == "" && Replace("a") == "a" && Replace("/a") == "/a";
    assert IndexOf("/a", DIRECTORY_SEPARATOR) == 0;
    assert SubstringBefore("/a") == "" && SubstringAfter("/a") == "a";
    assert LeadingBlanks("") == 0 && TrailingBlanks("") == 0;
    assert LeadingBlanks("a") == 0 && TrailingBlanks("a") == 0 && "a"[0..] == "a" && "a"[0..1] == "a";
    assert TrimToNull("") == None && TrimToNull("a") == Some("a");
    assert CurrentDirname(Some("/a")).None? && NextPathname(Some("/a")) == Some("a");
    assert IndexOf("a", DIRECTORY_SEPARATOR) == 1;
    assert SubstringBefore("a") == "a" && SubstringAfter("a") == "";
    assert CurrentDirname(Some("a")) == Some("a") && NextPathname(Some("a")).None?;
    assert PathOf("a", None) == "/a";
  }

  /**
   * `findOrCreateDirectory("a/b")` from the root with a file stored at `/a`:
   * creating `/a` answers null, the null is taken for the root, and the
   * descent goes on to create and return `/b`, which a later lookup of
   * `a/b` does not find.
   */
  lemma ResolveFallsBackToRoot()
    ensures var entries := map["/a" := File("/a", 0, 0, 0)];
      var o := Resolve(entries, [], Some("a/b"), None);
      && o == Outcome(Ok(Some(Folder("/b"))), entries["/b" := Folder("/b")], [],
                      [GetMetadataCall("/a"), CreateFolderCall("/a"), GetMetadataCall("/b"), CreateFolderCall("/b")])
      && !NoFileAlong(entries, None, Segments(Some("a/b")))
      && FindDirFixed(o.entries, [], Some("a/b"), None).result == Ok(None)
  {
    assert Replace("a/b") == "a/b" && Replace("b") == "b";
    assert IndexOf("a/b", DIRECTORY_SEPARATOR) == 1 && IndexOf("b", DIRECTORY_SEPARATOR) == 1;
    assert SubstringBefore("a/b") == "a" && SubstringAfter("a/b") == "b";
    assert SubstringBefore("b") == "b" && SubstringAfter("b") == "";
    assert LeadingBlanks("a") == 0 && TrailingBlanks("a") == 0 && "a"[0..] == "a" && "a"[0..1] == "a";
    assert LeadingBlanks("b") == 0 && TrailingBlanks("b") == 0 && "b"[0..] == "b" && "b"[0..1] == "b";
    assert LeadingBlanks("") == 0 && TrailingBlanks("") == 0;
    assert TrimToNull("a") == Some("a") && TrimToNull("b") == Some("b") && TrimToNull("") == None;
    assert CurrentDirname(Some("a/b")) == Some("a") && NextPathname(Some("a/b")) == Some("b");
    assert CurrentDirname(Some("b")) == Some("b") && NextPathname(Some("b")).None?;
    assert PathOf("a", None) == "/a" && PathOf("b", None) == "/b";
    assert Segments(Some("a/b")) == ["a", "b"];
  }

  // ---- the service, on the remote ----

  method CreateOneDirectory(remote: Remote, dirname: string, parentDir: Option<FolderMetadata>) returns (r: Result<Option<FolderMetadata>, Error>)
    requires remote.Valid()
    modifies remote`faults, remote`log, remote`entries
    ensures remote.Valid()
    ensures var o := CreateOne(old(remote.entries), old(remote.faults), dirname, parentDir);
      r == o.result && remote.entries == o.entries && remote.faults == o.faults && remote.log == old(remote.log) + o.calls
  {
    var created := remote.CreateFolder(PathOf(dirname, parentDir));
    if created.Err? {
      r := Err(DirectoryHandle(created.error));
    } else {
      r := Ok(created.value);
    }
  }

  method FindOrCreateOneDirectory(remote: Remote, dirname: string, parentDir: Option<FolderMetadata>) returns (r: Result<Option<FolderMetadata>, Error>)
    requires remote.Valid()
    modifies remote`faults, remote`log, remote`entries
    ensures remote.Valid()
    ensures var o := FindOrCreateOne(old(remote.entries), old(remote.faults), dirname, parentDir);
      r == o.result && remote.entries == o.entries && remote.faults == o.faults && remote.log == old(remote.log) + o.calls
  {
    ghost var log0 := remote.log;
    var dir := FindFolder(remote, dirname, parentDir);
    if dir.Err? || dir.value.Some? {
      return dir;
    }
    ghost var mid := remote.log;
    r := CreateOneDirectory(remote, dirname, parentDir);
    ConcatAssoc(log0, [GetMetadataCall(PathOf(dirname, parentDir))], remote.log[|mid|..]);
  }

  method FindOrCreateDirectory(remote: Remote, pathname: Option<string>, parentDir: Option<FolderMetadata>) returns (r: Result<Option<FolderMetadata>, Error>)
    requires remote.Valid()
    modifies remote`faults, remote`log, remote`entries
    ensures remote.Valid()
    ensures var o := Resolve(old(remote.entries), old(remote.faults), pathname, parentDir);
      r == o.result && remote.entries == o.entries && remote.faults == o.faults && remote.log == old(remote.log) + o.calls
    decreases Len(pathname)
  {
    ghost var log0 := remote.log;
    var p := NormalizePathname(pathname);
    var dirname := CurrentDirname(p);
    var currentDir := parentDir;
    if dirname.Some? {
      var dir := FindOrCreateOneDirectory(remote, dirname.value, parentDir);
      if dir.Err? {
        return Err(dir.error);
      }
      currentDir := dir.value;
    }
    ghost var mid := remote.log;
    var nextPathname := NextPathname(p);
    if nextPathname.Some? {
      r := FindOrCreateDirectory(remote, nextPathname, currentDir);
      ConcatAssoc(log0, mid[|log0|..], remote.log[|mid|..]);
    } else {
      r := Ok(currentDir);
    }
  }

  /** The one-argument overload: resolution starts at the root. */
  method FindOrCreateDirectoryFromRoot(remote: Remote, pathname: Option<string>) returns (r: Result<Option<FolderMetadata>, Error>)
    requires remote.Valid()
    modifies remote`faults, remote`log, remote`entries
    ensures remote.Valid()
    ensures var o := Resolve(old(remote.entries), old(remote.faults), pathname, None);
      r == o.result && remote.entries == o.entries && remote.faults == o.faults && remote.log == old(remote.log) + o.calls
  {
    r := FindOrCreateDirectory(remote, pathname, None);
  }

  method FindDirectory(remote: Remote, pathname: Option<string>, parentDir: Option<FolderMetadata>) returns (r: Result<Option<FolderMetadata>, Error>)
    modifies remote`faults, remote`log
    ensures var o := FindDir(remote.entries, old(remote.faults), pathname, parentDir);
      r == o.result && remote.faults == o.faults && remote.log == old(remote.log) + o.calls
    decreases Len(pathname)
  {
    ghost var log0 := remote.log;
    var p := NormalizePathname(pathname);
    var dirname := CurrentDirname(p);
    var currentDir := parentDir;
    if dirname.Some? {
      var dir := FindFolder(remote, dirname.value, parentDir);
      if dir.Err? {
        return Err(dir.error);
      }
      currentDir := dir.value;
    }
    ghost var mid := remote.log;
    var nextPathname := NextPathname(p);
    if currentDir.Some? && nextPathname.Some? {
      r := FindDirectory(remote, nextPathname, currentDir);
      ConcatAssoc(log0, mid[|log0|..], remote.log[|mid|..]);
    } else {
      r := Ok(currentDir);
    }
  }

  /** The one-argument overload: the search starts at the root. */
  method FindDirectoryFromRoot(remote: Remote, pathname: Option<string>) returns (r: Result<Option<FolderMetadata>, Error>)
    modifies remote`faults, remote`log
    ensures var o := FindDir(remote.entries, old(remote.faults), pathname, None);
      r == o.result && remote.faults == o.faults && remote.log == old(remote.log) + o.calls
  {
    r := FindDirectory(remote, pathname, None);
  }
}
