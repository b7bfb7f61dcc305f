/**
 * Locating the scenario files: splitting the class path into search roots
 * (`getResourcesByExtension`), the special case of a single `-dev.jar` entry,
 * and the depth-first walk of each root (`internalGetResources`,
 * `getResourcesFromDirectory`).
 *
 * The file system is a value: a `FileTree` says what `new File(root)` finds at
 * each search root, and each entry is a directory (whose listing may fail) or a
 * file (whose canonical path may fail). Java streams are lazy, so a walk is a
 * `PathStream`: the paths produced before the first exception, then that
 * exception, if any.
 */
module Resources {
  import opened Wrappers
  import opened Strings
  import opened ScenarioModel

  // ---------------------------------------------------------------------------
  // Class path splitting: String.split with a one-character literal separator

  /** System.getProperty("java.class.path", "."): the property, or "." when it is unset. */
  function ClassPathOrDefault(property: Option<string>): string {
    match property
    case Some(classPath) => classPath
    case None => "."
  }

  /** Every piece between separators, empty pieces included (one more piece than separators). */
  function RawSplit(s: string, sep: char): (parts: seq<string>)
    ensures |parts| >= 1
    ensures forall i :: 0 <= i < |parts| ==> sep !in parts[i]
  {
    var k := LastIndexOf(s, sep);
    if k < 0 then [s] else RawSplit(s[..k], sep) + [s[k + 1..]]
  }

  /** There is one more piece than there are separators in the text. */
  lemma {:induction false} RawSplitCount(s: string, sep: char)
    ensures |RawSplit(s, sep)| == 1 + multiset(s)[sep]
  {
    var k := LastIndexOf(s, sep);
    if k < 0 {
      assert sep !in s;
    } else {
      RawSplitCount(s[..k], sep);
      assert s == s[..k] + [sep] + s[k + 1..];
      assert sep !in s[k + 1..];
    }
  }

  /** The pieces glued back with the separator between consecutive pieces. */
  function Join(parts: seq<string>, sep: char): string
    requires |parts| >= 1
  {
    if |parts| == 1 then parts[0] else Join(parts[..|parts| - 1], sep) + [sep] + parts[|parts| - 1]
  }

  /** Splitting loses nothing: joining the pieces gives the text back. */
  lemma {:induction false} JoinRawSplit(s: string, sep: char)
    ensures Join(RawSplit(s, sep), sep) == s
  {
    var k := LastIndexOf(s, sep);
    if k >= 0 {
      JoinRawSplit(s[..k], sep);
      var parts := RawSplit(s, sep);
      assert parts[..|parts| - 1] == RawSplit(s[..k], sep);
      assert s == s[..k] + [sep] + s[k + 1..];
    }
  }

  /** The last separator of `init + [sep] + last` is the one in between, when `last` holds none. */
  lemma LastSeparatorBeforeLast(init: string, last: string, sep: char)
    requires sep !in last
    ensures LastIndexOf(init + [sep] + last, sep) == |init|
  {
    var s := init + [sep] + last;
    var r := LastIndexOf(s, sep);
    assert s[|init|] == sep;
    assert s[|init| + 1..] == last;
  }

  lemma RawSplitAtLast(s: string, sep: char, k: int)
    requires 0 <= k == LastIndexOf(s, sep)
    ensures RawSplit(s, sep) == RawSplit(s[..k], sep) + [s[k + 1..]]
  {
  }

  /** Splitting a join of separator-free pieces gives the pieces back. */
  lemma {:induction false} RawSplitJoin(parts: seq<string>, sep: char)
    requires |parts| >= 1
    requires forall i :: 0 <= i < |parts| ==> sep !in parts[i]
    ensures RawSplit(Join(parts, sep), sep) == parts
  {
    var s := Join(parts, sep);
    if |parts| == 1 {
      assert LastIndexOf(s, sep) == -1;
    } else {
      var init, last := parts[..|parts| - 1], parts[|parts| - 1];
      RawSplitJoin(init, sep);
      var j := Join(init, sep);
      assert s == j + [sep] + last;
      LastSeparatorBeforeLast(j, last, sep);
      RawSplitAtLast(s, sep, |j|);
      assert s[..|j|] == j && s[|j| + 1..] == last;
      assert parts == init + [last];
    }
  }

  /** Drops the empty pieces at the end, as String.split does with limit 0. */
  function DropTrailingEmpty(parts: seq<string>): (r: seq<string>)
    ensures |r| <= |parts| && r == parts[..|r|]
    ensures forall i :: |r| <= i < |parts| ==> parts[i] == ""
    ensures r == [] || r[|r| - 1] != ""
  {
    if parts == [] then []
    else if parts[|parts| - 1] == "" then DropTrailingEmpty(parts[..|parts| - 1])
    else parts
  }

  /**
   * String.split(sep): the text itself when it holds no separator; otherwise
   * the pieces between separators with the trailing empty ones dropped.
   */
  function Split(s: string, sep: char): (entries: seq<string>)
    ensures sep !in s ==> entries == [s]
    ensures forall i :: 0 <= i < |entries| ==> sep !in entries[i]
    ensures sep in s ==> |entries| <= |RawSplit(s, sep)| && entries == RawSplit(s, sep)[..|entries|]
    ensures sep in s ==> forall i :: |entries| <= i < |RawSplit(s, sep)| ==> RawSplit(s, sep)[i] == ""
    ensures sep in s ==> entries == [] || entries[|entries| - 1] != ""
  {
    if sep !in s then [s] else DropTrailingEmpty(RawSplit(s, sep))
  }

  // ---------------------------------------------------------------------------
  // Search roots

  const DEV_JAR_SUFFIX: string := "-dev.jar"

  /**
   * The roots to walk: the class path entries in order, except that a class
   * path of exactly one `-dev.jar` entry is replaced by the `test-classes`
   * directory beside the jar. `substring(0, lastIndexOf("/"))` throws when the
   * entry has no `/`.
   */
  function SearchRoots(entries: seq<string>): (r: Result<seq<string>, Throwable>)
    ensures !(|entries| == 1 && EndsWith(entries[0], DEV_JAR_SUFFIX)) ==> r == Success(entries)
    ensures |entries| == 1 && EndsWith(entries[0], DEV_JAR_SUFFIX) && '/' !in entries[0] ==>
              r == Failure(StringIndexOutOfBoundsException(-1))
    ensures |entries| == 1 && EndsWith(entries[0], DEV_JAR_SUFFIX) && '/' in entries[0] ==>
              && r.Success? && |r.value| == 1
              && var d := |r.value[0]| - |"/test-classes"|;
              && 0 <= d < |entries[0]|
              && r.value[0] == entries[0][..d] + "/test-classes"
              && entries[0][d] == '/' && '/' !in entries[0][d + 1..]
  {
    if |entries| == 1 && EndsWith(entries[0], DEV_JAR_SUFFIX) then
      var classPath := entries[0];
      var slash := LastIndexOf(classPath, '/');
      if slash < 0 then Failure(StringIndexOutOfBoundsException(slash))
      else Success([classPath[..slash] + "/test-classes"])
    else
      Success(entries)
  }

  /** A lone `<dir>/<name>-dev.jar` entry is searched as `<dir>/test-classes`, and only that. */
  lemma DevJarSearchesTestClasses(dir: string, jarName: string)
    requires '/' !in jarName && EndsWith(jarName, DEV_JAR_SUFFIX)
    ensures SearchRoots([dir + "/" + jarName]) == Success([dir + "/test-classes"])
  {
    var entry := dir + "/" + jarName;
    assert entry[|entry| - |jarName|..] == jarName;
    assert entry[|dir|] == '/';
    assert forall k :: |dir| < k < |entry| ==> entry[k] == jarName[k - |dir| - 1];
    assert LastIndexOf(entry, '/') == |dir|;
    assert entry[..|dir|] == dir;
  }

  /** A lone `-dev.jar` entry without any `/` makes the root selection throw. */
  lemma DevJarWithoutSlashThrows(entry: string)
    requires '/' !in entry && EndsWith(entry, DEV_JAR_SUFFIX)
    ensures SearchRoots([entry]) == Failure(StringIndexOutOfBoundsException(-1))
  {
  }

  /** Any other class path is searched entry by entry, in order. */
  lemma OtherClassPathsSearchedAsGiven(entries: seq<string>)
    requires !(|entries| == 1 && EndsWith(entries[0], DEV_JAR_SUFFIX))
    ensures SearchRoots(entries) == Success(entries)
  {
  }

  // ---------------------------------------------------------------------------
  // The walk

  /**
   * A directory entry: a directory with its listing, a directory whose listing
   * fails (`listFiles()` returns null), or a file whose canonical path may fail.
   */
  datatype FsNode =
    | Directory(entries: seq<FsNode>)
    | UnlistableDirectory
    | RegularFile(canonicalPath: Option<string>)

  /** What `new File(root)` finds at each search root; a root missing from the map does not exist. */
  type FileTree = map<string, FsNode>

  /** A lazily produced stream of paths: what it yields before stopping, and the exception it stops with, if any. */
  datatype PathStream = PathStream(paths: seq<string>, stop: Option<Throwable>)

  const EMPTY: PathStream := PathStream([], None)

  /** The exception a file whose canonical path cannot be resolved raises. */
  const ACCESS_ERROR: Throwable := ScenarioException("Impossible to access to resources")

  /** Stream concatenation (`flatMap`): the second stream is reached only if the first ends normally. */
  function Then(a: PathStream, b: PathStream): PathStream {
    if a.stop.Some? then a else PathStream(a.paths + b.paths, b.stop)
  }

  /** The pattern `.*\.<ext>$`, read as "ends with a dot and the extension". */
  predicate Matches(path: string, ext: string) {
    EndsWith(path, "." + ext)
  }

  /** One entry of a listing: a directory is walked, a file yields its canonical path when it matches. */
  function FromNode(node: FsNode, ext: string): (r: PathStream)
    ensures forall p :: p in r.paths ==> Matches(p, ext)
    ensures r.stop.Some? ==> r.stop == Some(ACCESS_ERROR)
    decreases node, 1, 0
  {
    match node
    case Directory(_) => FromListing(node, 0, ext)
    case UnlistableDirectory => EMPTY
    case RegularFile(None) => PathStream([], Some(ACCESS_ERROR))
    case RegularFile(Some(path)) => if Matches(path, ext) then PathStream([path], None) else EMPTY
  }

  /** getResourcesFromDirectory on a listable directory: its entries from position `i` on, in listing order. */
  function FromListing(dir: FsNode, i: nat, ext: string): (r: PathStream)
    requires dir.Directory? && i <= |dir.entries|
    ensures forall p :: p in r.paths ==> Matches(p, ext)
    ensures r.stop.Some? ==> r.stop == Some(ACCESS_ERROR)
    decreases dir, 0, |dir.entries| - i
  {
    var entries := dir.entries;
    if i == |entries| then EMPTY else Then(FromNode(entries[i], ext), FromListing(dir, i + 1, ext))
  }

  predicate IsDirectory(node: FsNode) {
    node.Directory? || node.UnlistableDirectory?
  }

  /** internalGetResources: a root that is not a directory yields nothing. */
  function FromRoot(root: string, tree: FileTree, ext: string): (r: PathStream)
    ensures !(root in tree && IsDirectory(tree[root])) ==> r == EMPTY
    ensures forall p :: p in r.paths ==> Matches(p, ext)
    ensures r.stop.Some? ==> r.stop == Some(ACCESS_ERROR)
  {
    if root in tree && IsDirectory(tree[root]) then FromNode(tree[root], ext) else EMPTY
  }

  /** The roots' streams, one after the other. */
  function FromRoots(roots: seq<string>, tree: FileTree, ext: string): (r: PathStream)
    ensures forall p :: p in r.paths ==> Matches(p, ext)
    ensures r.stop.Some? ==> r.stop == Some(ACCESS_ERROR)
    ensures r.stop.None? <==> forall k :: 0 <= k < |roots| ==> FromRoot(roots[k], tree, ext).stop.None?
  {
    if roots == [] then EMPTY else Then(FromRoot(roots[0], tree, ext), FromRoots(roots[1..], tree, ext))
  }

  /** getResourcesByExtension, with the class path, the separator and the file system given. */
  function ResourcesByExtension(classPath: Option<string>, pathSeparator: char, tree: FileTree, ext: string): (r: Result<PathStream, Throwable>)
    ensures r.Failure? <==> SearchRoots(Split(ClassPathOrDefault(classPath), pathSeparator)).Failure?
    ensures r.Failure? ==> r.error == StringIndexOutOfBoundsException(-1)
    ensures r.Success? ==> forall p :: p in r.value.paths ==> Matches(p, ext)
    ensures r.Success? ==> r.value.stop.Some? ==> r.value.stop == Some(ACCESS_ERROR)
  {
    match SearchRoots(Split(ClassPathOrDefault(classPath), pathSeparator))
    case Failure(e) => Failure(e)
    case Success(roots) => Success(FromRoots(roots, tree, ext))
  }

  // ---------------------------------------------------------------------------
  // What the walk yields, stated over the flat list of files it visits

  /** The canonical paths (None where resolving fails) of the files under a node, depth-first in listing order. */
  function FilesOfNode(node: FsNode): seq<Option<string>>
    decreases node, 1, 0
  {
    match node
    case Directory(_) => FilesOfListing(node, 0)
    case UnlistableDirectory => []
    case RegularFile(path) => [path]
  }

  function FilesOfListing(dir: FsNode, i: nat): seq<Option<string>>
    requires dir.Directory? && i <= |dir.entries|
    decreases dir, 0, |dir.entries| - i
  {
    var entries := dir.entries;
    if i == |entries| then [] else FilesOfNode(entries[i]) + FilesOfListing(dir, i + 1)
  }

  /** The files a search root contributes: none unless it is a directory. */
  function FilesOfRoot(root: string, tree: FileTree): seq<Option<string>> {
    if root in tree && IsDirectory(tree[root]) then FilesOfNode(tree[root]) else []
  }

  function FilesOfRoots(roots: seq<string>, tree: FileTree): seq<Option<string>> {
    if roots == [] then [] else FilesOfRoot(roots[0], tree) + FilesOfRoots(roots[1..], tree)
  }

  /** The position of the first file whose canonical path fails, or the length when none fails. */
  function FirstFailure(files: seq<Option<string>>): (k: nat)
    ensures k <= |files|
    ensures forall i :: 0 <= i < k ==> files[i].Some?
    ensures k < |files| ==> files[k].None?
  {
    if files == [] || files[0].None? then 0 else 1 + FirstFailure(files[1..])
  }

  /** The resolved paths that match the extension, in order. */
  function MatchingPaths(files: seq<Option<string>>, ext: string): (paths: seq<string>)
    ensures forall p :: p in paths ==> Matches(p, ext) && Some(p) in files
  {
    if files == [] then []
    else (if files[0].Some? && Matches(files[0].value, ext) then [files[0].value] else [])
         + MatchingPaths(files[1..], ext)
  }

  /** Completeness of the filter: every resolved path that matches is kept. */
  lemma {:induction false} MatchingPathsComplete(files: seq<Option<string>>, ext: string)
    ensures forall i :: 0 <= i < |files| && files[i].Some? && Matches(files[i].value, ext) ==> files[i].value in MatchingPaths(files, ext)
  {
    if files != [] {
      MatchingPathsComplete(files[1..], ext);
      forall i | 1 <= i < |files| && files[i].Some? && Matches(files[i].value, ext)
        ensures files[i].value in MatchingPaths(files, ext)
      {
        assert files[1..][i - 1] == files[i];
      }
    }
  }

  /**
   * The specification of a walk over the files `files`: the matching paths
   * before the first file whose canonical path fails, then the access error if
   * there is such a file.
   */
  function Expected(files: seq<Option<string>>, ext: string): PathStream {
    var k := FirstFailure(files);
    PathStream(MatchingPaths(files[..k], ext), if k < |files| then Some(ACCESS_ERROR) else None)
  }

  lemma {:induction false} MatchingPathsConcat(a: seq<Option<string>>, b: seq<Option<string>>, ext: string)
    ensures MatchingPaths(a + b, ext) == MatchingPaths(a, ext) + MatchingPaths(b, ext)
  {
    if a != [] {
      MatchingPathsConcat(a[1..], b, ext);
      assert (a + b)[1..] == a[1..] + b;
    } else {
      assert a + b == b;
    }
  }

  lemma {:induction false} FirstFailureConcat(a: seq<Option<string>>, b: seq<Option<string>>)
    ensures FirstFailure(a + b) == if FirstFailure(a) < |a| then FirstFailure(a) else |a| + FirstFailure(b)
  {
    if a != [] && a[0].Some? {
      FirstFailureConcat(a[1..], b);
      assert (a + b)[1..] == a[1..] + b;
    } else if a == [] {
      assert a + b == b;
    }
  }

  /** The specification composes like the stream: walking `a` then `b` is walking `a + b`. */
  lemma ExpectedConcat(a: seq<Option<string>>, b: seq<Option<string>>, ext: string)
    ensures Expected(a + b, ext) == Then(Expected(a, ext), Expected(b, ext))
  {
    FirstFailureConcat(a, b);
    var ka, kb := FirstFailure(a), FirstFailure(b);
    if ka < |a| {
      assert (a + b)[..ka] == a[..ka];
      assert Expected(a + b, ext) == Expected(a, ext);
    } else {
      var k := |a| + kb;
      assert FirstFailure(a + b) == k;
      assert (a + b)[..k] == a + b[..kb];
      assert a[..ka] == a;
      MatchingPathsConcat(a, b[..kb], ext);
      assert Expected(a, ext) == PathStream(MatchingPaths(a, ext), None);
      assert Expected(a + b, ext).paths == MatchingPaths(a, ext) + Expected(b, ext).paths;
      assert Expected(a + b, ext).stop == Expected(b, ext).stop;
    }
  }

  /** The walk of a node yields exactly what the specification says of the files under it. */
  lemma {:induction false} FromNodeMeetsSpec(node: FsNode, ext: string)
    ensures FromNode(node, ext) == Expected(FilesOfNode(node), ext)
    decreases node, 1, 0
  {
    match node
    case Directory(_) => FromListingMeetsSpec(node, 0, ext);
    case UnlistableDirectory =>
    case RegularFile(None) =>
    case RegularFile(Some(path)) =>
      assert [Some(path)][..1] == [Some(path)];
      assert MatchingPaths([Some(path)], ext) == (if Matches(path, ext) then [path] else []) + MatchingPaths([], ext);
  }

  lemma {:induction false} FromListingMeetsSpec(dir: FsNode, i: nat, ext: string)
    requires dir.Directory? && i <= |dir.entries|
    ensures FromListing(dir, i, ext) == Expected(FilesOfListing(dir, i), ext)
    decreases dir, 0, |dir.entries| - i
  {
    var entries := dir.entries;
    if i < |entries| {
      FromNodeMeetsSpec(entries[i], ext);
      FromListingMeetsSpec(dir, i + 1, ext);
      ExpectedConcat(FilesOfNode(entries[i]), FilesOfListing(dir, i + 1), ext);
    }
  }

  /**
   * The walk over all roots yields, depth-first in listing order, exactly the
   * files whose canonical path matches the extension, up to the first file whose
   * canonical path cannot be resolved; that file stops the whole walk with the
   * access error. Roots that are not directories contribute nothing.
   */
  lemma {:induction false} FromRootsMeetsSpec(roots: seq<string>, tree: FileTree, ext: string)
    ensures FromRoots(roots, tree, ext) == Expected(FilesOfRoots(roots, tree), ext)
  {
    if roots != [] {
      var root := roots[0];
      if root in tree && IsDirectory(tree[root]) {
        FromNodeMeetsSpec(tree[root], ext);
      }
      FromRootsMeetsSpec(roots[1..], tree, ext);
      ExpectedConcat(FilesOfRoot(root, tree), FilesOfRoots(roots[1..], tree), ext);
    }
  }

  /**
   * getResourcesByExtension, once root selection succeeds, is exactly the
   * specification of the walk over the files of the selected roots: their
   * matching paths up to the first file whose canonical path fails, and then
   * the access error.
   */
  lemma ResourcesByExtensionMeetsSpec(classPath: Option<string>, pathSeparator: char, tree: FileTree, ext: string)
    ensures var roots := SearchRoots(Split(ClassPathOrDefault(classPath), pathSeparator));
            var r := ResourcesByExtension(classPath, pathSeparator, tree, ext);
            roots.Success? ==> r == Success(Expected(FilesOfRoots(roots.value, tree), ext))
  {
    var roots := SearchRoots(Split(ClassPathOrDefault(classPath), pathSeparator));
    if roots.Success? {
      FromRootsMeetsSpec(roots.value, tree, ext);
    }
  }

  /** Consequences: the walk never yields a non-matching path, and it stops with an error exactly when some file fails. */
  lemma WalkOutcome(roots: seq<string>, tree: FileTree, ext: string)
    ensures var s := FromRoots(roots, tree, ext);
            var files := FilesOfRoots(roots, tree);
            && (forall p :: p in s.paths ==> Matches(p, ext) && Some(p) in files)
            && (s.stop.None? <==> None !in files)
            && (s.stop.Some? ==> s.stop == Some(ACCESS_ERROR))
            && (None !in files ==> s.paths == MatchingPaths(files, ext))
  {
    FromRootsMeetsSpec(roots, tree, ext);
    var files := FilesOfRoots(roots, tree);
    var k := FirstFailure(files);
    assert k < |files| ==> files[k] == None;
    if None !in files {
      assert files[..k] == files;
    }
    forall p | p in MatchingPaths(files[..k], ext) ensures Some(p) in files {
      assert Some(p) in files[..k];
    }
  }
}
