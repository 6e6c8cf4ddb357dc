// Utility.FileUtil: directory creation, recursive file enumeration, the
// snake-to-camel path conversion and the cache path with its memoised root.
// The file system is a Disk object: the directories that exist, what
// enumeration finds beneath each, and the text files written.
module FileUtil {
  import opened Text
  import opened Optional

  /**
   * A directory as enumeration sees it: its name, the names of its files in
   * Directory.GetFiles order and its subdirectories in Directory.GetDirectories
   * order.
   */
  datatype Dir = Dir(name: string, files: seq<string>, subdirs: seq<Dir>)

  /** The paths Directory.GetFiles returns for `names` inside `dir`. */
  function Paths(dir: string, names: seq<string>): seq<string>
  {
    seq(|names|, i requires 0 <= i < |names| => dir + "/" + names[i])
  }

  /**
   * Every file GetAllFiles collects under `dir`, whose contents are `d`:
   * the directory's own files first, then each subdirectory in turn (pre-order).
   */
  function Walk(dir: string, d: Dir): seq<string>
    decreases d, 1
  {
    Paths(dir, d.files) + WalkFrom(dir, d, 0)
  }

  /** The files under the subdirectories of `d` from the i-th on. */
  function WalkFrom(dir: string, d: Dir, i: nat): seq<string>
    requires i <= |d.subdirs|
    decreases d, 0, |d.subdirs| - i
  {
    if i == |d.subdirs| then []
    else
      assert d.subdirs[i] in d.subdirs;
      Walk(dir + "/" + d.subdirs[i].name, d.subdirs[i]) + WalkFrom(dir, d, i + 1)
  }

  /** Everything collected lies beneath the starting directory. */
  lemma {:induction false} WalkBeneath(dir: string, d: Dir)
    ensures forall p :: p in Walk(dir, d) ==> |dir| + 1 <= |p| && p[..|dir| + 1] == dir + "/"
    decreases d, 1
  {
    WalkFromBeneath(dir, d, 0);
  }

  lemma {:induction false} WalkFromBeneath(dir: string, d: Dir, i: nat)
    requires i <= |d.subdirs|
    ensures forall p :: p in WalkFrom(dir, d, i) ==> |dir| + 1 <= |p| && p[..|dir| + 1] == dir + "/"
    decreases d, 0, |d.subdirs| - i
  {
    if i < |d.subdirs| {
      var sub := d.subdirs[i];
      assert sub in d.subdirs;
      var subDir := dir + "/" + sub.name;
      WalkBeneath(subDir, sub);
      WalkFromBeneath(dir, d, i + 1);
      forall p | p in Walk(subDir, sub)
        ensures |dir| + 1 <= |p| && p[..|dir| + 1] == dir + "/"
      {
        assert p[..|dir| + 1] == p[..|subDir| + 1][..|dir| + 1];
      }
    }
  }

  /** The number of files in a directory tree. */
  function FileCount(d: Dir): nat
    decreases d, 1
  {
    |d.files| + FileCountFrom(d, 0)
  }

  function FileCountFrom(d: Dir, i: nat): nat
    requires i <= |d.subdirs|
    decreases d, 0, |d.subdirs| - i
  {
    if i == |d.subdirs| then 0
    else
      assert d.subdirs[i] in d.subdirs;
      FileCount(d.subdirs[i]) + FileCountFrom(d, i + 1)
  }

  /** Each file of the tree is collected exactly once: the walk has one path per file. */
  lemma {:induction false} WalkCount(dir: string, d: Dir)
    ensures |Walk(dir, d)| == FileCount(d)
    decreases d, 1
  {
    WalkFromCount(dir, d, 0);
  }

  lemma {:induction false} WalkFromCount(dir: string, d: Dir, i: nat)
    requires i <= |d.subdirs|
    ensures |WalkFrom(dir, d, i)| == FileCountFrom(d, i)
    decreases d, 0, |d.subdirs| - i
  {
    if i < |d.subdirs| {
      assert d.subdirs[i] in d.subdirs;
      WalkCount(dir + "/" + d.subdirs[i].name, d.subdirs[i]);
      WalkFromCount(dir, d, i + 1);
    }
  }

  /** The contents of a directory; one with nothing listed is empty. */
  function ContentsOf(listing: map<string, Dir>, dir: string): Dir
  {
    if dir in listing then listing[dir] else Dir("", [], [])
  }

  /** The files beneath `dir`: none when it does not exist. */
  function FilesOf(dirs: set<string>, listing: map<string, Dir>, dir: string): seq<string>
  {
    if dir in dirs then Walk(dir, ContentsOf(listing, dir)) else []
  }

  /**
   * Creating directories changes no enumeration: a new directory has
   * nothing listed beneath it, so it holds no files.
   */
  lemma NewDirsHoldNoFiles(dirs: set<string>, dirs': set<string>, listing: map<string, Dir>, dir: string)
    requires listing.Keys <= dirs <= dirs'
    ensures FilesOf(dirs', listing, dir) == FilesOf(dirs, listing, dir)
  {
    if dir in dirs' && dir !in dirs {
      var empty := Dir("", [], []);
      assert ContentsOf(listing, dir) == empty;
      assert Walk(dir, empty) == Paths(dir, []) + WalkFrom(dir, empty, 0);
    }
  }

  /** The file system the pipeline reads and writes. */
  class Disk {
    /** Directories that exist (Directory.Exists). */
    var dirs: set<string>
    /** What enumeration finds beneath an existing directory. */
    var listing: map<string, Dir>
    /** Text files written (File.WriteAllText), by path. */
    var texts: map<string, string>
    /** Every Directory.CreateDirectory call, in order. */
    ghost var made: seq<string>

    constructor (dirs: set<string>, listing: map<string, Dir>)
      ensures this.dirs == dirs && this.listing == listing && texts == map[] && made == []
    {
      this.dirs := dirs;
      this.listing := listing;
      texts := map[];
      made := [];
    }

    /** Every directory with listed contents exists. */
    ghost predicate Valid()
      reads this
    {
      listing.Keys <= dirs
    }

    /** The files GetAllFiles finds under `dir`. */
    function FilesUnder(dir: string): seq<string>
      reads this
    {
      FilesOf(dirs, listing, dir)
    }

    /** Directory.CreateDirectory(path): the empty path throws and nothing is made. */
    method MakeDir(path: string) returns (thrown: bool)
      modifies this
      ensures thrown <==> path == ""
      ensures thrown ==> dirs == old(dirs) && made == old(made)
      ensures !thrown ==> dirs == old(dirs) + {path} && made == old(made) + [path]
      ensures listing == old(listing) && texts == old(texts)
    {
      if path == "" {
        return true;
      }
      thrown := false;
      dirs := dirs + {path};
      made := made + [path];
    }

    /** File.WriteAllText(path, text): the file is created or truncated. */
    method WriteText(text: string, path: string)
      modifies this
      ensures texts == old(texts)[path := text]
      ensures dirs == old(dirs) && listing == old(listing) && made == old(made)
    {
      texts := texts[path := text];
    }
  }

  /** Collects the files of `d`, found at `dir`, after those already in `fileList`. */
  method CollectFiles(dir: string, d: Dir, fileList: seq<string>) returns (result: seq<string>)
    ensures result == fileList + Walk(dir, d)
    decreases d
  {
    result := fileList;
    var files := Paths(dir, d.files);
    for i := 0 to |files|
      invariant result == fileList + files[..i]
    {
      result := result + [files[i]];
    }
    assert files[..|files|] == files;
    var i := 0;
    while i < |d.subdirs|
      invariant i <= |d.subdirs|
      invariant result + WalkFrom(dir, d, i) == fileList + Walk(dir, d)
    {
      assert d.subdirs[i] in d.subdirs;
      var sub := d.subdirs[i];
      ghost var before := result;
      result := CollectFiles(dir + "/" + sub.name, sub, result);
      assert before + WalkFrom(dir, d, i) == result + WalkFrom(dir, d, i + 1);
      i := i + 1;
    }
  }

  /**
   * GetAllFiles: appends to `fileList` every file beneath `dir`, a directory's
   * files before its subdirectories'; a missing directory adds nothing.
   * `pattern` is accepted and never used.
   */
  method GetAllFiles(disk: Disk, dir: string, fileList: seq<string>, pattern: string) returns (result: seq<string>)
    ensures result == fileList + disk.FilesUnder(dir)
  {
    if dir !in disk.dirs {
      return fileList;
    }
    result := CollectFiles(dir, ContentsOf(disk.listing, dir), fileList);
  }

  /** Joining the first k + 1 pieces, a '/', and the rest gives the whole join. */
  lemma {:induction false} JoinAt(ps: seq<string>, k: nat)
    requires k + 1 < |ps|
    ensures Join(ps, '/') == Join(ps[..k + 1], '/') + "/" + Join(ps[k + 1..], '/')
  {
    if k > 0 {
      JoinAt(ps[1..], k - 1);
      assert ps[1..][..k] == ps[..k + 1][1..];
      assert ps[1..][k..] == ps[k + 1..];
    }
  }

  /** Adding one more piece to a join. */
  lemma JoinSnoc(ps: seq<string>, i: nat)
    requires 1 <= i < |ps|
    ensures Join(ps[..i + 1], '/') == Join(ps[..i], '/') + "/" + ps[i]
  {
    JoinAt(ps[..i + 1], i - 1);
    assert ps[..i + 1][..i] == ps[..i];
    assert ps[..i + 1][i..] == [ps[i]];
  }

  /** The directories CreateDirectory creates for the pieces of a path: the joins of the first 1, 2, ... pieces. */
  function Chain(ps: seq<string>): seq<string>
    requires |ps| >= 1
  {
    seq(|ps|, k requires 0 <= k < |ps| => Join(ps[..k + 1], '/'))
  }

  /**
   * The chain for a path is its prefixes that end just before a '/', in
   * order, followed by the path itself.
   */
  lemma ChainIsPrefixes(path: string)
    ensures var ch := Chain(Split(path, '/'));
      ch[|ch| - 1] == path &&
      forall k :: 0 <= k < |ch| - 1 ==>
        |ch[k]| < |path| && path[..|ch[k]|] == ch[k] && path[|ch[k]|] == '/'
  {
    var ps := Split(path, '/');
    var ch := Chain(ps);
    JoinSplit(path, '/');
    assert ps[..|ps|] == ps;
    forall k | 0 <= k < |ch| - 1
      ensures |ch[k]| < |path| && path[..|ch[k]|] == ch[k] && path[|ch[k]|] == '/'
    {
      JoinAt(ps, k);
    }
  }

  /** The chain starts with the first piece. */
  lemma ChainFirst(ps: seq<string>)
    requires |ps| >= 1
    ensures Chain(ps)[..1] == [ps[0]]
  {
    assert ps[..1] == [ps[0]];
  }

  /** The chain for i + 1 pieces is the chain for i with the next prefix appended. */
  lemma ChainNext(ps: seq<string>, i: nat)
    requires 1 <= i < |ps|
    ensures Chain(ps)[..i + 1] == Chain(ps)[..i] + [Join(ps[..i], '/') + "/" + ps[i]]
  {
    JoinSnoc(ps, i);
  }

  /** The elements of a sequence grow by the one appended. */
  lemma ElementsSnoc(s: seq<string>, x: string)
    ensures Elements(s + [x]) == Elements(s) + {x}
  {
  }

  /** The strings a sequence holds. */
  function Elements(s: seq<string>): set<string>
  {
    set p | p in s
  }

  /** Adding to what was added adds the union. */
  lemma AddedAfter(before: set<string>, added: set<string>, x: string)
    ensures before + added + {x} == before + (added + {x})
  {
  }

  /**
   * CreateDirectory: creates the first piece of the path, then each longer
   * prefix up to the full path. Directory.CreateDirectory throws on an
   * empty path, so a path that is empty or starts with '/' (whose first
   * piece is empty) throws before anything is made; `thrown` says so.
   */
  method CreateDirectory(disk: Disk, path: string) returns (thrown: bool)
    modifies disk
    ensures thrown <==> path == "" || path[0] == '/'
    ensures thrown ==> disk.made == old(disk.made) && disk.dirs == old(disk.dirs)
    ensures !thrown ==> disk.made == old(disk.made) + Chain(Split(path, '/'))
    ensures !thrown ==> disk.dirs == old(disk.dirs) + Elements(Chain(Split(path, '/')))
    ensures disk.listing == old(disk.listing) && disk.texts == old(disk.texts)
  {
    var pathList := Split(path, '/');
    ghost var chain := Chain(pathList);
    ghost var made0, dirs0, listing0, texts0 := disk.made, disk.dirs, disk.listing, disk.texts;
    var tmpDir := pathList[0];
    SplitFirstEmpty(path, '/');
    thrown := disk.MakeDir(tmpDir);
    if thrown {
      return;
    }
    ChainFirst(pathList);
    ElementsSnoc([], tmpDir);
    if |pathList| <= 1 {
      return;
    }
    var i := 1;
    while i < |pathList|
      invariant 1 <= i <= |pathList|
      invariant tmpDir == Join(pathList[..i], '/')
      invariant disk.made == made0 + chain[..i]
      invariant disk.dirs == dirs0 + Elements(chain[..i])
      invariant disk.listing == listing0 && disk.texts == texts0
    {
      ChainNext(pathList, i);
      AppendAfter(made0, chain[..i], [tmpDir + "/" + pathList[i]]);
      ElementsSnoc(chain[..i], tmpDir + "/" + pathList[i]);
      AddedAfter(dirs0, Elements(chain[..i]), tmpDir + "/" + pathList[i]);
      JoinSnoc(pathList, i);
      tmpDir := tmpDir + "/" + pathList[i];
      var _ := disk.MakeDir(tmpDir);
      i := i + 1;
    }
    assert chain[..i] == chain;
  }

  /** One directory segment: with a '_', its '_'-separated pieces title-cased and joined; otherwise as it is. */
  function CamelSegment(seg: string, titleCase: string -> string): string
  {
    var parts := Split(seg, '_');
    if |parts| > 1 then TitleConcat(parts, titleCase) else parts[0]
  }

  /** The title-cased parts, concatenated in order. */
  function TitleConcat(parts: seq<string>, titleCase: string -> string): string
  {
    if parts == [] then "" else TitleConcat(parts[..|parts| - 1], titleCase) + titleCase(parts[|parts| - 1])
  }

  /** One more title-cased part appended to what has been written. */
  lemma TitleConcatNext(start: string, parts: seq<string>, j: nat, titleCase: string -> string)
    requires j < |parts|
    ensures start + TitleConcat(parts[..j + 1], titleCase) == (start + TitleConcat(parts[..j], titleCase)) + titleCase(parts[j])
  {
    assert parts[..j + 1][..j] == parts[..j];
  }

  /** Appends one converted segment, with a '/' first only once something has been written. */
  function CamelStep(acc: string, seg: string, titleCase: string -> string): string
  {
    (if acc != "" then acc + "/" else acc) + CamelSegment(seg, titleCase)
  }

  /** The directory segments converted one after another, each through CamelStep. */
  function CamelDirs(segs: seq<string>, titleCase: string -> string): string
    decreases |segs|
  {
    if segs == [] then "" else CamelStep(CamelDirs(segs[..|segs| - 1], titleCase), segs[|segs| - 1], titleCase)
  }

  /** Converting one more segment extends the conversion of the ones before it. */
  lemma CamelDirsNext(ps: seq<string>, i: nat, titleCase: string -> string)
    requires i < |ps|
    ensures CamelDirs(ps[..i + 1], titleCase) == CamelStep(CamelDirs(ps[..i], titleCase), ps[i], titleCase)
  {
    assert ps[..i + 1][..i] == ps[..i];
  }

  /** The inner loop of ConvertToCamelPath: each part title-cased and appended to `start`. */
  method AppendTitled(start: string, parts: seq<string>, titleCase: string -> string) returns (ret: string)
    ensures ret == start + TitleConcat(parts, titleCase)
  {
    ret := start;
    var j := 0;
    while j < |parts|
      invariant 0 <= j <= |parts|
      invariant ret == start + TitleConcat(parts[..j], titleCase)
    {
      TitleConcatNext(start, parts, j, titleCase);
      ret := ret + titleCase(parts[j]);
      j := j + 1;
    }
    assert parts[..j] == parts;
  }

  /** The body of ConvertToCamelPath's loop: one directory segment converted and appended. */
  method AppendSegment(acc: string, tmpDir: string, titleCase: string -> string) returns (ret: string)
    ensures ret == CamelStep(acc, tmpDir, titleCase)
  {
    ret := acc;
    if ret != "" {
      ret := ret + "/";
    }
    var tmpDirList := Split(tmpDir, '_');
    if |tmpDirList| > 1 {
      ret := AppendTitled(ret, tmpDirList, titleCase);
    } else {
      ret := ret + tmpDirList[0];
    }
  }

  /** What ConvertToCamelPath returns. */
  function CamelPath(path: string, titleCase: string -> string): string
  {
    var ps := Split(path, '/');
    if |ps| <= 1 then path else CamelDirs(ps[..|ps| - 1], titleCase) + "/" + ps[|ps| - 1]
  }

  /**
   * ConvertToCamelPath: every directory segment of a '/'-separated path is
   * converted by CamelSegment and the last segment is kept; `titleCase`
   * stands for TextInfo.ToTitleCase of the current culture.
   */
  method ConvertToCamelPath(path: string, titleCase: string -> string) returns (r: string)
    ensures r == CamelPath(path, titleCase)
  {
    var pathList := Split(path, '/');
    if |pathList| <= 1 {
      return path;
    }
    var n := |pathList| - 1;
    var ret := ConvertSegments(pathList, n, titleCase);
    r := ret + "/" + pathList[n];
  }

  /** ConvertToCamelPath's loop over the first `n` segments, each appended through AppendSegment. */
  method ConvertSegments(pathList: seq<string>, n: nat, titleCase: string -> string) returns (ret: string)
    requires n <= |pathList|
    ensures ret == CamelDirs(pathList[..n], titleCase)
  {
    ret := "";
    var i := 0;
    while i < n
      invariant 0 <= i <= n
      invariant ret == CamelDirs(pathList[..i], titleCase)
    {
      CamelDirsNext(pathList, i, titleCase);
      ret := AppendSegment(ret, pathList[i], titleCase);
      i := i + 1;
    }
  }

  /** A path without '/' is returned unchanged. */
  lemma CamelNoSlash(path: string, titleCase: string -> string)
    requires '/' !in path
    ensures CamelPath(path, titleCase) == path
  {
    SplitSingle(path, '/');
  }

  lemma EndsWithAppend(x: string, w: string)
    ensures EndsWith(x + w, w)
  {
    assert (x + w)[|x|..] == w;
  }

  /** The last segment is kept verbatim after a final '/'. */
  lemma CamelKeepsLast(path: string, titleCase: string -> string)
    requires '/' in path
    ensures var ps := Split(path, '/');
      EndsWith(CamelPath(path, titleCase), "/" + ps[|ps| - 1])
  {
    SplitSingle(path, '/');
    var ps := Split(path, '/');
    var x := CamelDirs(ps[..|ps| - 1], titleCase);
    var w := "/" + ps[|ps| - 1];
    AppendAfter(x, "/", ps[|ps| - 1]);
    assert CamelPath(path, titleCase) == x + w;
    EndsWithAppend(x, w);
  }

  /** A segment without '_' is copied verbatim. */
  lemma CamelSegmentPlain(seg: string, titleCase: string -> string)
    requires '_' !in seg
    ensures CamelSegment(seg, titleCase) == seg
  {
    SplitSingle(seg, '_');
  }

  /** A segment with '_' becomes the title-cased pieces, with no '_' of its own left between them. */
  lemma CamelSegmentSnake(seg: string, titleCase: string -> string)
    requires '_' in seg
    ensures CamelSegment(seg, titleCase) == TitleConcat(Split(seg, '_'), titleCase)
    ensures forall p :: p in Split(seg, '_') ==> '_' !in p
  {
    SplitSingle(seg, '_');
    SplitPiecesClean(seg, '_');
  }

  /** Plain, non-empty segments are re-joined with '/' exactly as they were. */
  lemma {:induction false} CamelDirsPlain(segs: seq<string>, titleCase: string -> string)
    requires segs != []
    requires forall k :: 0 <= k < |segs| ==> segs[k] != "" && '_' !in segs[k]
    ensures CamelDirs(segs, titleCase) == Join(segs, '/')
    decreases |segs|
  {
    var n := |segs| - 1;
    CamelSegmentPlain(segs[n], titleCase);
    if n > 0 {
      var init := segs[..n];
      CamelDirsPlain(init, titleCase);
      JoinSnoc(segs, n);
      assert segs[..n + 1] == segs;
    }
  }

  /**
   * A path whose directory segments are all non-empty and free of '_' is
   * returned unchanged: only snake-case segments and empty ones are rewritten.
   */
  lemma CamelIdentity(path: string, titleCase: string -> string)
    requires var ps := Split(path, '/');
      forall k :: 0 <= k < |ps| - 1 ==> ps[k] != "" && '_' !in ps[k]
    ensures CamelPath(path, titleCase) == path
  {
    var ps := Split(path, '/');
    JoinSplit(path, '/');
    if |ps| > 1 {
      var n := |ps| - 1;
      CamelDirsPlain(ps[..n], titleCase);
      JoinSnoc(ps, n);
      assert ps[..n + 1] == ps;
    }
  }

  /** The leading empty segment of an absolute path writes nothing, so no '/' is put in front. */
  lemma CamelDropsLeadingSlash(titleCase: string -> string)
    ensures CamelPath("/a/b", titleCase) == "a/b"
  {
    SplitLeadingSlash();
    CamelSegmentPlain("", titleCase);
    CamelSegmentPlain("a", titleCase);
    assert ["", "a", "b"][..2] == ["", "a"];
    assert ["", "a"][..1] == [""];
    assert [""][..0] == [];
  }

  /** "/a/b" splits into an empty first piece, "a" and "b". */
  lemma SplitLeadingSlash()
    ensures Split("/a/b", '/') == ["", "a", "b"]
  {
    assert Split("b", '/') == ["b"] by { assert "b"[1..] == ""; assert "b" == ['b'] + ""; }
    assert Split("/b", '/') == ["", "b"] by { assert "/b"[1..] == "b"; }
    assert Split("a/b", '/') == ["a", "b"] by { assert "a/b"[1..] == "/b"; assert "a" == ['a'] + ""; }
    assert "/a/b"[1..] == "a/b";
  }

  /** RuntimePlatform, as far as the cache root depends on it. */
  datatype RuntimePlatform = AndroidPlayer | IPhonePlayer | OtherPlatform

  /** The UnityEngine.Application properties the cache path reads. */
  datatype Application = Application(
    isEditor: bool, platform: RuntimePlatform,
    dataPath: string, persistentDataPath: string, temporaryCachePath: string)

  /** The cache root a player chooses for its platform. */
  function PlayerCacheRoot(app: Application): string
  {
    match app.platform
    case AndroidPlayer => app.persistentDataPath
    case IPhonePlayer => app.temporaryCachePath
    case OtherPlatform => app.dataPath
  }

  /** GetCachePath's composition from a cache root. */
  function CachePath(cacheRoot: string, isEditor: bool, rootDirName: string, subRelativePath: string): string
  {
    var dir := if isEditor then cacheRoot + "/../AppCache/" + rootDirName else cacheRoot + "/" + rootDirName;
    if subRelativePath != "" then dir + "/" + subRelativePath else dir
  }

  /**
   * The cache folder is AppCache/`rootDirName` beside the root in the editor
   * and `rootDirName` inside the root in a player; the sub-path follows it,
   * after a '/', only when it is non-empty.
   */
  lemma CachePathSub(cacheRoot: string, isEditor: bool, rootDirName: string, subRelativePath: string)
    ensures subRelativePath == "" && isEditor ==>
      CachePath(cacheRoot, isEditor, rootDirName, subRelativePath) == cacheRoot + "/../AppCache/" + rootDirName
    ensures subRelativePath == "" && !isEditor ==>
      CachePath(cacheRoot, isEditor, rootDirName, subRelativePath) == cacheRoot + "/" + rootDirName
    ensures subRelativePath != "" ==>
      CachePath(cacheRoot, isEditor, rootDirName, subRelativePath) ==
      CachePath(cacheRoot, isEditor, rootDirName, "") + "/" + subRelativePath
  {
  }

  /** FileUtil's static cache-root memo (_rootCacheDataPath, initially null). */
  class CacheRoot {
    var rootCacheDataPath: Option<string>

    constructor ()
      ensures rootCacheDataPath == None
    {
      rootCacheDataPath := None;
    }

    /**
     * GetCacheRootPath: in the editor the root is reset to dataPath on every
     * call; in a player it is chosen once, by platform, and then reused.
     */
    method GetCacheRootPath(app: Application) returns (root: string)
      modifies this
      ensures rootCacheDataPath == Some(root)
      ensures app.isEditor ==> root == app.dataPath
      ensures !app.isEditor && old(rootCacheDataPath).Some? ==> root == old(rootCacheDataPath).value
      ensures !app.isEditor && old(rootCacheDataPath).None? ==> root == PlayerCacheRoot(app)
    {
      if app.isEditor {
        rootCacheDataPath := Some(app.dataPath);
      } else if rootCacheDataPath.None? {
        rootCacheDataPath := Some(PlayerCacheRoot(app));
      }
      root := rootCacheDataPath.value;
    }

    /** GetCachePath: the cache directory `rootDirName`, and below it `subRelativePath` when that is non-empty. */
    method GetCachePath(app: Application, rootDirName: string, subRelativePath: string) returns (path: string)
      modifies this
      ensures rootCacheDataPath.Some?
      ensures path == CachePath(rootCacheDataPath.value, app.isEditor, rootDirName, subRelativePath)
      ensures app.isEditor ==> rootCacheDataPath == Some(app.dataPath)
      ensures !app.isEditor && old(rootCacheDataPath).Some? ==> rootCacheDataPath == old(rootCacheDataPath)
      ensures !app.isEditor && old(rootCacheDataPath).None? ==> rootCacheDataPath == Some(PlayerCacheRoot(app))
    {
      var cacheRoot := GetCacheRootPath(app);
      if app.isEditor {
        path := cacheRoot + "/../AppCache/" + rootDirName;
        if subRelativePath != "" {
          path := path + "/" + subRelativePath;
        }
      } else {
        path := cacheRoot + "/" + rootDirName;
        if subRelativePath != "" {
          path := path + "/" + subRelativePath;
        }
      }
    }
  }
}
