// AssetBundleList: the per-platform lists of built bundles to upload and the
// version file (assetbundlelist.json) describing them.
module AssetBundleList {
  import opened Text
  import opened Targets
  import opened FileUtil

  const VersionFileName: string := "assetbundlelist.json"
  const AssetBundleFolder: string := "AssetBundles"

  /** One entry of the version file: the bundle's hash and its path from "build/" on. */
  datatype AssetData = AssetData(hash: string, path: string)

  /** The version file's contents: when it was made and one entry per bundle. */
  datatype AssetVersion = AssetVersion(createdTime: string, items: seq<AssetData>)

  /**
   * GetBuildAssetFolderPath: the platform's folder under AssetBundles next to
   * the project's Assets folder. `All` is not a folder: the debug assertion
   * fails and the empty path is returned.
   */
  function BuildAssetFolderPath(dataPath: string, target: UploaderTarget): (r: string)
    ensures target != All ==> r == dataPath + "/../" + AssetBundleFolder + "/" + PlatformName(target)
    ensures target == All ==> r == ""
  {
    match target
    case iOS => dataPath + "/../" + AssetBundleFolder + "/iOS"
    case Android => dataPath + "/../" + AssetBundleFolder + "/Android"
    case Windows => dataPath + "/../" + AssetBundleFolder + "/StandaloneWindows"
    case All => ""
  }

  /** The folder whose files are uploaded for one platform. */
  function BuildFolder(dataPath: string, target: UploaderTarget): string
  {
    BuildAssetFolderPath(dataPath, target) + "/build"
  }

  /**
   * Directory.CreateDirectory refuses an empty path, so the version folder
   * of `target` cannot be made when it is missing and its path is empty or
   * starts with '/' (the first piece FileUtil.CreateDirectory creates is
   * then empty).
   */
  predicate VersionFolderFails(dirs: set<string>, dataPath: string, target: UploaderTarget)
  {
    var rootDir := BuildAssetFolderPath(dataPath, target);
    rootDir !in dirs && (rootDir == "" || rootDir[0] == '/')
  }

  /**
   * A platform's version folder cannot be made exactly when it is missing
   * and the project path is empty or absolute; with a relative project path
   * it never fails.
   */
  lemma VersionFolderFailsWhen(dirs: set<string>, dataPath: string, target: UploaderTarget)
    requires target != All
    ensures VersionFolderFails(dirs, dataPath, target) <==>
      BuildAssetFolderPath(dataPath, target) !in dirs && (dataPath == "" || dataPath[0] == '/')
  {
    var rootDir := BuildAssetFolderPath(dataPath, target);
    if dataPath != "" {
      assert rootDir[0] == dataPath[0];
    }
  }

  /**
   * Making one platform's version folder never changes whether another
   * platform's can be made: either the folder existed and nothing was made,
   * or the project path is relative and no platform's folder fails.
   */
  lemma FolderFailsAlike(dirs: set<string>, dirs': set<string>, dataPath: string, p: UploaderTarget, q: UploaderTarget)
    requires p != All && q != All
    requires !VersionFolderFails(dirs, dataPath, p)
    requires BuildAssetFolderPath(dataPath, p) in dirs ==> dirs' == dirs
    ensures VersionFolderFails(dirs', dataPath, q) == VersionFolderFails(dirs, dataPath, q)
  {
    VersionFolderFailsWhen(dirs, dataPath, p);
    VersionFolderFailsWhen(dirs, dataPath, q);
    VersionFolderFailsWhen(dirs', dataPath, q);
  }

  /**
   * The folders once `target`'s version folder is in place: as they were
   * when it existed, otherwise with every '/'-prefix of its path added, as
   * FileUtil.CreateDirectory makes them.
   */
  function VersionFolderMade(dirs: set<string>, dataPath: string, target: UploaderTarget): set<string>
  {
    var rootDir := BuildAssetFolderPath(dataPath, target);
    if rootDir in dirs then dirs else dirs + Elements(Chain(Split(rootDir, '/')))
  }

  /** Once put in place, the version folder exists and no folder is gone. */
  lemma VersionFolderExists(dirs: set<string>, dataPath: string, target: UploaderTarget)
    ensures dirs <= VersionFolderMade(dirs, dataPath, target)
    ensures BuildAssetFolderPath(dataPath, target) in VersionFolderMade(dirs, dataPath, target)
  {
    ChainIsPrefixes(BuildAssetFolderPath(dataPath, target));
  }

  /** Files that are never uploaded: manifests, JSON files and Unity meta files, wherever the text occurs. */
  predicate IsExcluded(path: string)
  {
    Contains(path, ".manifest") || Contains(path, ".json") || Contains(path, ".meta")
  }

  /** Windows separators turned into '/'. */
  function Normalize(path: string): string
  {
    ReplaceChar(path, '\\', '/')
  }

  /** What the root-path filter keeps of `files`, normalised, in order. */
  function UploadFiles(files: seq<string>): seq<string>
  {
    if files == [] then []
    else
      var last := files[|files| - 1];
      UploadFiles(files[..|files| - 1]) + (if IsExcluded(last) then [] else [Normalize(last)])
  }

  /** The filter works file by file: filtering a concatenation concatenates the results, so order is kept. */
  lemma {:induction false} UploadFilesAppend(a: seq<string>, b: seq<string>)
    ensures UploadFiles(a + b) == UploadFiles(a) + UploadFiles(b)
    decreases |b|
  {
    if b != [] {
      var n := |b| - 1;
      assert (a + b)[..|a + b| - 1] == a + b[..n];
      UploadFilesAppend(a, b[..n]);
    } else {
      assert a + b == a;
    }
  }

  /** A path is kept, normalised, exactly when some file passes the filter and normalises to it. */
  lemma {:induction false} UploadFilesMembers(files: seq<string>, x: string)
    ensures x in UploadFiles(files) <==> exists f :: f in files && !IsExcluded(f) && x == Normalize(f)
    decreases |files|
  {
    if files != [] {
      var init := files[..|files| - 1];
      var last := files[|files| - 1];
      assert files == init + [last];
      UploadFilesMembers(init, x);
      if exists f :: f in files && !IsExcluded(f) && x == Normalize(f) {
        var f :| f in files && !IsExcluded(f) && x == Normalize(f);
        if f != last {
          assert f in init;
        }
      }
    }
  }

  /** Replacing '\' by '/' neither creates nor destroys text that holds neither character. */
  lemma NormalizeKeepsOccurrences(s: string, p: string)
    requires '\\' !in p && '/' !in p
    ensures Contains(Normalize(s), p) <==> Contains(s, p)
  {
    var t := Normalize(s);
    forall i: nat | i <= |s|
      ensures OccursAt(t, p, i) <==> OccursAt(s, p, i)
    {
      if i + |p| <= |s| {
        if OccursAt(s, p, i) {
          forall k | 0 <= k < |p|
            ensures t[i..i + |p|][k] == p[k]
          {
            assert s[i + k] == p[k];
          }
        }
        if OccursAt(t, p, i) {
          forall k | 0 <= k < |p|
            ensures s[i..i + |p|][k] == p[k]
          {
            assert t[i + k] == p[k];
            assert p[k] in p;
          }
        }
      }
    }
  }

  /** Every uploaded path is free of '\' and of the excluded extensions. */
  lemma UploadFilesClean(files: seq<string>)
    ensures forall x :: x in UploadFiles(files) ==> '\\' !in x && !IsExcluded(x)
  {
    forall x | x in UploadFiles(files)
      ensures '\\' !in x && !IsExcluded(x)
    {
      UploadFilesMembers(files, x);
      var f :| f in files && !IsExcluded(f) && x == Normalize(f);
      NormalizeKeepsOccurrences(f, ".manifest");
      NormalizeKeepsOccurrences(f, ".json");
      NormalizeKeepsOccurrences(f, ".meta");
    }
  }

  /** The files a target uploads: its own folder's, or for `All` the iOS, Android and Windows lists in that order. */
  function TargetUploadFiles(disk: Disk, dataPath: string, target: UploaderTarget): seq<string>
    reads disk
  {
    if target == All then
      UploadFiles(disk.FilesUnder(BuildFolder(dataPath, iOS))) +
      UploadFiles(disk.FilesUnder(BuildFolder(dataPath, Android))) +
      UploadFiles(disk.FilesUnder(BuildFolder(dataPath, Windows)))
    else UploadFiles(disk.FilesUnder(BuildFolder(dataPath, target)))
  }

  /** GetUploadFileList(rootPath): the files under `rootPath` that pass the filter, normalised, in enumeration order. */
  method GetUploadFileListAt(disk: Disk, rootPath: string) returns (retList: seq<string>)
    ensures retList == UploadFiles(disk.FilesUnder(rootPath))
  {
    var fileList := GetAllFiles(disk, rootPath, [], "*");
    retList := [];
    for k := 0 to |fileList|
      invariant retList == UploadFiles(fileList[..k])
    {
      var o := fileList[k];
      assert fileList[..k + 1][..k] == fileList[..k];
      if Contains(o, ".manifest") || Contains(o, ".json") || Contains(o, ".meta") {
        continue;
      }
      var filePath := Normalize(o);
      retList := retList + [filePath];
    }
    assert fileList[..|fileList|] == fileList;
  }

  /**
   * CreateAssetVersionFile's item loop. Its `index` is declared inside the
   * `while`, so every pass is the same pass over files 0 to 4 and isEnd is
   * set only when fewer than 5 files exist. RunPasses gives the state after
   * k passes of the `while`.
   */
  function RunPasses(files: seq<string>, hashOf: string -> string, k: nat): (r: (seq<AssetData>, bool))
  {
    if k == 0 then ([], false)
    else
      var prev := RunPasses(files, hashOf, k - 1);
      if prev.1 then prev
      else (prev.0 + Items(files[..Min(5, |files|)], hashOf), |files| < 5)
  }

  function Min(a: nat, b: nat): nat
  {
    if a < b then a else b
  }

  /** The version-file path of a bundle: "build/" followed by the text after the last "build/" in its path. */
  function ItemPath(filePath: string): string
  {
    "build/" + AfterLast(filePath, "build/")
  }

  /** The entry for one bundle; `hashOf` stands for BuildPipeline.GetHashForAssetBundle. */
  function Item(filePath: string, hashOf: string -> string): AssetData
  {
    AssetData(hashOf(filePath), ItemPath(filePath))
  }

  /** One entry per file, in file order. */
  function Items(files: seq<string>, hashOf: string -> string): (r: seq<AssetData>)
    ensures |r| == |files|
    ensures forall i :: 0 <= i < |files| ==> r[i] == Item(files[i], hashOf)
  {
    seq(|files|, i requires 0 <= i < |files| => Item(files[i], hashOf))
  }

  /** A path under a "build/" folder keeps its text from the last "build/" on; any other path gets "build/" put in front. */
  lemma ItemPathSuffix(filePath: string)
    ensures Contains(filePath, "build/") ==>
      EndsWith(filePath, ItemPath(filePath)) && !Contains(AfterLast(filePath, "build/"), "build/")
    ensures !Contains(filePath, "build/") ==> ItemPath(filePath) == "build/" + filePath
  {
    if Contains(filePath, "build/") {
      AfterLastIsLast(filePath, "build/");
    } else {
      AfterLastAbsent(filePath, "build/");
    }
  }

  /** With fewer than 5 files the first pass ends the loop with one entry per file, in order. */
  lemma FewFilesEnd(files: seq<string>, hashOf: string -> string)
    requires |files| < 5
    ensures RunPasses(files, hashOf, 1) == (Items(files, hashOf), true)
  {
    assert RunPasses(files, hashOf, 0) == ([], false);
    assert files[..Min(5, |files|)] == files;
    assert [] + Items(files, hashOf) == Items(files, hashOf);
  }

  /**
   * With 5 or more files no pass ever ends the loop, and each pass appends
   * the same five entries again: the loop does not terminate.
   */
  lemma {:induction false} ManyFilesNeverEnd(files: seq<string>, hashOf: string -> string, k: nat)
    requires |files| >= 5
    ensures !RunPasses(files, hashOf, k).1
    ensures |RunPasses(files, hashOf, k).0| == 5 * k
    ensures forall i :: 0 <= i < 5 * k ==> RunPasses(files, hashOf, k).0[i] == Item(files[i % 5], hashOf)
  {
    if k > 0 {
      ManyFilesNeverEnd(files, hashOf, k - 1);
      var prev := RunPasses(files, hashOf, k - 1).0;
      var pass := Items(files[..5], hashOf);
      assert RunPasses(files, hashOf, k).0 == prev + pass;
      forall i | 5 * (k - 1) <= i < 5 * k
        ensures (prev + pass)[i] == Item(files[i % 5], hashOf)
      {
        assert i % 5 == i - 5 * (k - 1);
      }
    }
  }

  /** The file lists of the uploader window. */
  class AssetBundleList {
    /** Application.dataPath: the project's Assets folder. */
    const dataPath: string
    var currentUploadList: seq<string>
    var selectTarget: UploaderTarget

    constructor (dataPath: string)
      ensures this.dataPath == dataPath
      ensures currentUploadList == [] && selectTarget == Android
    {
      this.dataPath := dataPath;
      currentUploadList := [];
      selectTarget := Android;
    }

    /** Refresh: selects the target and lists its files (for `All`, iOS then Android then Windows). */
    method Refresh(target: UploaderTarget, disk: Disk)
      modifies this
      ensures selectTarget == target
      ensures currentUploadList == TargetUploadFiles(disk, dataPath, target)
    {
      selectTarget := target;
      currentUploadList := GetSelectedUploadFileList(disk);
    }

    /** GetUploadFileList(): the files of the selected target. */
    method GetSelectedUploadFileList(disk: Disk) returns (retList: seq<string>)
      ensures retList == TargetUploadFiles(disk, dataPath, selectTarget)
    {
      retList := [];
      if selectTarget != All {
        var path := BuildAssetFolderPath(dataPath, selectTarget) + "/build";
        var list := GetUploadFileListAt(disk, path);
        assert retList + list == list;
        retList := retList + list;
      } else {
        var path := BuildAssetFolderPath(dataPath, iOS) + "/build";
        var list := GetUploadFileListAt(disk, path);
        assert retList + list == list;
        retList := retList + list;
        var path2 := BuildAssetFolderPath(dataPath, Android) + "/build";
        var list2 := GetUploadFileListAt(disk, path2);
        retList := retList + list2;
        var path3 := BuildAssetFolderPath(dataPath, Windows) + "/build";
        var list3 := GetUploadFileListAt(disk, path3);
        retList := retList + list3;
      }
    }

    /** GetUploadFileList(target): the files under the target's own build folder. */
    method GetUploadFileList(disk: Disk, targetPlatform: UploaderTarget) returns (r: seq<string>)
      ensures r == UploadFiles(disk.FilesUnder(BuildFolder(dataPath, targetPlatform)))
    {
      var path := BuildAssetFolderPath(dataPath, targetPlatform) + "/build";
      r := GetUploadFileListAt(disk, path);
    }

    /**
     * The item loop of CreateAssetVersionFile: passes of five indices from
     * index * 5, where index restarts at 0 on every pass, until an index
     * runs past the list; with fewer than 5 files the first pass does it.
     */
    static method CollectItems(fileList: seq<string>, hashOf: string -> string) returns (items: seq<AssetData>)
      requires |fileList| < 5
      ensures items == Items(fileList, hashOf)
    {
      items := [];
      var isEnd := false;
      ghost var passes := 0;
      while !isEnd
        invariant passes <= 1 && isEnd == (passes == 1)
        invariant items == if isEnd then Items(fileList, hashOf) else []
        decreases 1 - passes
      {
        var index := 0;
        for i := 0 to 5
          invariant !isEnd && i <= |fileList|
          invariant items == Items(fileList[..i], hashOf)
        {
          var j := index * 5 + i;
          if j >= |fileList| {
            isEnd := true;
            break;
          }
          var filePath := fileList[j];
          assert fileList[..i + 1] == fileList[..i] + [filePath];
          items := items + [Item(filePath, hashOf)];
        }
        assert fileList[..|fileList|] == fileList;
        passes := passes + 1;
        if !isEnd {
          index := index + 1;
        }
      }
    }

    /**
     * CreateAssetVersionFile: lists the target's files, makes one entry per
     * file, serialises the version (`toJson` stands for JsonUtility.ToJson,
     * `now` for DateTime.Now), writes it to assetbundlelist.json in the
     * target's folder, creating the folder when missing, and returns it.
     * When the folder is missing and cannot be made (VersionFolderFails)
     * the call throws before anything is written; `thrown` says so. The
     * item loop ends only with fewer than 5 files (ManyFilesNeverEnd), which
     * callers must therefore ensure.
     */
    method CreateAssetVersionFile(disk: Disk, targetPlatform: UploaderTarget, now: string,
                                  hashOf: string -> string, toJson: AssetVersion -> string)
      returns (versionFile: string, thrown: bool)
      requires |UploadFiles(disk.FilesUnder(BuildFolder(dataPath, targetPlatform)))| < 5
      modifies disk
      ensures var files := UploadFiles(old(disk.FilesUnder(BuildFolder(dataPath, targetPlatform))));
        versionFile == toJson(AssetVersion(now, Items(files, hashOf)))
      ensures thrown <==> VersionFolderFails(old(disk.dirs), dataPath, targetPlatform)
      ensures disk.listing == old(disk.listing) && old(disk.dirs) <= disk.dirs
      ensures thrown ==> disk.texts == old(disk.texts) && disk.dirs == old(disk.dirs) && disk.made == old(disk.made)
      ensures !thrown ==> disk.dirs == VersionFolderMade(old(disk.dirs), dataPath, targetPlatform)
      ensures var rootDir := BuildAssetFolderPath(dataPath, targetPlatform);
        !thrown ==>
          disk.texts == old(disk.texts)[rootDir + "/" + VersionFileName := versionFile] &&
          (rootDir in old(disk.dirs) ==> disk.dirs == old(disk.dirs) && disk.made == old(disk.made)) &&
          (rootDir !in old(disk.dirs) ==> disk.made == old(disk.made) + Chain(Split(rootDir, '/')))
    {
      var fileList := GetUploadFileList(disk, targetPlatform);
      var items := CollectItems(fileList, hashOf);
      versionFile := toJson(AssetVersion(now, items));
      var rootDir := BuildAssetFolderPath(dataPath, targetPlatform);
      thrown := false;
      if rootDir !in disk.dirs {
        thrown := CreateDirectory(disk, rootDir);
        if thrown {
          return;
        }
      }
      var savePath := rootDir + "/" + VersionFileName;
      disk.WriteText(versionFile, savePath);
    }
  }
}
