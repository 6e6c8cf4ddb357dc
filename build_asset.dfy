// BuildAssetbundle: the editor menu commands that collect the project's
// assets into bundles, hand the bundle lists to Unity's build pipeline for
// each platform, and write each platform's version file. The asset folders
// are given as directory trees, `None` when the folder is missing; each
// BuildPipeline.BuildAssetBundles call is recorded in a log; the manifest
// enumeration, bundle existence, the manifests' CRC and the YAML serialiser
// are parameters.
module BuildAssetbundle {
  import opened Text
  import opened Optional
  import opened FileUtil
  import opened Grouping

  const OutputDir: string := "Output"
  const AssetDir: string := "Asset"
  const AssetPackList: string := "AssetPack"
  const AssetPackPrefix: string := "Pack_"
  const AssetbundleExt: string := ".unity3d"
  const AssetbundleManifestExt: string := ".manifest"
  const VersionListFileName: string := "version.txt"

  /** BuildType: All = 0, then iOS, Android and Windows. */
  datatype BuildType = All | iOS | Android | Windows

  /** A file that becomes a bundle of its own: its name, its folder below Assets, and the bundle name. */
  datatype Asset = Asset(fileName: string, fileDir: string, exportName: string)

  /** The files of one Pack_ folder, bundled together: their asset paths, the folder holding the pack, the bundle name. */
  datatype AssetPack = AssetPack(filePathList: seq<string>, filePackDir: string, exportName: string)

  /** UnityEditor.AssetBundleBuild: a bundle name and the asset paths it holds. */
  datatype AssetBundleBuild = AssetBundleBuild(assetBundleName: string, assetNames: seq<string>)

  /** The BuildTarget values passed to the build pipeline. */
  datatype BuildTarget = TargetiOS | TargetAndroid | StandaloneWindows64

  /** One BuildPipeline.BuildAssetBundles call: output folder, bundle list and target. */
  datatype BuildRequest = BuildRequest(outputPath: string, builds: seq<AssetBundleBuild>, target: BuildTarget)

  /** ResourceVersion.FileVersion: a bundle's path below the output folder and its CRC. */
  datatype FileVersion = FileVersion(path: string, crc: string)

  // ----- Output folders

  /** GetOutputDir: Output/Android/, Output/iOS/ or, for Windows and All alike, Output/Windows/, then `subDir`. */
  function GetOutputDir(buildType: BuildType, subDir: string): string
  {
    match buildType
    case Android => Combine(OutputDir, "Android") + "/" + subDir
    case iOS => Combine(OutputDir, "iOS") + "/" + subDir
    case _ => Combine(OutputDir, "Windows") + "/" + subDir
  }

  /** The platform folder a build type writes to: All falls to the default, Windows. */
  function OutputPlatform(buildType: BuildType): BuildType
  {
    if buildType == All then Windows else buildType
  }

  /** The output folders spelled out. */
  lemma OutputDirShapes(subDir: string)
    ensures GetOutputDir(Android, subDir) == "Output/Android/" + subDir
    ensures GetOutputDir(iOS, subDir) == "Output/iOS/" + subDir
    ensures GetOutputDir(Windows, subDir) == "Output/Windows/" + subDir
    ensures GetOutputDir(All, subDir) == GetOutputDir(Windows, subDir)
  {
  }

  /** Two platforms never share an output folder, whatever the sub-folders. */
  lemma OutputDirsApart(a: BuildType, b: BuildType, s: string, t: string)
    requires OutputPlatform(a) != OutputPlatform(b)
    ensures GetOutputDir(a, s) != GetOutputDir(b, t)
  {
    OutputDirShapes(s);
    OutputDirShapes(t);
    assert GetOutputDir(a, s)[7] != GetOutputDir(b, t)[7];
  }

  /** The folder reached from `root` by descending through `pieces` with Path.Combine. */
  function Reach(root: string, pieces: seq<string>): string
  {
    if pieces == [] then root
    else Combine(Reach(root, pieces[..|pieces| - 1]), pieces[|pieces| - 1])
  }

  /** Every folder passed on the way down. */
  function Passed(root: string, pieces: seq<string>): set<string>
  {
    if pieces == [] then {}
    else Passed(root, pieces[..|pieces| - 1]) + {Reach(root, pieces)}
  }

  /** The folders CreateOutputDirectory makes sure exist for one platform and sub-folder. */
  function OutputDirsOf(buildType: BuildType, subDir: string): set<string>
  {
    var root := GetOutputDir(buildType, "");
    {OutputDir, root} + Passed(root, Split(subDir, '/'))
  }

  /** A relative folder path with no empty piece: no leading, trailing or doubled '/'. */
  predicate CleanPath(path: string)
  {
    forall p :: p in Split(path, '/') ==> p != ""
  }

  /** A platform's output root ends in '/': a sub-folder is written right after it. */
  lemma OutputRoot(buildType: BuildType, subDir: string)
    ensures var root := GetOutputDir(buildType, "");
      root != "" && root[|root| - 1] == '/' && GetOutputDir(buildType, subDir) == root + subDir
  {
    var base := match buildType
      case Android => Combine(OutputDir, "Android")
      case iOS => Combine(OutputDir, "iOS")
      case _ => Combine(OutputDir, "Windows");
    assert GetOutputDir(buildType, "") == base + "/" + "";
    assert GetOutputDir(buildType, subDir) == base + "/" + subDir;
    FolderThenSub(base, subDir);
  }

  /** A folder followed by "/" is the folder's root; a sub-folder is written after it. */
  lemma FolderThenSub(base: string, subDir: string)
    ensures var root := base + "/" + ""; root != "" && root[|root| - 1] == '/' && base + "/" + subDir == root + subDir
  {
    assert base + "/" + "" == base + "/";
  }

  /** A join of pieces ending in a non-empty piece ends with that piece's last character. */
  lemma JoinLastChar(ps: seq<string>)
    requires |ps| >= 1 && ps[|ps| - 1] != ""
    ensures var j := Join(ps, '/'); var last := ps[|ps| - 1];
      j != "" && j[|j| - 1] == last[|last| - 1]
  {
    var n := |ps|;
    var last := ps[n - 1];
    if n > 1 {
      JoinSnoc(ps, n - 1);
      assert ps[..n] == ps;
      var j := Join(ps[..n - 1], '/') + "/";
      assert Join(ps, '/') == j + last;
      assert (j + last)[|j| + |last| - 1] == last[|last| - 1];
    }
  }

  /** Descending from a root that ends in '/' through clean pieces spells the root followed by the joined pieces. */
  lemma {:induction false} ReachJoin(root: string, ps: seq<string>)
    requires root != "" && root[|root| - 1] == '/'
    requires |ps| >= 1 && forall p :: p in ps ==> p != "" && '/' !in p
    ensures Reach(root, ps) == root + Join(ps, '/')
  {
    var n := |ps|;
    var init, last := ps[..n - 1], ps[n - 1];
    assert last in ps;
    if n == 1 {
      assert Reach(root, ps) == Combine(Reach(root, init), last);
      assert last[0] in last;
      assert Reach(root, ps) == root + last;
    } else {
      assert init[n - 2] in ps;
      forall p | p in init
        ensures p != "" && '/' !in p
      {
        assert p in ps;
      }
      ReachJoin(root, init);
      ReachStepClean(root, init, last);
      var j := Join(init, '/');
      JoinSnoc(ps, n - 1);
      assert ps[..n] == ps;
      AppendAfter(root, j, "/");
      AppendAfter(root, j + "/", last);
    }
  }

  /** Descending one more clean piece from a folder reached through clean pieces adds "/" and the piece. */
  lemma ReachStepClean(root: string, init: seq<string>, last: string)
    requires root != "" && |init| >= 1
    requires init[|init| - 1] != "" && last != "" && '/' !in last && '/' !in init[|init| - 1]
    requires Reach(root, init) == root + Join(init, '/')
    ensures Reach(root, init + [last]) == root + Join(init, '/') + "/" + last
  {
    var ps := init + [last];
    assert ps[..|ps| - 1] == init;
    var r := root + Join(init, '/');
    JoinLastChar(init);
    var before := init[|init| - 1];
    assert r[|r| - 1] == before[|before| - 1];
    assert before[|before| - 1] in before;
    assert last[0] in last;
  }

  /** After CreateOutputDirectory for a clean sub-folder, the platform's output folder for it exists. */
  lemma OutputDirReached(buildType: BuildType, subDir: string)
    requires CleanPath(subDir)
    ensures GetOutputDir(buildType, subDir) in OutputDirsOf(buildType, subDir)
  {
    var root := GetOutputDir(buildType, "");
    var ps := Split(subDir, '/');
    OutputRoot(buildType, subDir);
    SplitPiecesClean(subDir, '/');
    ReachJoin(root, ps);
    JoinSplit(subDir, '/');
    assert Reach(root, ps) in Passed(root, ps);
  }

  /** One more piece: the folder reached is combined with it and joins the folders passed. */
  lemma DescendStep(root: string, ps: seq<string>, i: nat)
    requires i < |ps|
    ensures Reach(root, ps[..i + 1]) == Combine(Reach(root, ps[..i]), ps[i])
    ensures Passed(root, ps[..i + 1]) == Passed(root, ps[..i]) + {Reach(root, ps[..i + 1])}
  {
    assert ps[..i + 1][..i] == ps[..i];
  }

  /**
   * CreateOutputDirectory: the Output folder, the platform folder and every
   * folder on the way down to the sub-folder are created where missing.
   */
  method CreateOutputDirectory(disk: Disk, buildType: BuildType, subDir: string)
    modifies disk
    ensures disk.dirs == old(disk.dirs) + OutputDirsOf(buildType, subDir)
    ensures disk.listing == old(disk.listing) && disk.texts == old(disk.texts)
  {
    ghost var dirs0, listing0, texts0 := disk.dirs, disk.listing, disk.texts;
    var _ := MakeDirIfMissing(disk, OutputDir);
    var androidDir := GetOutputDir(buildType, "");
    var _ := MakeDirIfMissing(disk, androidDir);
    ghost var base := dirs0 + {OutputDir, androidDir};
    assert disk.dirs == base + Passed(androidDir, []);
    var dirList := Split(subDir, '/');
    var curDir := androidDir;
    for i := 0 to |dirList|
      invariant curDir == Reach(androidDir, dirList[..i]) && curDir != ""
      invariant disk.dirs == base + Passed(androidDir, dirList[..i])
      invariant disk.listing == listing0 && disk.texts == texts0
    {
      DescendStep(androidDir, dirList, i);
      UnionAfter(base, Passed(androidDir, dirList[..i]), {Reach(androidDir, dirList[..i + 1])});
      curDir := Combine(curDir, dirList[i]);
      var _ := MakeDirIfMissing(disk, curDir);
    }
    assert dirList[..|dirList|] == dirList;
  }

  /** `if (!Directory.Exists(path)) Directory.CreateDirectory(path)`: afterwards the folder exists, unless a missing empty path threw. */
  method MakeDirIfMissing(disk: Disk, path: string) returns (thrown: bool)
    modifies disk
    ensures thrown <==> path !in old(disk.dirs) && path == ""
    ensures thrown ==> disk.dirs == old(disk.dirs)
    ensures !thrown ==> disk.dirs == old(disk.dirs) + {path}
    ensures disk.listing == old(disk.listing) && disk.texts == old(disk.texts)
  {
    thrown := false;
    if path !in disk.dirs {
      thrown := disk.MakeDir(path);
    }
  }

  // ----- Single assets

  /**
   * A file the searches take: anything whose extension is not ".meta", that
   * is (MetaExtension) anything not ending in ".meta".
   */
  predicate NotMeta(name: string)
  {
    !EndsWith(name, ".meta")
  }

  /** The asset made for file `name` in folder `dirPath`. */
  function AssetOf(dirPath: string, name: string): Asset
  {
    Asset(name, dirPath, WithoutExtension(name) + AssetbundleExt)
  }

  /** The assets GetAssetFileList makes for the files `names` of folder `dirPath`. */
  function FileAssets(dirPath: string, names: seq<string>): seq<Asset>
  {
    if names == [] then []
    else
      var name := names[|names| - 1];
      FileAssets(dirPath, names[..|names| - 1]) + (if NotMeta(name) then [AssetOf(dirPath, name)] else [])
  }

  /**
   * A folder's assets are exactly its non-".meta" files, each named after
   * the file without its extension plus ".unity3d".
   */
  lemma {:induction false} FileAssetsSound(dirPath: string, names: seq<string>)
    ensures forall a :: a in FileAssets(dirPath, names) ==>
      a.fileName in names && NotMeta(a.fileName) && a.fileDir == dirPath &&
      a.exportName == WithoutExtension(a.fileName) + AssetbundleExt
    ensures |FileAssets(dirPath, names)| <= |names|
  {
    if names != [] {
      var init := names[..|names| - 1];
      FileAssetsSound(dirPath, init);
      forall a | a in FileAssets(dirPath, names)
        ensures a.fileName in names
      {
        if a in FileAssets(dirPath, init) {
          assert a.fileName in init;
        }
      }
    }
  }

  /** Every non-".meta" file of the folder has its asset. */
  lemma FileAssetsComplete(dirPath: string, names: seq<string>)
    ensures forall i :: 0 <= i < |names| && NotMeta(names[i]) ==> AssetOf(dirPath, names[i]) in FileAssets(dirPath, names)
  {
    forall i | 0 <= i < |names| && NotMeta(names[i])
      ensures AssetOf(dirPath, names[i]) in FileAssets(dirPath, names)
    {
      FileAssetsHas(dirPath, names, i);
    }
  }

  /** The non-".meta" file at index `i` has its asset. */
  lemma {:induction false} FileAssetsHas(dirPath: string, names: seq<string>, i: nat)
    requires i < |names| && NotMeta(names[i])
    ensures AssetOf(dirPath, names[i]) in FileAssets(dirPath, names)
  {
    var init := names[..|names| - 1];
    var last := names[|names| - 1];
    var before := FileAssets(dirPath, init);
    if i < |init| {
      assert init[i] == names[i];
      FileAssetsHas(dirPath, init, i);
      assert FileAssets(dirPath, names) == before + (if NotMeta(last) then [AssetOf(dirPath, last)] else []);
    } else {
      assert NotMeta(last);
      assert FileAssets(dirPath, names) == before + [AssetOf(dirPath, last)];
    }
  }


  /** GetAssetFileList: one asset per non-".meta" file of the folder, in enumeration order. */
  method GetAssetFileList(dirPath: string, d: Dir) returns (assetList: seq<Asset>)
    ensures assetList == FileAssets(dirPath, d.files)
  {
    assetList := [];
    for i := 0 to |d.files|
      invariant assetList == FileAssets(dirPath, d.files[..i])
    {
      assert d.files[..i + 1][..i] == d.files[..i];
      var file := d.files[i];
      MetaExtension(file);
      if Extension(file) == ".meta" {
        continue;
      }
      assetList := assetList + [Asset(file, dirPath, WithoutExtension(file) + AssetbundleExt)];
    }
    assert d.files[..|d.files|] == d.files;
  }

  /** Every asset SearchAsset finds under `dir`, whose contents are `d`: the folder's own first, then each sub-folder's. */
  function AssetTree(dir: string, d: Dir): seq<Asset>
    decreases d, 1
  {
    FileAssets(dir, d.files) + AssetTreeFrom(dir, d, 0)
  }

  /** The assets under the sub-folders of `d` from the i-th on. */
  function AssetTreeFrom(dir: string, d: Dir, i: nat): seq<Asset>
    requires i <= |d.subdirs|
    decreases d, 0, |d.subdirs| - i
  {
    if i == |d.subdirs| then []
    else
      assert d.subdirs[i] in d.subdirs;
      AssetTree(dir + "/" + d.subdirs[i].name, d.subdirs[i]) + AssetTreeFrom(dir, d, i + 1)
  }

  /** SearchAsset: the folder's assets, then those of each sub-folder in turn. */
  method SearchAsset(currentDir: string, d: Dir) returns (retList: seq<Asset>)
    ensures retList == AssetTree(currentDir, d)
    decreases d
  {
    retList := GetAssetFileList(currentDir, d);
    var i := 0;
    while i < |d.subdirs|
      invariant i <= |d.subdirs|
      invariant retList + AssetTreeFrom(currentDir, d, i) == AssetTree(currentDir, d)
    {
      assert d.subdirs[i] in d.subdirs;
      var sub := d.subdirs[i];
      var subDirList := SearchAsset(currentDir + "/" + sub.name, sub);
      assert retList + AssetTreeFrom(currentDir, d, i) == (retList + subDirList) + AssetTreeFrom(currentDir, d, i + 1);
      retList := retList + subDirList;
      i := i + 1;
    }
  }

  /** `p` is the folder `dir` or lies beneath it. */
  predicate Beneath(p: string, dir: string)
  {
    p == dir || (|dir| + 1 <= |p| && p[..|dir| + 1] == dir + "/")
  }

  /**
   * Every asset found under a folder is a non-".meta" file of that folder or
   * one beneath it, named after the file, and no file yields two assets.
   */
  lemma {:induction false} AssetTreeSound(dir: string, d: Dir)
    ensures forall a :: a in AssetTree(dir, d) ==>
      NotMeta(a.fileName) && a.exportName == WithoutExtension(a.fileName) + AssetbundleExt && Beneath(a.fileDir, dir)
    ensures |AssetTree(dir, d)| <= FileCount(d)
    decreases d, 1
  {
    FileAssetsSound(dir, d.files);
    AssetTreeFromSound(dir, d, 0);
  }

  lemma {:induction false} AssetTreeFromSound(dir: string, d: Dir, i: nat)
    requires i <= |d.subdirs|
    ensures forall a :: a in AssetTreeFrom(dir, d, i) ==>
      NotMeta(a.fileName) && a.exportName == WithoutExtension(a.fileName) + AssetbundleExt && Beneath(a.fileDir, dir)
    ensures |AssetTreeFrom(dir, d, i)| <= FileCountFrom(d, i)
    decreases d, 0, |d.subdirs| - i
  {
    if i < |d.subdirs| {
      var sub := d.subdirs[i];
      assert sub in d.subdirs;
      var subDir := dir + "/" + sub.name;
      AssetTreeSound(subDir, sub);
      AssetTreeFromSound(dir, d, i + 1);
      forall a | a in AssetTree(subDir, sub)
        ensures Beneath(a.fileDir, dir)
      {
        var p := a.fileDir;
        if p != subDir {
          assert p[..|dir| + 1] == p[..|subDir| + 1][..|dir| + 1];
        }
      }
    }
  }

  /** The folder an asset is grouped under. */
  function FileDirOf(a: Asset): string
  {
    a.fileDir
  }

  /** GetAssetList: the assets under Asset, grouped by folder. */
  method GetAssetList(assetRoot: Dir) returns (retList: Dictionary<Asset>)
    ensures retList == Grouped(AssetTree(AssetDir, assetRoot), FileDirOf)
  {
    var list := SearchAsset(AssetDir, assetRoot);
    retList := GroupBy(list, FileDirOf);
  }

  // ----- Packs

  /** The asset path GetPackingFilePathList gives file `name` of folder `dir`. */
  function PackMember(dir: string, name: string): string
  {
    "Assets/" + Combine(dir, name)
  }

  /** The asset paths of the non-".meta" files `names` of folder `dir`. */
  function PackNames(dir: string, names: seq<string>): seq<string>
  {
    if names == [] then []
    else
      var name := names[|names| - 1];
      PackNames(dir, names[..|names| - 1]) + (if NotMeta(name) then [PackMember(dir, name)] else [])
  }

  /** Every asset path of a pack folder: its own files first, then each sub-folder's. */
  function PackFiles(dir: string, d: Dir): seq<string>
    decreases d, 1
  {
    PackNames(dir, d.files) + PackFilesFrom(dir, d, 0)
  }

  function PackFilesFrom(dir: string, d: Dir, i: nat): seq<string>
    requires i <= |d.subdirs|
    decreases d, 0, |d.subdirs| - i
  {
    if i == |d.subdirs| then []
    else
      assert d.subdirs[i] in d.subdirs;
      PackFiles(dir + "/" + d.subdirs[i].name, d.subdirs[i]) + PackFilesFrom(dir, d, i + 1)
  }

  /** The first loop of GetPackingFilePathList: the folder's own non-".meta" files as asset paths. */
  method ListPackNames(currentDir: string, files: seq<string>) returns (retList: seq<string>)
    ensures retList == PackNames(currentDir, files)
  {
    retList := [];
    for j := 0 to |files|
      invariant retList == PackNames(currentDir, files[..j])
    {
      assert files[..j + 1][..j] == files[..j];
      var file := files[j];
      MetaExtension(file);
      if Extension(file) == ".meta" {
        continue;
      }
      var filePath := Combine(currentDir, file);
      filePath := "Assets/" + filePath;
      retList := retList + [filePath];
    }
    assert files[..|files|] == files;
  }

  /** GetPackingFilePathList: the folder's own files, then those of each sub-folder in turn. */
  method GetPackingFilePathList(currentDir: string, d: Dir) returns (retList: seq<string>)
    ensures retList == PackFiles(currentDir, d)
    decreases d
  {
    retList := ListPackNames(currentDir, d.files);
    var i := 0;
    while i < |d.subdirs|
      invariant i <= |d.subdirs|
      invariant retList + PackFilesFrom(currentDir, d, i) == PackFiles(currentDir, d)
    {
      assert d.subdirs[i] in d.subdirs;
      var sub := d.subdirs[i];
      var retSubFileList := GetPackingFilePathList(currentDir + "/" + sub.name, sub);
      assert retList + PackFilesFrom(currentDir, d, i) == (retList + retSubFileList) + PackFilesFrom(currentDir, d, i + 1);
      retList := retList + retSubFileList;
      i := i + 1;
    }
  }

  lemma {:induction false} PackNamesCount(dir: string, names: seq<string>)
    ensures |PackNames(dir, names)| <= |names|
  {
    if names != [] {
      PackNamesCount(dir, names[..|names| - 1]);
    }
  }

  /** A pack folder lists at most one path per file beneath it. */
  lemma {:induction false} PackFilesCount(dir: string, d: Dir)
    ensures |PackFiles(dir, d)| <= FileCount(d)
    decreases d, 1
  {
    PackNamesCount(dir, d.files);
    PackFilesFromCount(dir, d, 0);
  }

  lemma {:induction false} PackFilesFromCount(dir: string, d: Dir, i: nat)
    requires i <= |d.subdirs|
    ensures |PackFilesFrom(dir, d, i)| <= FileCountFrom(d, i)
    decreases d, 0, |d.subdirs| - i
  {
    if i < |d.subdirs| {
      assert d.subdirs[i] in d.subdirs;
      PackFilesCount(dir + "/" + d.subdirs[i].name, d.subdirs[i]);
      PackFilesFromCount(dir, d, i + 1);
    }
  }

  /** Each asset path listed for a folder's own files names one of its non-".meta" files. */
  lemma {:induction false} PackNamesSound(dir: string, names: seq<string>)
    ensures forall p :: p in PackNames(dir, names) ==>
      exists name :: name in names && NotMeta(name) && p == PackMember(dir, name)
  {
    if names != [] {
      var init := names[..|names| - 1];
      var last := names[|names| - 1];
      PackNamesSound(dir, init);
      forall p | p in PackNames(dir, names)
        ensures exists name :: name in names && NotMeta(name) && p == PackMember(dir, name)
      {
        if p in PackNames(dir, init) {
          var name :| name in init && NotMeta(name) && p == PackMember(dir, name);
          assert name in names;
        } else {
          assert NotMeta(last) && p == PackMember(dir, last);
          assert last in names;
        }
      }
    }
  }

  /**
   * Every asset path a pack folder lists is "Assets/" + the Combine of the
   * folder, or one beneath it, with a non-".meta" file name.
   */
  lemma {:induction false} PackFilesSound(dir: string, d: Dir)
    ensures forall p :: p in PackFiles(dir, d) ==>
      exists f, name :: Beneath(f, dir) && NotMeta(name) && p == PackMember(f, name)
    decreases d, 1
  {
    PackNamesSound(dir, d.files);
    PackFilesFromSound(dir, d, 0);
    forall p | p in PackNames(dir, d.files)
      ensures exists f, name :: Beneath(f, dir) && NotMeta(name) && p == PackMember(f, name)
    {
      var name :| name in d.files && NotMeta(name) && p == PackMember(dir, name);
      assert Beneath(dir, dir);
    }
  }

  lemma {:induction false} PackFilesFromSound(dir: string, d: Dir, i: nat)
    requires i <= |d.subdirs|
    ensures forall p :: p in PackFilesFrom(dir, d, i) ==>
      exists f, name :: Beneath(f, dir) && NotMeta(name) && p == PackMember(f, name)
    decreases d, 0, |d.subdirs| - i
  {
    if i < |d.subdirs| {
      var sub := d.subdirs[i];
      assert sub in d.subdirs;
      var subDir := dir + "/" + sub.name;
      PackFilesSound(subDir, sub);
      PackFilesFromSound(dir, d, i + 1);
      forall p | p in PackFiles(subDir, sub)
        ensures exists f, name :: Beneath(f, dir) && NotMeta(name) && p == PackMember(f, name)
      {
        var f, name :| Beneath(f, subDir) && NotMeta(name) && p == PackMember(f, name);
        if f != subDir {
          assert f[..|dir| + 1] == f[..|subDir| + 1][..|dir| + 1];
        }
        assert Beneath(f, dir);
      }
    }
  }

  /** A pack's FilePackDir: the path before its last '/', or the whole path without one. */
  function PackDir(currentDir: string): string
  {
    var index := LastIndexOf(currentDir, '/');
    if index < 0 then currentDir else currentDir[..index]
  }

  /** The last '/'-separated piece of a path. */
  function LastSegment(currentDir: string): string
  {
    var dirList := Split(currentDir, '/');
    dirList[|dirList| - 1]
  }

  /** A pack's ExportName: the folder's own name with every "Pack_" removed, plus ".unity3d". */
  function PackExportName(currentDir: string): string
  {
    RemoveAll(LastSegment(currentDir), AssetPackPrefix) + AssetbundleExt
  }

  /** What CreatePackingAsset makes of folder `currentDir` whose asset paths are `files`: nothing without files. */
  function PackFor(currentDir: string, files: seq<string>): Option<AssetPack>
  {
    if |files| == 0 then None
    else Some(AssetPack(files, PackDir(currentDir), PackExportName(currentDir)))
  }

  /**
   * The pack folder `parent/name` is split at its last '/': the pack is
   * filed under `parent` and named after `name`.
   */
  lemma PackOfSubfolder(parent: string, name: string)
    requires '/' !in name
    ensures PackDir(parent + "/" + name) == parent
    ensures LastSegment(parent + "/" + name) == name
  {
    var path := parent + "/" + name;
    var i := |parent|;
    assert path[i] == '/';
    assert path[..i] == parent;
    assert path[i + 1..] == name;
    LastIndexOfAt(path, '/', i);
    SplitLastPiece(path, '/');
  }

  /** CreatePackingAsset: null when the folder has no files; otherwise the pack, filed and named by its path. */
  method CreatePackingAsset(currentDir: string, d: Dir) returns (assetPack: Option<AssetPack>)
    ensures assetPack == PackFor(currentDir, PackFiles(currentDir, d))
  {
    var assetFileList := GetPackingFilePathList(currentDir, d);
    if |assetFileList| == 0 {
      return None;
    }
    assetPack := Some(AssetPack(assetFileList, PackDir(currentDir), PackExportName(currentDir)));
  }

  /** The pack made of a Pack_ folder, if any, as a list of zero or one. */
  function PackList(p: Option<AssetPack>): seq<AssetPack>
  {
    match p
    case None => []
    case Some(pack) => [pack]
  }

  /**
   * Every pack SearchPackingAsset finds under `dir`: a sub-folder whose
   * name contains "Pack_" gives its pack and is not searched further; any
   * other sub-folder is searched.
   */
  function PackSearch(dir: string, d: Dir): seq<AssetPack>
    decreases d, 1
  {
    PackSearchFrom(dir, d, 0)
  }

  function PackSearchFrom(dir: string, d: Dir, i: nat): seq<AssetPack>
    requires i <= |d.subdirs|
    decreases d, 0, |d.subdirs| - i
  {
    if i == |d.subdirs| then []
    else
      assert d.subdirs[i] in d.subdirs;
      var sub := d.subdirs[i];
      var subDirectory := dir + "/" + sub.name;
      (if Contains(sub.name, AssetPackPrefix) then PackList(PackFor(subDirectory, PackFiles(subDirectory, sub)))
       else PackSearch(subDirectory, sub)) + PackSearchFrom(dir, d, i + 1)
  }

  /** SearchPackingAsset over the sub-folders of `currentDir`. */
  method SearchPackingAsset(currentDir: string, d: Dir) returns (assetList: seq<AssetPack>)
    ensures assetList == PackSearch(currentDir, d)
    decreases d
  {
    assetList := [];
    var i := 0;
    while i < |d.subdirs|
      invariant i <= |d.subdirs|
      invariant assetList + PackSearchFrom(currentDir, d, i) == PackSearch(currentDir, d)
    {
      assert d.subdirs[i] in d.subdirs;
      var sub := d.subdirs[i];
      var dirName := sub.name;
      var subDirectory := currentDir + "/" + dirName;
      var found: seq<AssetPack>;
      if Contains(dirName, AssetPackPrefix) {
        var assetPack := CreatePackingAsset(subDirectory, sub);
        found := if assetPack.Some? then [assetPack.value] else [];
        assert found == PackList(assetPack);
      } else {
        found := SearchPackingAsset(subDirectory, sub);
      }
      assert PackSearchFrom(currentDir, d, i) == found + PackSearchFrom(currentDir, d, i + 1);
      AppendAfter(assetList, found, PackSearchFrom(currentDir, d, i + 1));
      assetList := assetList + found;
      i := i + 1;
    }
  }

  /** A folder with files gives one pack holding them, named with ".unity3d"; one without gives none. */
  lemma PackForSound(currentDir: string, files: seq<string>)
    ensures forall p :: p in PackList(PackFor(currentDir, files)) ==> p.filePathList != [] && EndsWith(p.exportName, AssetbundleExt)
    ensures Members(PackList(PackFor(currentDir, files))) == |files|
  {
    if files != [] {
      var name := RemoveAll(LastSegment(currentDir), AssetPackPrefix);
      assert (name + AssetbundleExt)[|name|..] == AssetbundleExt;
      assert Members(PackList(PackFor(currentDir, files))) == |files| + Members([]);
    }
  }

  /** The number of asset paths in the packs. */
  function Members(packs: seq<AssetPack>): nat
  {
    if packs == [] then 0 else |packs[0].filePathList| + Members(packs[1..])
  }

  lemma {:induction false} MembersAppend(a: seq<AssetPack>, b: seq<AssetPack>)
    ensures Members(a + b) == Members(a) + Members(b)
  {
    if a != [] {
      assert (a + b)[0] == a[0];
      assert (a + b)[1..] == a[1..] + b;
      MembersAppend(a[1..], b);
      assert Members(a + b) == |a[0].filePathList| + Members(a[1..] + b);
    } else {
      assert a + b == b;
    }
  }

  /**
   * No pack found is empty, every bundle name ends in ".unity3d", and the
   * packs together list no more paths than there are files: a Pack_ folder
   * is not searched again for packs nested inside it.
   */
  lemma {:induction false} PackSearchSound(dir: string, d: Dir)
    ensures forall p :: p in PackSearch(dir, d) ==> p.filePathList != [] && EndsWith(p.exportName, AssetbundleExt)
    ensures Members(PackSearch(dir, d)) <= FileCount(d)
    decreases d, 1
  {
    PackSearchFromSound(dir, d, 0);
  }

  lemma {:induction false} PackSearchFromSound(dir: string, d: Dir, i: nat)
    requires i <= |d.subdirs|
    ensures forall p :: p in PackSearchFrom(dir, d, i) ==> p.filePathList != [] && EndsWith(p.exportName, AssetbundleExt)
    ensures Members(PackSearchFrom(dir, d, i)) <= FileCountFrom(d, i)
    decreases d, 0, |d.subdirs| - i
  {
    if i < |d.subdirs| {
      var sub := d.subdirs[i];
      assert sub in d.subdirs;
      var subDirectory := dir + "/" + sub.name;
      var here := if Contains(sub.name, AssetPackPrefix) then PackList(PackFor(subDirectory, PackFiles(subDirectory, sub)))
                  else PackSearch(subDirectory, sub);
      PackSearchFromSound(dir, d, i + 1);
      MembersAppend(here, PackSearchFrom(dir, d, i + 1));
      if Contains(sub.name, AssetPackPrefix) {
        PackFilesCount(subDirectory, sub);
        PackForSound(subDirectory, PackFiles(subDirectory, sub));
      } else {
        PackSearchSound(subDirectory, sub);
      }
    }
  }

  /** The folder a pack is grouped under. */
  function PackDirOf(p: AssetPack): string
  {
    p.filePackDir
  }

  /** GetAssetPackList: the packs under AssetPack, grouped by the folder holding each. */
  method GetAssetPackList(packRoot: Dir) returns (retList: Dictionary<AssetPack>)
    ensures retList == Grouped(PackSearch(AssetPackList, packRoot), PackDirOf)
  {
    var assetList := SearchPackingAsset(AssetPackList, packRoot);
    retList := GroupBy(assetList, PackDirOf);
  }

  // ----- Build requests

  /** The bundle list BuildAsset makes for one folder's assets: one bundle per asset holding that file. */
  function AssetBuildsOf(assets: seq<Asset>): seq<AssetBundleBuild>
  {
    seq(|assets|, i requires 0 <= i < |assets| =>
      AssetBundleBuild(assets[i].exportName, ["Assets/" + assets[i].fileDir + "/" + assets[i].fileName]))
  }

  /** The bundle list BuildAssetPack makes for one folder's packs: one bundle per pack holding its files. */
  function PackBuildsOf(packs: seq<AssetPack>): seq<AssetBundleBuild>
  {
    seq(|packs|, i requires 0 <= i < |packs| => AssetBundleBuild(packs[i].exportName, packs[i].filePathList))
  }

  function AssetGroupBuilds(values: map<string, seq<Asset>>): map<string, seq<AssetBundleBuild>>
  {
    map k | k in values :: AssetBuildsOf(values[k])
  }

  function PackGroupBuilds(values: map<string, seq<AssetPack>>): map<string, seq<AssetBundleBuild>>
  {
    map k | k in values :: PackBuildsOf(values[k])
  }

  /** The loop over a folder's assets in BuildAsset. */
  method ListAssetBuilds(assets: seq<Asset>) returns (buildAssetList: seq<AssetBundleBuild>)
    ensures buildAssetList == AssetBuildsOf(assets)
  {
    buildAssetList := [];
    for i := 0 to |assets|
      invariant buildAssetList == AssetBuildsOf(assets[..i])
    {
      var o := assets[i];
      var filePath := "Assets/" + o.fileDir + "/" + o.fileName;
      buildAssetList := buildAssetList + [AssetBundleBuild(o.exportName, [filePath])];
    }
    assert assets[..|assets|] == assets;
  }

  /** The loop over a folder's packs in BuildAssetPack. */
  method ListPackBuilds(packs: seq<AssetPack>) returns (buildAssetList: seq<AssetBundleBuild>)
    ensures buildAssetList == PackBuildsOf(packs)
  {
    buildAssetList := [];
    for i := 0 to |packs|
      invariant buildAssetList == PackBuildsOf(packs[..i])
    {
      var o := packs[i];
      buildAssetList := buildAssetList + [AssetBundleBuild(o.exportName, o.filePathList)];
    }
    assert packs[..|packs|] == packs;
  }

  /** The build target of a single platform. */
  function TargetOf(buildType: BuildType): BuildTarget
    requires buildType != All
  {
    match buildType
    case iOS => TargetiOS
    case Android => TargetAndroid
    case Windows => StandaloneWindows64
  }

  /** The platform whose output folder a build target writes to. */
  function PlatformOf(target: BuildTarget): BuildType
  {
    match target
    case TargetiOS => iOS
    case TargetAndroid => Android
    case StandaloneWindows64 => Windows
  }

  /**
   * The builds one folder's bundle list gives: none for an empty list, one
   * for the chosen platform, or iOS, Android and Windows in turn for All.
   */
  function Dispatch(buildType: BuildType, key: string, builds: seq<AssetBundleBuild>): seq<BuildRequest>
  {
    if builds == [] then []
    else
      var ios := BuildRequest(GetOutputDir(iOS, key), builds, TargetiOS);
      var android := BuildRequest(GetOutputDir(Android, key), builds, TargetAndroid);
      var windows := BuildRequest(GetOutputDir(Windows, key), builds, StandaloneWindows64);
      match buildType
      case iOS => [ios]
      case Android => [android]
      case Windows => [windows]
      case All => [ios, android, windows]
  }

  /** The builds for the folders `keys` in order. */
  function Requests(buildType: BuildType, keys: seq<string>, builds: map<string, seq<AssetBundleBuild>>): seq<BuildRequest>
  {
    if keys == [] then []
    else
      var k := keys[|keys| - 1];
      Requests(buildType, keys[..|keys| - 1], builds) + Dispatch(buildType, k, ListOf(builds, k))
  }

  /** The bundle list of folder `k`; a folder without one has none. */
  function ListOf(builds: map<string, seq<AssetBundleBuild>>, k: string): seq<AssetBundleBuild>
  {
    if k in builds then builds[k] else []
  }

  /** How many builds one non-empty folder gives. */
  function Copies(buildType: BuildType): nat
  {
    if buildType == All then 3 else 1
  }

  /** The number of folders with a non-empty bundle list. */
  function NonEmptyFolders(keys: seq<string>, builds: map<string, seq<AssetBundleBuild>>): nat
  {
    if keys == [] then 0
    else NonEmptyFolders(keys[..|keys| - 1], builds) + (if ListOf(builds, keys[|keys| - 1]) == [] then 0 else 1)
  }

  /**
   * Each build carries a non-empty bundle list of one folder into that
   * folder's output folder for the build's own platform; a single build type
   * only ever builds for its own platform.
   */
  lemma {:induction false} RequestsSound(buildType: BuildType, keys: seq<string>, builds: map<string, seq<AssetBundleBuild>>)
    ensures forall r :: r in Requests(buildType, keys, builds) ==>
      r.builds != [] && (buildType != All ==> r.target == TargetOf(buildType)) &&
      exists k :: k in keys && k in builds && r.builds == builds[k] && r.outputPath == GetOutputDir(PlatformOf(r.target), k)
  {
    if keys != [] {
      var init := keys[..|keys| - 1];
      var k := keys[|keys| - 1];
      RequestsSound(buildType, init, builds);
      forall r | r in Requests(buildType, keys, builds)
        ensures r.builds != [] && (buildType != All ==> r.target == TargetOf(buildType)) &&
          exists k :: k in keys && k in builds && r.builds == builds[k] && r.outputPath == GetOutputDir(PlatformOf(r.target), k)
      {
        if r in Requests(buildType, init, builds) {
          var j :| j in init && j in builds && r.builds == builds[j] && r.outputPath == GetOutputDir(PlatformOf(r.target), j);
          assert j in keys;
        } else {
          assert k in keys;
        }
      }
    }
  }

  /** A single platform gives one build per non-empty folder, All three. */
  lemma {:induction false} RequestsCount(buildType: BuildType, keys: seq<string>, builds: map<string, seq<AssetBundleBuild>>)
    ensures |Requests(buildType, keys, builds)| == Copies(buildType) * NonEmptyFolders(keys, builds)
  {
    if keys != [] {
      RequestsCount(buildType, keys[..|keys| - 1], builds);
    }
  }

  /** The folders BuildAsset and BuildAssetPack create for `keys`: every platform's, whatever the build type. */
  function KeyDirs(keys: seq<string>): set<string>
  {
    if keys == [] then {}
    else
      var k := keys[|keys| - 1];
      KeyDirs(keys[..|keys| - 1]) + FolderDirs(k)
  }

  /** The folders created at the start of one folder's turn: Android's, iOS's and Windows's output folders. */
  function FolderDirs(key: string): set<string>
  {
    OutputDirsOf(Android, key) + OutputDirsOf(iOS, key) + OutputDirsOf(Windows, key)
  }

  /** Adding sets one after the other adds their union. */
  lemma UnionAfter(before: set<string>, made: set<string>, more: set<string>)
    ensures before + made + more == before + (made + more)
  {
  }

  /** Every platform's output folder for every clean folder key exists after the build loop. */
  lemma {:induction false} KeyDirsHoldOutputs(keys: seq<string>)
    ensures forall k, p :: k in keys && CleanPath(k) && p != All ==> GetOutputDir(p, k) in KeyDirs(keys)
  {
    if keys != [] {
      var init := keys[..|keys| - 1];
      KeyDirsHoldOutputs(init);
      forall k, p | k in keys && CleanPath(k) && p != All
        ensures GetOutputDir(p, k) in KeyDirs(keys)
      {
        if k !in init {
          OutputDirReached(p, k);
          assert GetOutputDir(p, k) in FolderDirs(k);
        }
      }
    }
  }

  /** The calls made to BuildPipeline.BuildAssetBundles, in order. */
  class BuildLog {
    var requests: seq<BuildRequest>

    constructor ()
      ensures requests == []
    {
      requests := [];
    }

    /** BuildPipeline.BuildAssetBundles(outputPath, builds, options, target). */
    method BuildAssetBundles(outputPath: string, builds: seq<AssetBundleBuild>, target: BuildTarget)
      modifies this
      ensures requests == old(requests) + [BuildRequest(outputPath, builds, target)]
    {
      requests := requests + [BuildRequest(outputPath, builds, target)];
    }
  }

  /**
   * The end of each folder's turn in BuildAsset and BuildAssetPack: an empty
   * list is skipped with a warning; otherwise the list is built for the
   * chosen platform, or for iOS, Android and Windows for All.
   */
  method BuildFolder(log: BuildLog, buildType: BuildType, key: string, buildAssetList: seq<AssetBundleBuild>)
    modifies log
    ensures log.requests == old(log.requests) + Dispatch(buildType, key, buildAssetList)
  {
    if |buildAssetList| == 0 {
      return;
    }
    var iosOutputDir := GetOutputDir(iOS, key);
    var androidOutputDir := GetOutputDir(Android, key);
    var windowsOutputDir := GetOutputDir(Windows, key);
    if buildType == iOS {
      log.BuildAssetBundles(iosOutputDir, buildAssetList, TargetiOS);
    } else if buildType == Android {
      log.BuildAssetBundles(androidOutputDir, buildAssetList, TargetAndroid);
    } else if buildType == Windows {
      log.BuildAssetBundles(windowsOutputDir, buildAssetList, StandaloneWindows64);
    } else if buildType == All {
      log.BuildAssetBundles(iosOutputDir, buildAssetList, TargetiOS);
      log.BuildAssetBundles(androidOutputDir, buildAssetList, TargetAndroid);
      log.BuildAssetBundles(windowsOutputDir, buildAssetList, StandaloneWindows64);
    }
  }

  /** The three CreateOutputDirectory calls that start each folder's turn. */
  method CreateOutputDirectories(disk: Disk, key: string)
    modifies disk
    ensures disk.dirs == old(disk.dirs) + FolderDirs(key)
    ensures disk.listing == old(disk.listing) && disk.texts == old(disk.texts)
  {
    CreateOutputDirectory(disk, Android, key);
    CreateOutputDirectory(disk, iOS, key);
    CreateOutputDirectory(disk, Windows, key);
  }

  /** One more folder: its builds follow those of the folders before it, and its output folders join theirs. */
  lemma FolderStep(buildType: BuildType, keys: seq<string>, builds: map<string, seq<AssetBundleBuild>>, i: nat)
    requires i < |keys|
    ensures Requests(buildType, keys[..i + 1], builds) == Requests(buildType, keys[..i], builds) + Dispatch(buildType, keys[i], ListOf(builds, keys[i]))
    ensures KeyDirs(keys[..i + 1]) == KeyDirs(keys[..i]) + FolderDirs(keys[i])
  {
    assert keys[..i + 1][..i] == keys[..i];
  }

  /** One folder's turn in BuildAsset. */
  method BuildAssetFolder(log: BuildLog, disk: Disk, buildType: BuildType, key: string, assets: seq<Asset>)
    modifies log, disk
    ensures log.requests == old(log.requests) + Dispatch(buildType, key, AssetBuildsOf(assets))
    ensures disk.dirs == old(disk.dirs) + FolderDirs(key)
    ensures disk.listing == old(disk.listing) && disk.texts == old(disk.texts)
  {
    CreateOutputDirectories(disk, key);
    var buildAssetList := ListAssetBuilds(assets);
    BuildFolder(log, buildType, key, buildAssetList);
  }

  /** One folder's turn in BuildAssetPack. */
  method BuildPackFolder(log: BuildLog, disk: Disk, buildType: BuildType, key: string, packs: seq<AssetPack>)
    modifies log, disk
    ensures log.requests == old(log.requests) + Dispatch(buildType, key, PackBuildsOf(packs))
    ensures disk.dirs == old(disk.dirs) + FolderDirs(key)
    ensures disk.listing == old(disk.listing) && disk.texts == old(disk.texts)
  {
    CreateOutputDirectories(disk, key);
    var buildAssetList := ListPackBuilds(packs);
    BuildFolder(log, buildType, key, buildAssetList);
  }

  /**
   * BuildAsset: for each folder in enumeration order, every platform's
   * output folder is created and the folder's assets are built; the result
   * is always true.
   */
  method BuildAsset(log: BuildLog, disk: Disk, buildType: BuildType, assetList: Dictionary<Asset>) returns (ok: bool)
    requires forall k :: k in assetList.keys ==> k in assetList.values
    modifies log, disk
    ensures ok
    ensures log.requests == old(log.requests) + Requests(buildType, assetList.keys, AssetGroupBuilds(assetList.values))
    ensures disk.dirs == old(disk.dirs) + KeyDirs(assetList.keys)
    ensures disk.listing == old(disk.listing) && disk.texts == old(disk.texts)
  {
    var keys := assetList.keys;
    ghost var builds := AssetGroupBuilds(assetList.values);
    ghost var requests0, dirs0, listing0, texts0 := log.requests, disk.dirs, disk.listing, disk.texts;
    for i := 0 to |keys|
      invariant log.requests == requests0 + Requests(buildType, keys[..i], builds)
      invariant disk.dirs == dirs0 + KeyDirs(keys[..i])
      invariant disk.listing == listing0 && disk.texts == texts0
    {
      var key := keys[i];
      FolderStep(buildType, keys, builds, i);
      assert ListOf(builds, key) == AssetBuildsOf(assetList.values[key]);
      AppendAfter(requests0, Requests(buildType, keys[..i], builds), Dispatch(buildType, key, ListOf(builds, key)));
      UnionAfter(dirs0, KeyDirs(keys[..i]), FolderDirs(key));
      BuildAssetFolder(log, disk, buildType, key, assetList.values[key]);
    }
    assert keys[..|keys|] == keys;
    ok := true;
  }

  /**
   * BuildAssetPack: for each folder in enumeration order, every platform's
   * output folder is created and the folder's packs are built; the result
   * is always true.
   */
  method BuildAssetPack(log: BuildLog, disk: Disk, buildType: BuildType, assetList: Dictionary<AssetPack>) returns (ok: bool)
    requires forall k :: k in assetList.keys ==> k in assetList.values
    modifies log, disk
    ensures ok
    ensures log.requests == old(log.requests) + Requests(buildType, assetList.keys, PackGroupBuilds(assetList.values))
    ensures disk.dirs == old(disk.dirs) + KeyDirs(assetList.keys)
    ensures disk.listing == old(disk.listing) && disk.texts == old(disk.texts)
  {
    var keys := assetList.keys;
    ghost var builds := PackGroupBuilds(assetList.values);
    ghost var requests0, dirs0, listing0, texts0 := log.requests, disk.dirs, disk.listing, disk.texts;
    for i := 0 to |keys|
      invariant log.requests == requests0 + Requests(buildType, keys[..i], builds)
      invariant disk.dirs == dirs0 + KeyDirs(keys[..i])
      invariant disk.listing == listing0 && disk.texts == texts0
    {
      var key := keys[i];
      FolderStep(buildType, keys, builds, i);
      assert ListOf(builds, key) == PackBuildsOf(assetList.values[key]);
      AppendAfter(requests0, Requests(buildType, keys[..i], builds), Dispatch(buildType, key, ListOf(builds, key)));
      UnionAfter(dirs0, KeyDirs(keys[..i]), FolderDirs(key));
      BuildPackFolder(log, disk, buildType, key, assetList.values[key]);
    }
    assert keys[..|keys|] == keys;
    ok := true;
  }

  // ----- Version file

  /** The bundle a manifest describes: its path with every ".manifest" removed. */
  function Stripped(file: string): string
  {
    RemoveAll(file, AssetbundleManifestExt)
  }

  /** A manifest is listed when its bundle path contains ".unity3d" and the bundle exists. */
  predicate Kept(file: string, bundleExists: string -> bool)
  {
    Contains(Stripped(file), AssetbundleExt) && bundleExists(Stripped(file))
  }

  /** A listed manifest's entry: the bundle path with the output folder removed, and the manifest's CRC. */
  function EntryOf(outDir: string, file: string, crcOf: string -> string): FileVersion
    requires outDir != ""
  {
    FileVersion(RemoveAll(Stripped(file), outDir), crcOf(file))
  }

  /** The entries for the manifests `files`, in enumeration order. */
  function VersionEntries(outDir: string, files: seq<string>, bundleExists: string -> bool, crcOf: string -> string): seq<FileVersion>
    requires outDir != ""
  {
    if files == [] then []
    else
      var f := files[|files| - 1];
      VersionEntries(outDir, files[..|files| - 1], bundleExists, crcOf) +
        (if Kept(f, bundleExists) then [EntryOf(outDir, f, crcOf)] else [])
  }

  /** An entry is listed exactly when some enumerated manifest is kept and gives it. */
  lemma {:induction false} VersionEntriesExactly(outDir: string, files: seq<string>, bundleExists: string -> bool, crcOf: string -> string)
    requires outDir != ""
    ensures forall e :: e in VersionEntries(outDir, files, bundleExists, crcOf) <==>
      exists f :: f in files && Kept(f, bundleExists) && e == EntryOf(outDir, f, crcOf)
    ensures |VersionEntries(outDir, files, bundleExists, crcOf)| <= |files|
  {
    if files != [] {
      var init := files[..|files| - 1];
      VersionEntriesExactly(outDir, init, bundleExists, crcOf);
      assert files == init + [files[|files| - 1]];
    }
  }

  /** Entries follow the enumeration: the entries of two runs of manifests are those of each, in turn. */
  lemma {:induction false} VersionEntriesAppend(outDir: string, a: seq<string>, b: seq<string>, bundleExists: string -> bool, crcOf: string -> string)
    requires outDir != ""
    ensures VersionEntries(outDir, a + b, bundleExists, crcOf) ==
      VersionEntries(outDir, a, bundleExists, crcOf) + VersionEntries(outDir, b, bundleExists, crcOf)
  {
    if b != [] {
      var init := b[..|b| - 1];
      VersionEntriesAppend(outDir, a, init, bundleExists, crcOf);
      assert (a + b)[..|a + b| - 1] == a + init;
    } else {
      assert a + b == a;
    }
  }

  /** The foreign inputs of CreateAssetbundleVersionFile. */
  datatype VersionSources = VersionSources(
    /** Directory.GetFiles(dir, "*.manifest", AllDirectories). */
    manifestsUnder: string -> seq<string>,
    /** File.Exists. */
    bundleExists: string -> bool,
    /** The CRC read from a manifest's YAML. */
    crcOf: string -> string,
    /** The YAML serialiser applied to the ResourceVersion. */
    serialize: seq<FileVersion> -> string)

  /** Where a platform's version file goes. */
  function VersionFilePath(buildType: BuildType): string
  {
    Combine(GetOutputDir(buildType, ""), VersionListFileName)
  }

  /** The text of a platform's version file. */
  function VersionText(buildType: BuildType, src: VersionSources): string
  {
    var outDir := GetOutputDir(buildType, "");
    OutputDirShapes("");
    src.serialize(VersionEntries(outDir, src.manifestsUnder(outDir), src.bundleExists, src.crcOf))
  }

  /** The three platforms' version files are distinct files. */
  lemma VersionFilesApart()
    ensures VersionFilePath(iOS) != VersionFilePath(Android)
    ensures VersionFilePath(Android) != VersionFilePath(Windows)
    ensures VersionFilePath(iOS) != VersionFilePath(Windows)
  {
    OutputDirShapes("");
    assert VersionFilePath(iOS)[7] == 'i';
    assert VersionFilePath(Android)[7] == 'A';
    assert VersionFilePath(Windows)[7] == 'W';
  }

  /** The texts after a platform's version file is written, when that call got as far as writing it. */
  function VersionWritten(texts: map<string, string>, buildType: BuildType, ran: bool, src: VersionSources): map<string, string>
  {
    if ran then texts[VersionFilePath(buildType) := VersionText(buildType, src)] else texts
  }

  /**
   * CreateAssetbundleVersionFile: each enumerated manifest whose bundle
   * exists gives an entry, and the serialised list is written to version.txt
   * in the platform's output folder. When that folder does not exist
   * Directory.GetFiles throws before anything is written; `thrown` says so.
   */
  method CreateAssetbundleVersionFile(disk: Disk, buildType: BuildType, src: VersionSources) returns (thrown: bool)
    modifies disk
    ensures thrown <==> GetOutputDir(buildType, "") !in old(disk.dirs)
    ensures disk.texts == VersionWritten(old(disk.texts), buildType, !thrown, src)
    ensures disk.dirs == old(disk.dirs) && disk.listing == old(disk.listing)
  {
    var outputForDir := GetOutputDir(buildType, "");
    if outputForDir !in disk.dirs {
      return true;
    }
    thrown := false;
    OutputDirShapes("");
    var fileList := src.manifestsUnder(outputForDir);
    var versionList: seq<FileVersion> := [];
    for i := 0 to |fileList|
      invariant versionList == VersionEntries(outputForDir, fileList[..i], src.bundleExists, src.crcOf)
    {
      assert fileList[..i + 1][..i] == fileList[..i];
      var file := fileList[i];
      var assetbundle := RemoveAll(file, AssetbundleManifestExt);
      if Contains(assetbundle, AssetbundleExt) && src.bundleExists(assetbundle) {
        assetbundle := RemoveAll(assetbundle, outputForDir);
        versionList := versionList + [FileVersion(assetbundle, src.crcOf(file))];
      }
    }
    assert fileList[..|fileList|] == fileList;
    disk.WriteText(src.serialize(versionList), Combine(outputForDir, VersionListFileName));
  }

  /** A platform's output folder is among those the build loop makes exactly when there is some folder key. */
  lemma KeyDirsHoldRoot(keys: seq<string>, p: BuildType)
    requires p != All
    ensures GetOutputDir(p, "") in KeyDirs(keys) <==> keys != []
  {
    if keys != [] {
      var k := keys[|keys| - 1];
      assert GetOutputDir(p, "") in OutputDirsOf(p, k);
      assert GetOutputDir(p, "") in FolderDirs(k);
    }
  }

  // ----- Menu commands

  /**
   * BuildAll: the asset lists are gathered but nothing is built; the iOS,
   * Android and Windows version files are written in that order. Gathering
   * throws when the Asset or AssetPack folder is missing (`None`), before any
   * version file; otherwise the first platform whose output folder is
   * missing throws, leaving the later ones unwritten.
   */
  method BuildAll(disk: Disk, assetRoot: Option<Dir>, packRoot: Option<Dir>, src: VersionSources) returns (thrown: bool)
    modifies disk
    ensures var found := assetRoot.Some? && packRoot.Some?;
      var ri := found && GetOutputDir(iOS, "") in old(disk.dirs);
      var ra := ri && GetOutputDir(Android, "") in old(disk.dirs);
      var rw := ra && GetOutputDir(Windows, "") in old(disk.dirs);
      thrown == !rw &&
      disk.texts == VersionWritten(VersionWritten(VersionWritten(old(disk.texts), iOS, ri, src), Android, ra, src), Windows, rw, src)
    ensures disk.dirs == old(disk.dirs) && disk.listing == old(disk.listing)
  {
    if assetRoot.None? {
      return true;
    }
    var fileList := GetAssetList(assetRoot.value);
    if packRoot.None? {
      return true;
    }
    var filePackList := GetAssetPackList(packRoot.value);
    thrown := CreateAssetbundleVersionFile(disk, iOS, src);
    if thrown {
      return;
    }
    thrown := CreateAssetbundleVersionFile(disk, Android, src);
    if thrown {
      return;
    }
    thrown := CreateAssetbundleVersionFile(disk, Windows, src);
  }

  /**
   * BuildForiOS, BuildForAndroid and BuildForWindows: the assets, then the
   * packs, are built for the one platform, and its version file is written.
   * A missing Asset folder (`None`) throws before anything is built, and a
   * missing AssetPack folder throws after the assets are built. The build
   * makes the platform's output folder only when there is some asset or
   * pack folder; with neither, and no output folder already, the version
   * file step throws.
   */
  method BuildForPlatform(log: BuildLog, disk: Disk, buildType: BuildType, assetRoot: Option<Dir>, packRoot: Option<Dir>,
                          src: VersionSources)
    returns (thrown: bool)
    requires buildType != All
    modifies log, disk
    ensures assetRoot.None? ==> thrown && log.requests == old(log.requests) && disk.dirs == old(disk.dirs)
    ensures assetRoot.Some? ==>
      var assets := Grouped(AssetTree(AssetDir, assetRoot.value), FileDirOf);
      var built := old(log.requests) + Requests(buildType, assets.keys, AssetGroupBuilds(assets.values));
      var made := old(disk.dirs) + KeyDirs(assets.keys);
      (packRoot.None? ==> thrown && log.requests == built && disk.dirs == made) &&
      (packRoot.Some? ==>
        var packs := Grouped(PackSearch(AssetPackList, packRoot.value), PackDirOf);
        log.requests == built + Requests(buildType, packs.keys, PackGroupBuilds(packs.values)) &&
        disk.dirs == made + KeyDirs(packs.keys) &&
        (thrown <==> GetOutputDir(buildType, "") !in old(disk.dirs) && assets.keys == [] && packs.keys == []))
    ensures disk.texts == VersionWritten(old(disk.texts), buildType, !thrown, src)
    ensures disk.listing == old(disk.listing)
  {
    if assetRoot.None? {
      return true;
    }
    var fileList := GetAssetList(assetRoot.value);
    var _ := BuildAsset(log, disk, buildType, fileList);
    if packRoot.None? {
      return true;
    }
    var filePackList := GetAssetPackList(packRoot.value);
    var _ := BuildAssetPack(log, disk, buildType, filePackList);
    KeyDirsHoldRoot(fileList.keys, buildType);
    KeyDirsHoldRoot(filePackList.keys, buildType);
    thrown := CreateAssetbundleVersionFile(disk, buildType, src);
  }
}
