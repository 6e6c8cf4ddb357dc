// AssetBundleUploaderTab: the editor window that lists the bundles, picks
// the server and the platform, and drives one uploader per platform.
module UploaderTab {
  import opened Targets
  import opened FileUtil
  import opened AssetBundleList
  import opened Upload

  /** A server offered in the window: its display name and its FTP URL. */
  datatype ResourceServer = ResourceServer(serverName: string, url: string)

  /** _resourceServerList: the three servers, indexed by ServerType. */
  const ResourceServerList: seq<ResourceServer> := [
    ResourceServer("Development Server", "ftp://static-zk.igg.com/AssetBundles"),
    ResourceServer("Staging Server", "ftp://static-zk.igg.com/AssetBundles"),
    ResourceServer("Production Server", "ftp://static-zk.igg.com/AssetBundles")
  ]

  /** The upload URL of the chosen server. */
  function ServerUrl(serverType: ServerType): string
  {
    ResourceServerList[ServerIndex(serverType)].url
  }

  /** All three servers share one URL, so the server choice never changes where files go. */
  lemma ServersShareUrl(a: ServerType, b: ServerType)
    ensures ServerUrl(a) == ServerUrl(b) == "ftp://static-zk.igg.com/AssetBundles"
  {
  }

  /** The bundles of one platform's build folder that are uploaded, as the disk lists them now. */
  function PlatformFiles(disk: Disk, dataPath: string, p: UploaderTarget): seq<string>
    reads disk
  {
    UploadFiles(disk.FilesUnder(BuildFolder(dataPath, p)))
  }

  /** The version text CreateAssetVersionFile produces for `files`. */
  function VersionText(files: seq<string>, now: string, hashOf: string -> string, toJson: AssetVersion -> string): string
  {
    toJson(AssetVersion(now, Items(files, hashOf)))
  }

  /** Where CreateAssetVersionFile writes a platform's version file. */
  function VersionFilePath(dataPath: string, target: UploaderTarget): string
  {
    BuildAssetFolderPath(dataPath, target) + "/" + VersionFileName
  }

  /** Each platform whose version file UploadProcess makes has fewer than 5 files, so that its item loop ends. */
  predicate FewFiles(disk: Disk, dataPath: string, target: UploaderTarget)
    reads disk
  {
    if target == All then
      |PlatformFiles(disk, dataPath, Windows)| < 5 && |PlatformFiles(disk, dataPath, Android)| < 5 &&
      |PlatformFiles(disk, dataPath, iOS)| < 5
    else |PlatformFiles(disk, dataPath, target)| < 5
  }

  /**
   * One platform's step of the `All` upload, from uploader state `s` to
   * `s2`: an upload of the platform's `files` has started when there are
   * any, and the uploader is as it was when there are none.
   */
  predicate StartedIfAny(s: UploaderState, s2: UploaderState, baseUrl: string, target: UploaderTarget,
                         versionFile: string, files: seq<string>)
  {
    (files != [] ==> Started(s, s2, baseUrl, target, versionFile, files)) &&
    (files == [] ==> s2 == s)
  }

  /** After a platform's step the uploader is uploading exactly when it was already or the platform had files. */
  lemma StartedIfAnyUploads(s: UploaderState, s2: UploaderState, baseUrl: string, target: UploaderTarget,
                            versionFile: string, files: seq<string>)
    requires StartedIfAny(s, s2, baseUrl, target, versionFile, files)
    ensures s2.isInUpload <==> s.isInUpload || files != []
  {
  }

  /**
   * Whether the `All` branch of UploadProcess gets through platform `p`'s
   * step: the steps run Windows, Android, iOS, and an exception in one
   * stops the rest, so `p`'s step and every earlier one must find or make
   * their version folders.
   */
  predicate AllStepRuns(dirs: set<string>, dataPath: string, p: UploaderTarget)
  {
    p != All && !VersionFolderFails(dirs, dataPath, Windows) &&
    (p != Windows ==> !VersionFolderFails(dirs, dataPath, Android)) &&
    (p == iOS ==> !VersionFolderFails(dirs, dataPath, iOS))
  }

  /** Whether UploadProcess throws: a single target when its folder fails, `All` when any of the three does. */
  predicate UploadThrows(dirs: set<string>, dataPath: string, target: UploaderTarget)
  {
    if target == All then !AllStepRuns(dirs, dataPath, iOS) else VersionFolderFails(dirs, dataPath, target)
  }

  /** Each step of `All` that runs needs every earlier one to have run. */
  lemma AllStepsInOrder(dirs: set<string>, dataPath: string)
    ensures AllStepRuns(dirs, dataPath, iOS) ==> AllStepRuns(dirs, dataPath, Android)
    ensures AllStepRuns(dirs, dataPath, Android) ==> AllStepRuns(dirs, dataPath, Windows)
    ensures !UploadThrows(dirs, dataPath, All) <==> AllStepRuns(dirs, dataPath, iOS)
  {
  }

  /** The folders after a platform's step: its version folder put in place when the step ran, nothing otherwise. */
  function MadeIf(dirs: set<string>, dataPath: string, p: UploaderTarget, ran: bool): set<string>
  {
    if ran then VersionFolderMade(dirs, dataPath, p) else dirs
  }

  /** The version files after a platform's step: its file written when the step ran, nothing otherwise. */
  function WrittenIf(texts: map<string, string>, path: string, ran: bool, text: string): map<string, string>
  {
    if ran then texts[path := text] else texts
  }

  /** A platform's step of `All`: StartedIfAny when it ran, the uploader untouched when an earlier step threw. */
  predicate StepOutcome(s: UploaderState, s2: UploaderState, ran: bool, baseUrl: string, target: UploaderTarget,
                        versionFile: string, files: seq<string>)
  {
    (ran ==> StartedIfAny(s, s2, baseUrl, target, versionFile, files)) && (!ran ==> s2 == s)
  }

  /** After a platform's step of `All` the uploader is uploading exactly when it was already or the step ran with files. */
  lemma StepOutcomeUploads(s: UploaderState, s2: UploaderState, ran: bool, baseUrl: string, target: UploaderTarget,
                           versionFile: string, files: seq<string>)
    requires StepOutcome(s, s2, ran, baseUrl, target, versionFile, files)
    ensures s2.isInUpload <==> s.isInUpload || (ran && files != [])
  {
    if ran {
      StartedIfAnyUploads(s, s2, baseUrl, target, versionFile, files);
    }
  }

  /** The target whose URLs an uploader uses in the `All` fan-out: the iOS uploader is given Android's. */
  function FanOutTarget(p: UploaderTarget): UploaderTarget
  {
    if p == iOS then Android else p
  }

  /** In the `All` fan-out the iOS uploader sends its version file to Android's version URL. */
  lemma IOSVersionFileGoesToAndroid(baseUrl: string)
    ensures VersionFileUrl(baseUrl, FanOutTarget(iOS)) == VersionFileUrl(baseUrl, Android)
    ensures VersionFileUrl(baseUrl, FanOutTarget(iOS)) != VersionFileUrl(baseUrl, iOS)
  {
    var a := VersionFileUrl(baseUrl, Android);
    var i := VersionFileUrl(baseUrl, iOS);
    assert |a| != |i|;
  }

  /** The uploader window. FtpUserName and FtpUserPassword are static in the window class; one window is modelled. */
  class AssetBundleUploaderTab {
    var ftpUserName: string
    var ftpUserPassword: string
    const currentUploaderData: AssetBundleList
    var currentUploaderTarget: UploaderTarget
    /** _uploaderList: one uploader per platform. */
    const windows: AssetBundleUploader
    const android: AssetBundleUploader
    const ios: AssetBundleUploader
    var serverType: ServerType

    /** The uploaders are three distinct objects, each consistent, with queues of their own. */
    ghost predicate Valid()
      reads windows, android, ios
    {
      windows != android && android != ios && windows != ios &&
      windows.Valid() && android.Valid() && ios.Valid() &&
      (windows.uploadAssetFileList == null ||
        (windows.uploadAssetFileList != android.uploadAssetFileList &&
         windows.uploadAssetFileList != ios.uploadAssetFileList)) &&
      (android.uploadAssetFileList == null || android.uploadAssetFileList != ios.uploadAssetFileList)
    }

    /** The uploader of one platform. */
    function UploaderFor(p: UploaderTarget): AssetBundleUploader
      requires p != All
    {
      match p
      case Windows => windows
      case Android => android
      case iOS => ios
    }

    /** Construction and OnEnable: the list shows Android's files and three idle uploaders exist. */
    constructor (dataPath: string, disk: Disk)
      ensures Valid()
      ensures fresh(currentUploaderData) && fresh(windows) && fresh(android) && fresh(ios)
      ensures ftpUserName == "user" && ftpUserPassword == "password"
      ensures currentUploaderTarget == Android && serverType == DevelopmentServer
      ensures currentUploaderData.dataPath == dataPath && currentUploaderData.selectTarget == Android
      ensures currentUploaderData.currentUploadList == TargetUploadFiles(disk, dataPath, Android)
      ensures !windows.isInUpload && !android.isInUpload && !ios.isInUpload
    {
      ftpUserName := "user";
      ftpUserPassword := "password";
      var data := new AssetBundleList(dataPath);
      currentUploaderTarget := Android;
      serverType := DevelopmentServer;
      data.Refresh(Android, disk);
      currentUploaderData := data;
      windows := new AssetBundleUploader();
      android := new AssetBundleUploader();
      ios := new AssetBundleUploader();
    }

    /** IsUploaderPlaying: some platform is still uploading. */
    predicate IsUploaderPlaying()
      reads windows, android, ios
    {
      windows.isInUpload || android.isInUpload || ios.isInUpload
    }

    /** OnUpdate: one tick for the Windows, Android and iOS uploaders, in that order. */
    method OnUpdate()
      requires Valid()
      modifies windows, android, ios
      modifies windows.uploadAssetFileList, android.uploadAssetFileList, ios.uploadAssetFileList
      ensures Valid()
      ensures Tick(old(windows.State()), windows.State())
      ensures Tick(old(android.State()), android.State())
      ensures Tick(old(ios.State()), ios.State())
    {
      windows.OnUpdate();
      android.OnUpdate();
      ios.OnUpdate();
    }

    /**
     * The single-target branch of UploadProcess: the target's version file
     * is made and its uploader starts with the window's current list, even
     * an empty one; when the version folder cannot be made the exception
     * leaves the uploader as it was. `files` and `s0` name the target's
     * files and its uploader's state on entry.
     */
    method UploadTarget(disk: Disk, now: string, hashOf: string -> string, toJson: AssetVersion -> string,
                        ghost files: seq<string>, ghost s0: UploaderState)
      returns (thrown: bool)
      requires currentUploaderTarget != All && Valid() && disk.Valid()
      requires files == PlatformFiles(disk, currentUploaderData.dataPath, currentUploaderTarget) && |files| < 5
      requires s0 == UploaderFor(currentUploaderTarget).State()
      modifies disk, UploaderFor(currentUploaderTarget)
      ensures Valid() && disk.Valid() && disk.listing == old(disk.listing) && old(disk.dirs) <= disk.dirs
      ensures thrown <==> VersionFolderFails(old(disk.dirs), currentUploaderData.dataPath, currentUploaderTarget)
      ensures thrown ==> disk.texts == old(disk.texts) && UploaderFor(currentUploaderTarget).State() == s0
      ensures disk.dirs == MadeIf(old(disk.dirs), currentUploaderData.dataPath, currentUploaderTarget, !thrown)
      ensures var t := currentUploaderTarget;
        !thrown ==>
          disk.texts == old(disk.texts)[VersionFilePath(currentUploaderData.dataPath, t) := VersionText(files, now, hashOf, toJson)] &&
          Started(s0, UploaderFor(t).State(), ServerUrl(serverType), t, VersionText(files, now, hashOf, toJson),
                  currentUploaderData.currentUploadList)
    {
      var data := currentUploaderData;
      var versionFile;
      versionFile, thrown := data.CreateAssetVersionFile(disk, currentUploaderTarget, now, hashOf, toJson);
      if thrown {
        return;
      }
      UploaderFor(currentUploaderTarget).Execute(ServerUrl(serverType), currentUploaderTarget, versionFile, data.currentUploadList);
    }

    /**
     * One platform of the `All` branch of UploadProcess: its version file is
     * made, and its uploader, given `target`, starts when the platform has
     * files; when the version folder cannot be made the exception leaves
     * the uploader and the files as they were. Either way whether another
     * platform's folder can be made is as it was. `files` and `s0` name the
     * platform's files and its uploader's state on entry.
     */
    method UploadPlatform(disk: Disk, p: UploaderTarget, target: UploaderTarget,
                          now: string, hashOf: string -> string, toJson: AssetVersion -> string,
                          ghost files: seq<string>, ghost s0: UploaderState)
      returns (thrown: bool)
      requires p != All && Valid() && disk.Valid()
      requires files == PlatformFiles(disk, currentUploaderData.dataPath, p) && |files| < 5
      requires s0 == UploaderFor(p).State()
      modifies disk, UploaderFor(p)
      ensures Valid() && disk.Valid() && disk.listing == old(disk.listing) && old(disk.dirs) <= disk.dirs
      ensures thrown <==> VersionFolderFails(old(disk.dirs), currentUploaderData.dataPath, p)
      ensures thrown ==> disk.texts == old(disk.texts) && UploaderFor(p).State() == s0
      ensures disk.dirs == MadeIf(old(disk.dirs), currentUploaderData.dataPath, p, !thrown)
      ensures !thrown ==>
        disk.texts == old(disk.texts)[VersionFilePath(currentUploaderData.dataPath, p) := VersionText(files, now, hashOf, toJson)] &&
        StartedIfAny(s0, UploaderFor(p).State(), ServerUrl(serverType), target, VersionText(files, now, hashOf, toJson), files)
      ensures forall q :: q != All ==>
        (VersionFolderFails(disk.dirs, currentUploaderData.dataPath, q) <==>
         VersionFolderFails(old(disk.dirs), currentUploaderData.dataPath, q))
    {
      var data := currentUploaderData;
      ghost var dirs := disk.dirs;
      var versionFile;
      versionFile, thrown := data.CreateAssetVersionFile(disk, p, now, hashOf, toJson);
      if thrown {
        return;
      }
      forall q | q != All
        ensures VersionFolderFails(disk.dirs, data.dataPath, q) <==> VersionFolderFails(dirs, data.dataPath, q)
      {
        FolderFailsAlike(dirs, disk.dirs, data.dataPath, p, q);
      }
      NewDirsHoldNoFiles(dirs, disk.dirs, disk.listing, BuildFolder(data.dataPath, p));
      var uploadAssetList := data.GetUploadFileList(disk, p);
      if |uploadAssetList| > 0 {
        UploaderFor(p).Execute(ServerUrl(serverType), target, versionFile, uploadAssetList);
      }
    }

    /**
     * The Android and iOS steps of the `All` branch of UploadProcess; the
     * iOS uploader is given Android's target, and an exception in Android's
     * step skips iOS's. `fa`, `fi`, `sa` and `si` name the two platforms'
     * files and their uploaders' states on entry.
     */
    method UploadMobile(disk: Disk, now: string, hashOf: string -> string, toJson: AssetVersion -> string,
                        ghost fa: seq<string>, ghost fi: seq<string>, ghost sa: UploaderState, ghost si: UploaderState)
      returns (thrown: bool)
      requires Valid() && disk.Valid()
      requires fa == PlatformFiles(disk, currentUploaderData.dataPath, Android) && |fa| < 5
      requires fi == PlatformFiles(disk, currentUploaderData.dataPath, iOS) && |fi| < 5
      requires sa == android.State() && si == ios.State()
      modifies disk, android, ios
      ensures Valid() && disk.Valid() && disk.listing == old(disk.listing) && old(disk.dirs) <= disk.dirs
      ensures var dataPath := currentUploaderData.dataPath;
        var ra := !VersionFolderFails(old(disk.dirs), dataPath, Android);
        var ri := ra && !VersionFolderFails(old(disk.dirs), dataPath, iOS);
        thrown == !ri &&
        disk.dirs == MadeIf(MadeIf(old(disk.dirs), dataPath, Android, ra), dataPath, iOS, ri) &&
        disk.texts == WrittenIf(WrittenIf(old(disk.texts), VersionFilePath(dataPath, Android), ra, VersionText(fa, now, hashOf, toJson)),
                                VersionFilePath(dataPath, iOS), ri, VersionText(fi, now, hashOf, toJson)) &&
        StepOutcome(sa, android.State(), ra, ServerUrl(serverType), Android, VersionText(fa, now, hashOf, toJson), fa) &&
        StepOutcome(si, ios.State(), ri, ServerUrl(serverType), Android, VersionText(fi, now, hashOf, toJson), fi)
    {
      var data := currentUploaderData;
      ghost var dirs := disk.dirs;
      thrown := UploadPlatform(disk, Android, Android, now, hashOf, toJson, fa, sa);
      if thrown {
        return;
      }
      NewDirsHoldNoFiles(dirs, disk.dirs, disk.listing, BuildFolder(data.dataPath, iOS));
      thrown := UploadPlatform(disk, iOS, Android, now, hashOf, toJson, fi, si);
    }

    /**
     * The `All` branch of UploadProcess: the Windows, Android and iOS
     * version files are made and each uploader starts only when its platform
     * has files; the iOS uploader is given Android's target. An exception in
     * one platform's step skips the later ones (AllStepRuns). `fw`, `fa`,
     * `fi`, `sw`, `sa` and `si` name the platforms' files and their
     * uploaders' states on entry.
     */
    method UploadAll(disk: Disk, now: string, hashOf: string -> string, toJson: AssetVersion -> string,
                     ghost fw: seq<string>, ghost fa: seq<string>, ghost fi: seq<string>,
                     ghost sw: UploaderState, ghost sa: UploaderState, ghost si: UploaderState)
      returns (thrown: bool)
      requires Valid() && disk.Valid()
      requires fw == PlatformFiles(disk, currentUploaderData.dataPath, Windows) && |fw| < 5
      requires fa == PlatformFiles(disk, currentUploaderData.dataPath, Android) && |fa| < 5
      requires fi == PlatformFiles(disk, currentUploaderData.dataPath, iOS) && |fi| < 5
      requires sw == windows.State() && sa == android.State() && si == ios.State()
      modifies disk, windows, android, ios
      ensures Valid() && disk.Valid() && disk.listing == old(disk.listing) && old(disk.dirs) <= disk.dirs
      ensures var dataPath, dirs := currentUploaderData.dataPath, old(disk.dirs);
        thrown == UploadThrows(dirs, dataPath, All) &&
        disk.dirs == MadeIf(MadeIf(MadeIf(dirs, dataPath, Windows, AllStepRuns(dirs, dataPath, Windows)),
                                   dataPath, Android, AllStepRuns(dirs, dataPath, Android)),
                            dataPath, iOS, AllStepRuns(dirs, dataPath, iOS)) &&
        disk.texts == WrittenIf(WrittenIf(WrittenIf(old(disk.texts),
            VersionFilePath(dataPath, Windows), AllStepRuns(dirs, dataPath, Windows), VersionText(fw, now, hashOf, toJson)),
            VersionFilePath(dataPath, Android), AllStepRuns(dirs, dataPath, Android), VersionText(fa, now, hashOf, toJson)),
            VersionFilePath(dataPath, iOS), AllStepRuns(dirs, dataPath, iOS), VersionText(fi, now, hashOf, toJson)) &&
        StepOutcome(sw, windows.State(), AllStepRuns(dirs, dataPath, Windows), ServerUrl(serverType), Windows,
                    VersionText(fw, now, hashOf, toJson), fw) &&
        StepOutcome(sa, android.State(), AllStepRuns(dirs, dataPath, Android), ServerUrl(serverType), Android,
                    VersionText(fa, now, hashOf, toJson), fa) &&
        StepOutcome(si, ios.State(), AllStepRuns(dirs, dataPath, iOS), ServerUrl(serverType), Android,
                    VersionText(fi, now, hashOf, toJson), fi)
    {
      var data := currentUploaderData;
      ghost var dirs := disk.dirs;
      thrown := UploadPlatform(disk, Windows, Windows, now, hashOf, toJson, fw, sw);
      if thrown {
        return;
      }
      assert android.State() == sa && ios.State() == si;
      NewDirsHoldNoFiles(dirs, disk.dirs, disk.listing, BuildFolder(data.dataPath, Android));
      NewDirsHoldNoFiles(dirs, disk.dirs, disk.listing, BuildFolder(data.dataPath, iOS));
      ghost var windowsAfter := windows.State();
      thrown := UploadMobile(disk, now, hashOf, toJson, fa, fi, sa, si);
      assert windows.State() == windowsAfter;
    }

    /**
     * UploadProcess. A single target gets a version file and its uploader
     * starts with the window's current list, even an empty one. `All` makes
     * the Windows, Android and iOS version files and starts each uploader
     * only when its platform has files; the iOS uploader is given Android's
     * target. A version folder that cannot be made throws (UploadThrows),
     * ending the process at that platform.
     */
    method UploadProcess(disk: Disk, now: string, hashOf: string -> string, toJson: AssetVersion -> string)
      returns (thrown: bool)
      requires Valid() && disk.Valid()
      requires FewFiles(disk, currentUploaderData.dataPath, currentUploaderTarget)
      modifies disk, windows, android, ios
      ensures Valid() && disk.Valid() && disk.listing == old(disk.listing) && old(disk.dirs) <= disk.dirs
      ensures thrown == UploadThrows(old(disk.dirs), currentUploaderData.dataPath, currentUploaderTarget)
      ensures var dataPath, dirs := currentUploaderData.dataPath, old(disk.dirs);
        IsUploaderPlaying() <==>
          old(IsUploaderPlaying()) || (currentUploaderTarget != All && !thrown) ||
          (currentUploaderTarget == All &&
            ((AllStepRuns(dirs, dataPath, Windows) && old(PlatformFiles(disk, dataPath, Windows)) != []) ||
             (AllStepRuns(dirs, dataPath, Android) && old(PlatformFiles(disk, dataPath, Android)) != []) ||
             (AllStepRuns(dirs, dataPath, iOS) && old(PlatformFiles(disk, dataPath, iOS)) != [])))
      ensures var dataPath, t := currentUploaderData.dataPath, currentUploaderTarget;
        t != All ==>
          var vf := VersionText(old(PlatformFiles(disk, dataPath, t)), now, hashOf, toJson);
          disk.dirs == MadeIf(old(disk.dirs), dataPath, t, !thrown) &&
          (thrown ==> disk.texts == old(disk.texts) && UploaderFor(t).State() == old(UploaderFor(t).State())) &&
          (!thrown ==>
            disk.texts == old(disk.texts)[VersionFilePath(dataPath, t) := vf] &&
            Started(old(UploaderFor(t).State()), UploaderFor(t).State(), ServerUrl(serverType), t, vf,
                    currentUploaderData.currentUploadList)) &&
          (t != Windows ==> windows.State() == old(windows.State())) &&
          (t != Android ==> android.State() == old(android.State())) &&
          (t != iOS ==> ios.State() == old(ios.State()))
      ensures var dataPath, dirs := currentUploaderData.dataPath, old(disk.dirs);
        var fw := old(PlatformFiles(disk, dataPath, Windows));
        var fa := old(PlatformFiles(disk, dataPath, Android));
        var fi := old(PlatformFiles(disk, dataPath, iOS));
        currentUploaderTarget == All ==>
          disk.dirs == MadeIf(MadeIf(MadeIf(dirs, dataPath, Windows, AllStepRuns(dirs, dataPath, Windows)),
                                     dataPath, Android, AllStepRuns(dirs, dataPath, Android)),
                              dataPath, iOS, AllStepRuns(dirs, dataPath, iOS)) &&
          disk.texts == WrittenIf(WrittenIf(WrittenIf(old(disk.texts),
              VersionFilePath(dataPath, Windows), AllStepRuns(dirs, dataPath, Windows), VersionText(fw, now, hashOf, toJson)),
              VersionFilePath(dataPath, Android), AllStepRuns(dirs, dataPath, Android), VersionText(fa, now, hashOf, toJson)),
              VersionFilePath(dataPath, iOS), AllStepRuns(dirs, dataPath, iOS), VersionText(fi, now, hashOf, toJson)) &&
          StepOutcome(old(windows.State()), windows.State(), AllStepRuns(dirs, dataPath, Windows), ServerUrl(serverType),
                      Windows, VersionText(fw, now, hashOf, toJson), fw) &&
          StepOutcome(old(android.State()), android.State(), AllStepRuns(dirs, dataPath, Android), ServerUrl(serverType),
                      Android, VersionText(fa, now, hashOf, toJson), fa) &&
          StepOutcome(old(ios.State()), ios.State(), AllStepRuns(dirs, dataPath, iOS), ServerUrl(serverType),
                      Android, VersionText(fi, now, hashOf, toJson), fi)
    {
      var data := currentUploaderData;
      var t := currentUploaderTarget;
      if t != All {
        thrown := UploadTarget(disk, now, hashOf, toJson, PlatformFiles(disk, data.dataPath, t), UploaderFor(t).State());
      } else {
        ghost var dirs := disk.dirs;
        ghost var sw, sa, si := windows.State(), android.State(), ios.State();
        ghost var fw, fa, fi := PlatformFiles(disk, data.dataPath, Windows), PlatformFiles(disk, data.dataPath, Android),
                                PlatformFiles(disk, data.dataPath, iOS);
        thrown := UploadAll(disk, now, hashOf, toJson, fw, fa, fi, sw, sa, si);
        StepOutcomeUploads(sw, windows.State(), AllStepRuns(dirs, data.dataPath, Windows), ServerUrl(serverType), Windows,
                           VersionText(fw, now, hashOf, toJson), fw);
        StepOutcomeUploads(sa, android.State(), AllStepRuns(dirs, data.dataPath, Android), ServerUrl(serverType), Android,
                           VersionText(fa, now, hashOf, toJson), fa);
        StepOutcomeUploads(si, ios.State(), AllStepRuns(dirs, data.dataPath, iOS), ServerUrl(serverType), Android,
                           VersionText(fi, now, hashOf, toJson), fi);
      }
    }

    /**
     * The settings part of OnGUI: the chosen platform (re-listing its files
     * when it changed), the server and the FTP account.
     */
    method ChooseSettings(disk: Disk, target: UploaderTarget, server: ServerType, userName: string, password: string)
      modifies this, currentUploaderData
      ensures currentUploaderTarget == target && serverType == server &&
        ftpUserName == userName && ftpUserPassword == password
      ensures target != old(currentUploaderTarget) ==>
        currentUploaderData.selectTarget == target &&
        currentUploaderData.currentUploadList == TargetUploadFiles(disk, currentUploaderData.dataPath, target)
      ensures target == old(currentUploaderTarget) ==> unchanged(currentUploaderData)
    {
      if target != currentUploaderTarget {
        currentUploaderTarget := target;
        currentUploaderData.Refresh(target, disk);
      }
      serverType := server;
      ftpUserName := userName;
      ftpUserPassword := password;
    }

    /**
     * OnGUI, as far as it decides anything: while an upload runs it returns
     * at once; otherwise it takes the chosen settings and runs UploadProcess
     * when the button is pressed, which it offers only with a non-empty user
     * name and password. Pressing it starts an upload unless it throws
     * before any uploader starts or `All` finds no files on the platforms it
     * reaches.
     */
    method OnGUI(disk: Disk, target: UploaderTarget, server: ServerType, userName: string, password: string,
                 pressed: bool, now: string, hashOf: string -> string, toJson: AssetVersion -> string)
      returns (thrown: bool)
      requires Valid() && disk.Valid()
      requires !IsUploaderPlaying() && pressed && userName != "" && password != "" ==>
        FewFiles(disk, currentUploaderData.dataPath, target)
      modifies this, currentUploaderData, disk, windows, android, ios
      ensures Valid() && disk.Valid()
      ensures old(IsUploaderPlaying()) ==>
        !thrown && unchanged(this, currentUploaderData, disk, windows, android, ios)
      ensures !old(IsUploaderPlaying()) ==>
        currentUploaderTarget == target && serverType == server &&
        ftpUserName == userName && ftpUserPassword == password
      ensures !old(IsUploaderPlaying()) && !(pressed && userName != "" && password != "") ==>
        !thrown && unchanged(disk, windows, android, ios)
      ensures !old(IsUploaderPlaying()) && pressed && userName != "" && password != "" ==>
        var dataPath, dirs := currentUploaderData.dataPath, old(disk.dirs);
        thrown == UploadThrows(dirs, dataPath, target) &&
        (IsUploaderPlaying() <==>
          (target != All && !thrown) ||
          (target == All &&
            ((AllStepRuns(dirs, dataPath, Windows) && old(PlatformFiles(disk, dataPath, Windows)) != []) ||
             (AllStepRuns(dirs, dataPath, Android) && old(PlatformFiles(disk, dataPath, Android)) != []) ||
             (AllStepRuns(dirs, dataPath, iOS) && old(PlatformFiles(disk, dataPath, iOS)) != []))))
    {
      thrown := false;
      if IsUploaderPlaying() {
        return;
      }
      ChooseSettings(disk, target, server, userName, password);
      if ftpUserName != "" && ftpUserPassword != "" {
        if pressed {
          thrown := UploadProcess(disk, now, hashOf, toJson);
        }
      }
    }
  }
}
