// AssetBundleUploader and UploadToServerTask: the polling scheduler that
// uploads a version file and then the bundles in batches of at most five.
module Upload {
  import opened Text
  import opened Targets
  import opened ListExtension
  import opened AssetBundleList

  /** The most bundles one batch dispatches. */
  const MaxBatch: nat := 5

  /**
   * GetAssetVersionFileUrl: the version file's URL, in the platform's folder;
   * for `All` the file name follows the base URL with no separator.
   */
  function VersionFileUrl(baseUrl: string, target: UploaderTarget): string
  {
    match target
    case Android => baseUrl + "/Android/" + VersionFileName
    case iOS => baseUrl + "/iOS/" + VersionFileName
    case Windows => baseUrl + "/StandaloneWindows/" + VersionFileName
    case All => baseUrl + VersionFileName
  }

  /**
   * ConvertToUploadingFilePath: the text after the last "build/", put under
   * the platform's "build/" folder. The Windows case appends with `+=`, so
   * the text comes out twice.
   */
  function UploadingFilePath(filePath: string, target: UploaderTarget): string
  {
    var retPath := AfterLast(filePath, "build/");
    match target
    case Android => "Android/build/" + retPath
    case iOS => "iOS/build/" + retPath
    case Windows => retPath + ("StandaloneWindows/build/" + retPath)
    case All => retPath
  }

  /** The version file sits in the platform's own folder below the base URL, or directly after it for `All`. */
  lemma VersionFileUrlShape(baseUrl: string, target: UploaderTarget)
    ensures target != All ==>
      VersionFileUrl(baseUrl, target) == baseUrl + "/" + PlatformName(target) + "/" + VersionFileName
    ensures target == All ==> VersionFileUrl(baseUrl, target) == baseUrl + VersionFileName
    ensures EndsWith(VersionFileUrl(baseUrl, target), VersionFileName)
  {
    match target
    case Android =>
      FolderBetween(baseUrl, "Android", "/Android/");
      EndsWithExtend(baseUrl + "/Android/", VersionFileName, VersionFileName);
    case iOS =>
      FolderBetween(baseUrl, "iOS", "/iOS/");
      EndsWithExtend(baseUrl + "/iOS/", VersionFileName, VersionFileName);
    case Windows =>
      FolderBetween(baseUrl, "StandaloneWindows", "/StandaloneWindows/");
      EndsWithExtend(baseUrl + "/StandaloneWindows/", VersionFileName, VersionFileName);
    case All =>
      EndsWithExtend(baseUrl, VersionFileName, VersionFileName);
  }

  /** A folder name between two separators, written in pieces or as one piece. */
  lemma FolderBetween(baseUrl: string, name: string, mid: string)
    requires mid == "/" + name + "/"
    ensures baseUrl + "/" + name + "/" + VersionFileName == baseUrl + mid + VersionFileName
  {
    AppendAfter(baseUrl, "/", name);
    AppendAfter(baseUrl, "/" + name, "/");
  }

  /**
   * For Android and iOS the remote path of a bundle is the platform folder
   * followed by the bundle's entry path in the version file.
   */
  lemma RemotePathMatchesVersionEntry(filePath: string, target: UploaderTarget)
    requires target == Android || target == iOS
    ensures UploadingFilePath(filePath, target) == PlatformName(target) + "/" + ItemPath(filePath)
  {
  }

  /** The Windows remote path repeats the bundle's path around the platform folder. */
  lemma WindowsPathDuplicated(filePath: string)
    ensures var rest := AfterLast(filePath, "build/");
      UploadingFilePath(filePath, Windows) == rest + PlatformName(Windows) + "/" + ItemPath(filePath)
    ensures var rest := AfterLast(filePath, "build/");
      rest != [] ==> UploadingFilePath(filePath, Windows) != PlatformName(Windows) + "/" + ItemPath(filePath)
  {
    var rest := AfterLast(filePath, "build/");
    if rest != [] {
      var a := UploadingFilePath(filePath, Windows);
      var b := PlatformName(Windows) + "/" + ItemPath(filePath);
      assert |a| == |b| + |rest|;
    }
  }

  /** For `All` the remote path is the bare text after the last "build/", so it never names a platform folder. */
  lemma AllPathIsBare(filePath: string)
    ensures Contains(filePath, "build/") ==> EndsWith(filePath, "build/" + UploadingFilePath(filePath, All))
    ensures !Contains(filePath, "build/") ==> UploadingFilePath(filePath, All) == filePath
  {
    if Contains(filePath, "build/") {
      AfterLastIsLast(filePath, "build/");
    } else {
      AfterLastAbsent(filePath, "build/");
    }
  }

  /**
   * How many files CreateUploadTask takes from a queue of n. The loop guard
   * `i < 5 && i < Count` re-reads the count as the queue shrinks, so the
   * batch is min(5, ceil(n / 2)).
   */
  function BatchTake(n: nat): nat
  {
    Min(MaxBatch, (n + 1) / 2)
  }

  /** A non-empty queue always yields a batch of 1 to 5 files; an empty one yields none. */
  lemma BatchTakeBounds(n: nat)
    ensures n == 0 ==> BatchTake(n) == 0
    ensures n > 0 ==> 1 <= BatchTake(n) <= MaxBatch && BatchTake(n) <= n
  {
  }

  /** CreateUploadTask's loop stops after BatchTake(n) pops: at 5, or once the index meets the shrinking count. */
  lemma BatchTakeExit(n: nat, i: nat)
    requires i <= 5 && 2 * i <= n + 1 && i <= n
    requires !(i < 5 && i < n - i)
    ensures i == BatchTake(n)
  {
  }

  /** The batch sizes of successive ticks until the queue is empty. */
  function Sizes(n: nat): seq<nat>
    decreases n
  {
    if n == 0 then []
    else
      BatchTakeBounds(n);
      [BatchTake(n)] + Sizes(n - BatchTake(n))
  }

  function Sum(s: seq<nat>): nat
  {
    if s == [] then 0 else s[0] + Sum(s[1..])
  }

  /** Every queued file is dispatched: the batches add up to the queue, each of 1 to 5 files. */
  lemma {:induction false} SizesCover(n: nat)
    ensures Sum(Sizes(n)) == n
    ensures forall b :: b in Sizes(n) ==> 1 <= b <= MaxBatch
    decreases n
  {
    if n > 0 {
      BatchTakeBounds(n);
      SizesCover(n - BatchTake(n));
      assert Sizes(n)[1..] == Sizes(n - BatchTake(n));
    }
  }

  /** Twelve files go out in batches of 5, 4, 2 and 1. */
  lemma TwelveFiles()
    ensures Sizes(12) == [5, 4, 2, 1]
  {
    assert Sizes(0) == [];
    assert Sizes(1) == [1];
    assert Sizes(3) == [2] + Sizes(1);
    assert Sizes(7) == [4] + Sizes(3);
    assert Sizes(12) == [5] + Sizes(7);
  }

  /** The files of each batch, tick after tick. */
  function Batches(q: seq<string>): seq<seq<string>>
    decreases |q|
  {
    if q == [] then []
    else
      BatchTakeBounds(|q|);
      [q[..BatchTake(|q|)]] + Batches(q[BatchTake(|q|)..])
  }

  function Flatten(bs: seq<seq<string>>): seq<string>
  {
    if bs == [] then [] else bs[0] + Flatten(bs[1..])
  }

  /** The batches, one after another, are the queue in its original order: dispatch is first in, first out. */
  lemma {:induction false} BatchesInOrder(q: seq<string>)
    ensures Flatten(Batches(q)) == q
    decreases |q|
  {
    if q != [] {
      BatchTakeBounds(|q|);
      var k := BatchTake(|q|);
      BatchesInOrder(q[k..]);
      assert Batches(q)[1..] == Batches(q[k..]);
      assert q == q[..k] + q[k..];
    }
  }


  /**
   * UploadToServerTask: one transfer, of the version file or of one bundle.
   * `isExecute` is true from creation until the transfer has run.
   */
  datatype UploadToServerTask = UploadToServerTask(
    isExecute: bool,
    url: string,
    /** The version file's text, or a bundle's remote path. */
    file: string,
    /** The bundle's local path; empty for the version file. */
    filePath: string,
    isVersionFile: bool)
  {
    /**
     * Execute: runs the transfer to completion and marks the task finished.
     * A transfer error is caught and only logged, so the task finishes
     * whatever the outcome.
     */
    function Execute(): (done: UploadToServerTask)
      ensures !done.isExecute
      ensures done.url == url && done.file == file && done.filePath == filePath && done.isVersionFile == isVersionFile
    {
      this.(isExecute := false)
    }
  }

  /** UploadVersionFile: a task sending `file`, the version text, to the platform's version URL. */
  function UploadVersionFile(targetPlatform: UploaderTarget, url: string, file: string): (task: UploadToServerTask)
    ensures task.isExecute && task.isVersionFile && task.file == file
    ensures task.url == VersionFileUrl(url, targetPlatform)
  {
    UploadToServerTask(true, VersionFileUrl(url, targetPlatform), file, "", true)
  }

  /** `t` is the asset task for the bundle `filePath` of `target` below `baseUrl`. */
  predicate Dispatched(t: UploadToServerTask, filePath: string, target: UploaderTarget, baseUrl: string)
  {
    !t.isVersionFile && t.filePath == filePath &&
    t.file == UploadingFilePath(filePath, target) && t.url == baseUrl + "/" + t.file
  }

  /** UploadAssetFile: a task sending the bundle at `filePath` to the base URL followed by its remote path. */
  function UploadAssetFile(targetPlatform: UploaderTarget, url: string, filePath: string): (task: UploadToServerTask)
    ensures task.isExecute && Dispatched(task, filePath, targetPlatform, url)
  {
    var remote := UploadingFilePath(filePath, targetPlatform);
    UploadToServerTask(true, url + "/" + remote, remote, filePath, false)
  }

  /** Some task has not finished its transfer. */
  predicate AnyExecuting(tasks: seq<UploadToServerTask>)
  {
    exists i :: 0 <= i < |tasks| && tasks[i].isExecute
  }

  /** An uploader's observable state at one moment. */
  datatype UploaderState = UploaderState(isInUpload: bool, pending: seq<string>, queue: List?<string>,
                                         tasks: seq<UploadToServerTask>, baseUrl: string,
                                         targetPlatform: UploaderTarget)

  /**
   * From `s` to `s2` an upload of `files` to `baseUrl` for `target` has
   * started: the queue is a list holding exactly the files, and the version
   * file `versionFile` has been sent, by a finished task appended to the
   * task list, to the target's version URL.
   */
  predicate Started(s: UploaderState, s2: UploaderState, baseUrl: string, target: UploaderTarget,
                    versionFile: string, files: seq<string>)
  {
    s2.isInUpload && s2.queue != null && s2.pending == files &&
    s2.targetPlatform == target && s2.baseUrl == baseUrl &&
    |s2.tasks| == |s.tasks| + 1 && s2.tasks[..|s.tasks|] == s.tasks &&
    var t := s2.tasks[|s.tasks|];
    !t.isExecute && t.isVersionFile && t.file == versionFile && t.url == VersionFileUrl(baseUrl, target)
  }

  /**
   * From `s` to `s2` one tick has passed. Nothing changes outside an upload
   * or while a task is unfinished. Otherwise the next BatchTake(n) queued
   * files have been dispatched, first in first out, each by a finished task
   * appended to the task list, and the upload is over exactly when the
   * queue was already empty.
   */
  predicate Tick(s: UploaderState, s2: UploaderState)
  {
    s2.queue == s.queue && s2.baseUrl == s.baseUrl && s2.targetPlatform == s.targetPlatform &&
    (!s.isInUpload || AnyExecuting(s.tasks) ==>
      s2.isInUpload == s.isInUpload && s2.pending == s.pending && s2.tasks == s.tasks) &&
    (s.isInUpload && !AnyExecuting(s.tasks) ==>
      var q := s.pending;
      var k := BatchTake(|q|);
      s2.isInUpload == (q != []) && s2.pending == q[k..] &&
      |s2.tasks| == |s.tasks| + k && s2.tasks[..|s.tasks|] == s.tasks &&
      forall m :: |s.tasks| <= m < |s2.tasks| ==>
        !s2.tasks[m].isExecute && Dispatched(s2.tasks[m], q[m - |s.tasks|], s.targetPlatform, s.baseUrl))
  }

  /** A tick of a running upload with every task finished dispatches one batch and leaves every task finished. */
  lemma TickDispatchesBatch(s: UploaderState, s2: UploaderState)
    requires Tick(s, s2) && s.isInUpload && !AnyExecuting(s.tasks)
    ensures s2.isInUpload == (s.pending != []) && s2.pending == s.pending[BatchTake(|s.pending|)..]
    ensures !AnyExecuting(s2.tasks)
  {
    forall j | 0 <= j < |s2.tasks|
      ensures !s2.tasks[j].isExecute
    {
      if j < |s.tasks| {
        assert s2.tasks[j] == s2.tasks[..|s.tasks|][j];
      }
    }
  }

  /**
   * Tick after tick, a running upload of `q` whose tasks are all finished
   * has the batches of q still to send: after i ticks the queue is the
   * batches from the i-th on, and one tick after the last batch the upload
   * is over.
   */
  lemma {:induction false} TicksDrain(q: seq<string>, ss: seq<UploaderState>)
    requires |ss| >= 1 && ss[0].isInUpload && ss[0].pending == q && !AnyExecuting(ss[0].tasks)
    requires forall i :: 0 <= i < |ss| - 1 ==> Tick(ss[i], ss[i + 1])
    ensures forall i :: 0 <= i < |ss| && i <= |Batches(q)| ==>
      ss[i].isInUpload && ss[i].pending == Flatten(Batches(q)[i..])
    ensures |Batches(q)| + 1 < |ss| ==> !ss[|Batches(q)| + 1].isInUpload
    decreases |ss|
  {
    BatchesInOrder(q);
    if |ss| > 1 {
      TickDispatchesBatch(ss[0], ss[1]);
      if q != [] {
        BatchTakeBounds(|q|);
        var k := BatchTake(|q|);
        var rest := ss[1..];
        forall i | 0 <= i < |rest| - 1
          ensures Tick(rest[i], rest[i + 1])
        {
          assert Tick(ss[i + 1], ss[i + 2]);
        }
        TicksDrain(q[k..], rest);
        assert Batches(q)[1..] == Batches(q[k..]);
        forall i | 0 < i < |ss| && i <= |Batches(q)|
          ensures ss[i].isInUpload && ss[i].pending == Flatten(Batches(q)[i..])
        {
          assert ss[i] == rest[i - 1];
          assert Batches(q)[i..] == Batches(q[k..])[i - 1..];
        }
        if |Batches(q)| + 1 < |ss| {
          assert ss[|Batches(q)| + 1] == rest[|Batches(q[k..])| + 1];
        }
      }
    }
  }

  /**
   * Every file of an upload is sent: once Execute has started an upload of
   * `files` with every earlier task finished, successive ticks send the
   * batches of `files` in order and the upload ends one tick after the
   * last.
   */
  lemma UploadDrains(s0: UploaderState, ss: seq<UploaderState>, baseUrl: string, target: UploaderTarget,
                     versionFile: string, files: seq<string>)
    requires !AnyExecuting(s0.tasks) && |ss| >= 1 && Started(s0, ss[0], baseUrl, target, versionFile, files)
    requires forall i :: 0 <= i < |ss| - 1 ==> Tick(ss[i], ss[i + 1])
    ensures forall i :: 0 <= i < |ss| && i <= |Batches(files)| ==>
      ss[i].isInUpload && ss[i].pending == Flatten(Batches(files)[i..])
    ensures |Batches(files)| + 1 < |ss| ==> !ss[|Batches(files)| + 1].isInUpload
  {
    var s := ss[0];
    forall j | 0 <= j < |s.tasks|
      ensures !s.tasks[j].isExecute
    {
      if j < |s0.tasks| {
        assert s.tasks[j] == s.tasks[..|s0.tasks|][j];
      }
    }
    TicksDrain(files, ss);
  }

  /** Each of `tasks` is a finished task for the file of the same position in `files`. */
  predicate AllDispatched(tasks: seq<UploadToServerTask>, files: seq<string>, target: UploaderTarget, baseUrl: string)
  {
    |tasks| <= |files| &&
    forall m :: 0 <= m < |tasks| ==> !tasks[m].isExecute && Dispatched(tasks[m], files[m], target, baseUrl)
  }

  /** A finished task for the next file extends the dispatched tasks. */
  lemma DispatchedSnoc(tasks: seq<UploadToServerTask>, files: seq<string>, t: UploadToServerTask,
                       target: UploaderTarget, baseUrl: string)
    requires AllDispatched(tasks, files, target, baseUrl) && |tasks| < |files|
    requires !t.isExecute && Dispatched(t, files[|tasks|], target, baseUrl)
    ensures AllDispatched(tasks + [t], files, target, baseUrl)
  {
    assert forall m :: 0 <= m < |tasks| ==> (tasks + [t])[m] == tasks[m];
  }

  /** Dispatched tasks appended to a task list sit after its old tasks, at their own offsets. */
  lemma DispatchedAfter(before: seq<UploadToServerTask>, tasks: seq<UploadToServerTask>, files: seq<string>,
                        target: UploaderTarget, baseUrl: string)
    requires AllDispatched(tasks, files, target, baseUrl)
    ensures (before + tasks)[..|before|] == before
    ensures forall m :: |before| <= m < |before + tasks| ==>
      !(before + tasks)[m].isExecute && Dispatched((before + tasks)[m], files[m - |before|], target, baseUrl)
  {
    assert forall m :: |before| <= m < |before + tasks| ==> (before + tasks)[m] == tasks[m - |before|];
  }

  /** AssetBundleUploader: one platform's upload, advanced by OnUpdate on every editor tick. */
  class AssetBundleUploader {
    var isInUpload: bool
    var baseUrl: string
    /** The bundles still to send, front first; null until the first Execute. */
    var uploadAssetFileList: List?<string>
    /** Every task ever created; the list is never cleared. */
    var uploaderTaskList: seq<UploadToServerTask>
    var targetPlatform: UploaderTarget

    ghost predicate Valid()
      reads this
    {
      isInUpload ==> uploadAssetFileList != null
    }

    constructor ()
      ensures Valid() && !isInUpload
      ensures baseUrl == "" && uploadAssetFileList == null && uploaderTaskList == [] && targetPlatform == All
    {
      isInUpload := false;
      baseUrl := "";
      uploadAssetFileList := null;
      uploaderTaskList := [];
      targetPlatform := All;
    }

    /** The files still queued (none before the first Execute). */
    function Pending(): seq<string>
      reads this, uploadAssetFileList
    {
      if uploadAssetFileList == null then [] else uploadAssetFileList.items
    }

    /** The uploader as a value. */
    function State(): UploaderState
      reads this, uploadAssetFileList
    {
      UploaderState(isInUpload, Pending(), uploadAssetFileList, uploaderTaskList, baseUrl, targetPlatform)
    }

    /**
     * Execute: starts an upload. The caller's list is copied into a new
     * queue, replacing any upload in progress, and the version file is sent
     * at once, before any bundle.
     */
    method Execute(baseUrl: string, targetPlatform: UploaderTarget, versionFile: string, uploadFileList: seq<string>)
      modifies this
      ensures Valid() && Started(old(State()), State(), baseUrl, targetPlatform, versionFile, uploadFileList)
      ensures fresh(uploadAssetFileList)
    {
      isInUpload := true;
      uploadAssetFileList := new List(uploadFileList);
      this.targetPlatform := targetPlatform;
      this.baseUrl := baseUrl;
      var task := UploadVersionFile(targetPlatform, baseUrl, versionFile);
      uploaderTaskList := uploaderTaskList + [task.Execute()];
    }

    /**
     * CreateUploadTask: pops BatchTake(n) bundles off the front of the queue,
     * in order, and runs one task for each; returns how many.
     */
    method CreateUploadTask() returns (count: nat)
      requires uploadAssetFileList != null
      modifies this, uploadAssetFileList
      ensures uploadAssetFileList == old(uploadAssetFileList)
      ensures isInUpload == old(isInUpload) && baseUrl == old(baseUrl) && targetPlatform == old(targetPlatform)
      ensures var q := old(uploadAssetFileList.items);
        count == BatchTake(|q|) && uploadAssetFileList.items == q[count..]
      ensures |uploaderTaskList| == |old(uploaderTaskList)| + count
      ensures uploaderTaskList[..|old(uploaderTaskList)|] == old(uploaderTaskList)
      ensures forall m :: |old(uploaderTaskList)| <= m < |uploaderTaskList| ==>
        !uploaderTaskList[m].isExecute &&
        Dispatched(uploaderTaskList[m], old(uploadAssetFileList.items)[m - |old(uploaderTaskList)|], targetPlatform, baseUrl)
    {
      ghost var q, tasks0, list0 := uploadAssetFileList.items, uploaderTaskList, uploadAssetFileList;
      ghost var inUpload0, baseUrl0, target0 := isInUpload, baseUrl, targetPlatform;
      ghost var added: seq<UploadToServerTask> := [];
      count := 0;
      var i := 0;
      while i < 5 && i < |uploadAssetFileList.items|
        invariant uploadAssetFileList == list0
        invariant isInUpload == inUpload0 && baseUrl == baseUrl0 && targetPlatform == target0
        invariant 0 <= i <= 5 && 2 * i <= |q| + 1 && i <= |q|
        invariant count == i == |added|
        invariant uploadAssetFileList.items == q[i..]
        invariant uploaderTaskList == tasks0 + added
        invariant AllDispatched(added, q, target0, baseUrl0)
      {
        assert q[i..][0] == q[i] && q[i..][1..] == q[i + 1..];
        var done := DispatchNext();
        DispatchedSnoc(added, q, done, target0, baseUrl0);
        AppendAfter(tasks0, added, [done]);
        added := added + [done];
        count := count + 1;
        i := i + 1;
      }
      BatchTakeExit(|q|, i);
      DispatchedAfter(tasks0, added, q, target0, baseUrl0);
    }

    /** One pass of CreateUploadTask's loop: the front bundle is popped and a task for it runs and is appended. */
    method DispatchNext() returns (done: UploadToServerTask)
      requires uploadAssetFileList != null && uploadAssetFileList.items != []
      modifies this, uploadAssetFileList
      ensures uploadAssetFileList == old(uploadAssetFileList)
      ensures isInUpload == old(isInUpload) && baseUrl == old(baseUrl) && targetPlatform == old(targetPlatform)
      ensures uploadAssetFileList.items == old(uploadAssetFileList.items[1..])
      ensures uploaderTaskList == old(uploaderTaskList) + [done]
      ensures !done.isExecute && Dispatched(done, old(uploadAssetFileList.items[0]), targetPlatform, baseUrl)
    {
      var file := uploadAssetFileList.PopFirst();
      var task := UploadAssetFile(targetPlatform, baseUrl, file);
      done := task.Execute();
      uploaderTaskList := uploaderTaskList + [done];
    }

    /** OnUpdate: one editor tick. */
    method OnUpdate()
      requires Valid()
      modifies this, uploadAssetFileList
      ensures Valid() && Tick(old(State()), State())
    {
      if !isInUpload {
        return;
      }
      if AnyExecuting(uploaderTaskList) {
        return;
      }
      ghost var q := uploadAssetFileList.items;
      var taskCount := CreateUploadTask();
      if taskCount == 0 {
        isInUpload := false;
      }
      BatchTakeBounds(|q|);
    }
  }
}
