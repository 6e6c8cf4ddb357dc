# Asset bundle publish pipeline, modelled in Dafny

This project models the publish pipeline of a Unity project. The pipeline builds asset bundles and writes a per-platform version file. It also lists the built bundles and uploads them to an FTP server through a polling scheduler. Properties of the model are proved alongside it.

The model has one module per source file, plus three small shared modules:

- `BuildAssetbundle` (`build_asset.dfy`) models the editor build menu.
  - Asset discovery walks `Asset` for single assets. Files ending in `.meta` are skipped. Each asset becomes `<name without extension>.unity3d`.
  - Pack discovery walks `AssetPack` for `Pack_` folders. Each pack becomes one bundle named after its folder.
  - Assets and packs are grouped by folder in enumeration order.
  - Every platform's output folder under `Output/` is created for each group.
  - Each group is dispatched to `BuildPipeline.BuildAssetBundles` for one platform or all three. These calls are recorded in a `BuildLog`.
  - `version.txt` is written from the `.manifest` files that are found.
- `AssetBundleList` (`asset_bundle_list.dfy`) models the uploader's view of a platform's `build` folder.
  - The uploader lists the folder's files. It drops every path that contains `.manifest`, `.json` or `.meta` anywhere, which includes the version file, and normalises `\` to `/`.
  - It writes the JSON version file. Each file's item path is the text after the last `build/`, and its hash is taken from the file.
- `Upload` (`asset_bundle_uploader.dfy`) models the `AssetBundleUploader` scheduler and its `UploadToServerTask`s.
  - `Execute` sends the version file.
  - Each `OnUpdate` tick does nothing while a task is unfinished. Otherwise it dispatches the next batch of at most five queued bundles, first in first out. The upload ends on the tick that finds the queue empty.
  - The module also models the remote paths and URLs, including the Windows path in which the text comes out twice.
- `UploaderTab` (`uploader_tab.dfy`) models the editor window.
  - The user chooses a platform, a server and credentials.
  - The upload button is ignored while any uploader is playing.
  - `UploadProcess` either starts one platform's uploader or fans out to all three. In the fan-out the iOS uploader is given the Android target.
  - An exception is modelled as a `thrown` result. The state changes made before it are kept, and the later steps are skipped.
- `FileUtil` (`file_util.dfy`) models the utility methods the pipeline calls.
  - It holds a `Disk` with directories, directory listings and written texts.
  - It models recursive file listing, `CreateDirectory` along every prefix of a path, `ConvertToCamelPath`, and the cache-path helpers.
- `ListExtension` and `ArrayExtensions` (`list_extension.dfy`) model the list helpers (`GetAndRemove`, `SafeRemove`, `PopFirst`, `PopLast`, `Shuffle`, `AddFirst`, `IsEmpty`) and the two-key array sort.
- Shared modules:
  - `Text` holds the string operations C# provides: `Contains`, `Replace` with the empty string, `Split`, `LastIndexOf`, `Path.GetExtension` and `Path.Combine`.
  - `Targets` holds the window's enums.
  - `Grouping` holds the group-by-key loop that `GetAssetList` and `GetAssetPackList` share.
  - `Optional` holds `Option`.

The model follows the code as written, including its quirks:

- The Windows remote path repeats its text.
- In the `All` fan-out, the iOS uploader uses Android's URLs.
- `BuildAll` builds nothing and then writes the version files. Gathering the lists reads `Assets/Asset` and `Assets/AssetPack`, so it throws before any version file when either folder is missing. Each write lists the platform's output folder first, so on a project with no `Output/iOS/` folder the first write throws and no version file is written.
- `BuildForiOS`, `BuildForAndroid` and `BuildForWindows` throw before building when `Assets/Asset` is missing. They throw after building the single assets, and before `version.txt`, when `Assets/AssetPack` is missing.
- `FileUtil.CreateDirectory` throws on a path that starts with `/`, because its first piece is the empty path. On macOS and Linux the project path is absolute, so `CreateAssetVersionFile` throws when the platform's `AssetBundles` folder is missing, and an `All` upload stops at that platform.
- `CreateAssetVersionFile`'s item loop never ends when there are five or more files. This is proved as `ManyFilesNeverEnd`.

The C# code leaves several things to the runtime. Each becomes a parameter of the model:

- the clock (`now`);
- MD5 hashing (`hashOf`);
- JSON and YAML serialisation (`toJson`, `serialize`);
- reading a manifest's CRC (`crcOf`);
- `File.Exists` (`bundleExists`);
- `Directory.GetFiles` on the build output (`manifestsUnder`);
- `TextInfo.ToTitleCase` (`titleCase`);
- `Application.persistentDataPath`, `Application.dataPath` and the platform (`Application`).

Directory trees on disk are `Dir` values whose files and subfolders are in enumeration order. The `Asset` and `AssetPack` roots of the menu commands are `Option<Dir>` values; `None` is a missing folder.

## Model

| member | source | states |
|---|---|---|
| BuildAssetbundle.OutputDirShapes | Assetbundle/Assets/Editor/BuildAsset.cs:248-259 | GetOutputDir puts each platform under `Output/<platform>/`, and `All` falls through to the Windows folder |
| BuildAssetbundle.OutputDirsApart | Assetbundle/Assets/Editor/BuildAsset.cs:248-259 | output folders of different platforms never coincide, whatever the sub-folders |
| BuildAssetbundle.OutputRoot | Assetbundle/Assets/Editor/BuildAsset.cs:248-259 | every output folder is the platform root, which ends in `/`, followed by the sub-folder |
| BuildAssetbundle.ReachJoin | Assetbundle/Assets/Editor/BuildAsset.cs:270-281 | descending the split sub-folder pieces one Combine at a time from the root reaches root + the pieces joined by `/` |
| BuildAssetbundle.OutputDirReached | Assetbundle/Assets/Editor/BuildAsset.cs:261-283 | for a clean sub-folder path, the folder GetOutputDir names is among those CreateOutputDirectory creates |
| BuildAssetbundle.CreateOutputDirectory | Assetbundle/Assets/Editor/BuildAsset.cs:261-283 | the disk gains `Output`, the platform root and every folder on the way down the sub-folder path, and nothing else changes |
| BuildAssetbundle.MakeDirIfMissing | Assetbundle/Assets/Editor/BuildAsset.cs:263-266 | it throws iff the folder is missing and its path is empty; otherwise the folder exists afterwards; listings and texts are untouched |
| BuildAssetbundle.FileAssetsSound | Assetbundle/Assets/Editor/BuildAsset.cs:322-339 | every listed asset comes from a non-`.meta` file of the folder and is exported as its name without extension + `.unity3d`; there are no more assets than files |
| BuildAssetbundle.FileAssetsComplete | Assetbundle/Assets/Editor/BuildAsset.cs:322-339 | every non-`.meta` file of the folder gives an asset (the converse of FileAssetsSound) |
| BuildAssetbundle.GetAssetFileList | Assetbundle/Assets/Editor/BuildAsset.cs:322-339 | the loop over the folder's files returns exactly the specified asset list |
| BuildAssetbundle.SearchAsset | Assetbundle/Assets/Editor/BuildAsset.cs:304-320 | the recursive search returns the folder's own assets, then each subfolder's, in enumeration order |
| BuildAssetbundle.AssetTreeSound | Assetbundle/Assets/Editor/BuildAsset.cs:304-320 | every found asset is a non-`.meta` file beneath the searched folder with the `.unity3d` export name; there are no more assets than files in the tree |
| BuildAssetbundle.GetAssetList | Assetbundle/Assets/Editor/BuildAsset.cs:288-302 | the assets under `Asset` grouped by folder, keys in first-seen order |
| BuildAssetbundle.ListPackNames | Assetbundle/Assets/Editor/BuildAsset.cs:410-419 | the non-`.meta` files of one folder, as paths in the folder |
| BuildAssetbundle.GetPackingFilePathList | Assetbundle/Assets/Editor/BuildAsset.cs:404-431 | the recursive listing of a pack folder's non-`.meta` files |
| BuildAssetbundle.PackFilesCount | Assetbundle/Assets/Editor/BuildAsset.cs:404-431 | a pack lists no more files than its folder tree holds |
| BuildAssetbundle.PackNamesSound | Assetbundle/Assets/Editor/BuildAsset.cs:410-419 | each path listed for a folder's own files is `Assets/` + the folder combined with one of its non-`.meta` files |
| BuildAssetbundle.PackFilesSound | Assetbundle/Assets/Editor/BuildAsset.cs:404-431 | every listed path is `Assets/` + the pack folder, or a folder beneath it, combined with a non-`.meta` file name |
| BuildAssetbundle.PackOfSubfolder | Assetbundle/Assets/Editor/BuildAsset.cs:385-402 | a pack's parent directory and export base are the folder holding it and its own name |
| BuildAssetbundle.CreatePackingAsset | Assetbundle/Assets/Editor/BuildAsset.cs:385-402 | a pack folder becomes a pack of all its files, or none when it has none |
| BuildAssetbundle.PackForSound | Assetbundle/Assets/Editor/BuildAsset.cs:385-402 | a created pack is never empty, its export name ends in `.unity3d`, and it holds every file given |
| BuildAssetbundle.SearchPackingAsset | Assetbundle/Assets/Editor/BuildAsset.cs:360-383 | the recursive search packs each `Pack_` folder and descends into the others, in enumeration order |
| BuildAssetbundle.PackSearchSound | Assetbundle/Assets/Editor/BuildAsset.cs:360-383 | every found pack is non-empty and exported as `.unity3d`, and packs together hold no more files than the tree |
| BuildAssetbundle.GetAssetPackList | Assetbundle/Assets/Editor/BuildAsset.cs:344-358 | the packs under `AssetPack` grouped by parent folder, keys in first-seen order |
| BuildAssetbundle.ListAssetBuilds | Assetbundle/Assets/Editor/BuildAsset.cs:121-128 | one bundle build per asset, holding `Assets/<dir>/<file>` |
| BuildAssetbundle.ListPackBuilds | Assetbundle/Assets/Editor/BuildAsset.cs:162-168 | one bundle build per pack, holding that pack's file list |
| BuildAssetbundle.RequestsSound | Assetbundle/Assets/Editor/BuildAsset.cs:130-148 | every build call carries one folder's non-empty bundle list into that folder's output folder for the call's platform; a single build type builds only for its own platform |
| BuildAssetbundle.RequestsCount | Assetbundle/Assets/Editor/BuildAsset.cs:130-148 | one build per non-empty folder for a single platform, three for `All`; empty folders are skipped |
| BuildAssetbundle.KeyDirsHoldOutputs | Assetbundle/Assets/Editor/BuildAsset.cs:117-119 | after the build loop every platform's output folder exists for every clean folder key |
| BuildAssetbundle.BuildLog.BuildAssetBundles | Assetbundle/Assets/Editor/BuildAsset.cs:137-147 | each call to the build pipeline is appended to the log |
| BuildAssetbundle.BuildFolder | Assetbundle/Assets/Editor/BuildAsset.cs:130-148 | an empty list is skipped; otherwise the list is built for the chosen platform, or for iOS, Android and Windows in turn |
| BuildAssetbundle.CreateOutputDirectories | Assetbundle/Assets/Editor/BuildAsset.cs:117-119 | the Android, iOS and Windows output folders of the key are created |
| BuildAssetbundle.BuildAssetFolder | Assetbundle/Assets/Editor/BuildAsset.cs:116-149 | one folder's turn: its output folders are created and its asset list is dispatched |
| BuildAssetbundle.BuildPackFolder | Assetbundle/Assets/Editor/BuildAsset.cs:157-189 | one folder's turn: its output folders are created and its pack list is dispatched |
| BuildAssetbundle.BuildAsset | Assetbundle/Assets/Editor/BuildAsset.cs:112-152 | the folders are built in enumeration order, giving exactly the build calls of Requests, and every platform's output folders of every key are created; the result is true |
| BuildAssetbundle.BuildAssetPack | Assetbundle/Assets/Editor/BuildAsset.cs:154-192 | the same for packs |
| BuildAssetbundle.VersionEntriesExactly | Assetbundle/Assets/Editor/BuildAsset.cs:204-227 | an entry is listed iff some enumerated manifest's bundle path contains `.unity3d` and exists, and the entry is that bundle's path relative to the output folder with the manifest's CRC |
| BuildAssetbundle.VersionEntriesAppend | Assetbundle/Assets/Editor/BuildAsset.cs:204-227 | entries follow the manifest enumeration order |
| BuildAssetbundle.VersionFilesApart | Assetbundle/Assets/Editor/BuildAsset.cs:199-201 | the three platforms' `version.txt` files are distinct files |
| BuildAssetbundle.CreateAssetbundleVersionFile | Assetbundle/Assets/Editor/BuildAsset.cs:197-238 | it throws iff the platform's output folder is missing; otherwise the serialised entry list is written to the platform's `version.txt`; folders and listings never change |
| BuildAssetbundle.BuildAll | Assetbundle/Assets/Editor/BuildAsset.cs:62-74 | nothing is built; the iOS, Android and Windows version files are written in turn until the first platform whose output folder is missing, which throws |
| BuildAssetbundle.KeyDirsHoldRoot | Assetbundle/Assets/Editor/BuildAsset.cs:117-119 | a platform's output folder is among those the build loop makes iff there is at least one folder key |
| BuildAssetbundle.BuildForPlatform | Assetbundle/Assets/Editor/BuildAsset.cs:76-110 | the assets and then the packs are built for the platform and its version file is written; it throws iff there is no asset or pack folder and no output folder already |
| AssetBundleList.BuildAssetFolderPath | Assetbundle/Assets/EditorAssetBrowser/Editor/UploaderTab/AssetBundleList.cs:49-76 | a platform's build folder is `<dataPath>/../AssetBundles/<platform>`, and `All` has none |
| AssetBundleList.UploadFilesAppend | Assetbundle/Assets/EditorAssetBrowser/Editor/UploaderTab/AssetBundleList.cs:121-130 | the filter keeps the listing order |
| AssetBundleList.UploadFilesMembers | Assetbundle/Assets/EditorAssetBrowser/Editor/UploaderTab/AssetBundleList.cs:121-130 | a path is uploaded iff some listed file is not excluded and normalises to it |
| AssetBundleList.NormalizeKeepsOccurrences | Assetbundle/Assets/EditorAssetBrowser/Editor/UploaderTab/AssetBundleList.cs:121-130 | replacing `\` by `/` neither creates nor removes an occurrence of a slash-free pattern such as `.meta` |
| AssetBundleList.UploadFilesClean | Assetbundle/Assets/EditorAssetBrowser/Editor/UploaderTab/AssetBundleList.cs:121-130 | no uploaded path holds a `\` or contains `.manifest`, `.json` or `.meta` anywhere |
| AssetBundleList.GetUploadFileListAt | Assetbundle/Assets/EditorAssetBrowser/Editor/UploaderTab/AssetBundleList.cs:115-133 | the filtered and normalised listing of the folder |
| AssetBundleList.Items | Assetbundle/Assets/EditorAssetBrowser/Editor/UploaderTab/AssetBundleList.cs:160-176 | one version item per file, in order |
| AssetBundleList.ItemPathSuffix | Assetbundle/Assets/EditorAssetBrowser/Editor/UploaderTab/AssetBundleList.cs:164-166 | an item path is the file path's tail after its last `build/`, or `build/` + the path when it has none |
| AssetBundleList.FewFilesEnd | Assetbundle/Assets/EditorAssetBrowser/Editor/UploaderTab/AssetBundleList.cs:150-180 | with fewer than five files one pass lists every file once and ends the loop |
| AssetBundleList.ManyFilesNeverEnd | Assetbundle/Assets/EditorAssetBrowser/Editor/UploaderTab/AssetBundleList.cs:150-180 | with five or more files no number of passes ends the loop, and each pass adds the first five files again |
| AssetBundleList.AssetBundleList.constructor | Assetbundle/Assets/EditorAssetBrowser/Editor/UploaderTab/AssetBundleList.cs:32-33 | a new list is empty and targets Android |
| AssetBundleList.AssetBundleList.Refresh | Assetbundle/Assets/EditorAssetBrowser/Editor/UploaderTab/AssetBundleList.cs:35-39 | the selection becomes the target and the current list becomes that target's upload files |
| AssetBundleList.AssetBundleList.GetSelectedUploadFileList | Assetbundle/Assets/EditorAssetBrowser/Editor/UploaderTab/AssetBundleList.cs:79-113 | the selected target's upload files; for `All`, iOS then Android then Windows |
| AssetBundleList.AssetBundleList.GetUploadFileList | Assetbundle/Assets/EditorAssetBrowser/Editor/UploaderTab/AssetBundleList.cs:135-140 | the upload files of one platform's build folder |
| AssetBundleList.VersionFolderFailsWhen | Assetbundle/Assets/EditorAssetBrowser/Editor/UploaderTab/AssetBundleList.cs:185-188 | a platform's version folder cannot be made iff it is missing and the project path is empty or starts with `/` |
| AssetBundleList.FolderFailsAlike | Assetbundle/Assets/EditorAssetBrowser/Editor/UploaderTab/AssetBundleList.cs:185-188 | making one platform's version folder never changes whether another platform's can be made |
| AssetBundleList.VersionFolderExists | Assetbundle/Assets/EditorAssetBrowser/Editor/UploaderTab/AssetBundleList.cs:185-188 | once put in place the version folder exists and no folder is removed |
| AssetBundleList.AssetBundleList.CreateAssetVersionFile | Assetbundle/Assets/EditorAssetBrowser/Editor/UploaderTab/AssetBundleList.cs:143-194 | the JSON holds one item per upload file; it throws iff the folder is missing and cannot be made, writing nothing; otherwise the JSON is written beside the bundles, creating the folder chain when it is missing; the new folder set is exactly `VersionFolderMade` |
| Upload.VersionFileUrlShape | Assetbundle/Assets/EditorAssetBrowser/Editor/UploaderTab/AssetBundleUploader.cs:118-130 | the version URL is base/`<platform>`/version file, or base + file name with no separator for `All`; it always ends with the version file name |
| Upload.RemotePathMatchesVersionEntry | Assetbundle/Assets/EditorAssetBrowser/Editor/UploaderTab/AssetBundleUploader.cs:132-146 | for Android and iOS the remote path is the platform folder + the item path written in the version file |
| Upload.WindowsPathDuplicated | Assetbundle/Assets/EditorAssetBrowser/Editor/UploaderTab/AssetBundleUploader.cs:141 | the Windows remote path is the tail + `StandaloneWindows/build/` + the tail, so it differs from the Android/iOS layout whenever the tail is non-empty |
| Upload.AllPathIsBare | Assetbundle/Assets/EditorAssetBrowser/Editor/UploaderTab/AssetBundleUploader.cs:132-146 | for `All` the remote path is just the tail after the last `build/` |
| Upload.BatchTakeBounds | Assetbundle/Assets/EditorAssetBrowser/Editor/UploaderTab/AssetBundleUploader.cs:59 | a tick takes at least one and at most five of the queued files, and none only when the queue is empty |
| Upload.SizesCover | Assetbundle/Assets/EditorAssetBrowser/Editor/UploaderTab/AssetBundleUploader.cs:56-71 | the successive batch sizes sum to the queue length, each between one and five |
| Upload.TwelveFiles | Assetbundle/Assets/EditorAssetBrowser/Editor/UploaderTab/AssetBundleUploader.cs:59 | the shrinking bound `i < Count` splits twelve files as 5, 4, 2, 1 |
| Upload.BatchesInOrder | Assetbundle/Assets/EditorAssetBrowser/Editor/UploaderTab/AssetBundleUploader.cs:56-71 | the batches, taken in turn, dispatch every queued file once in queue order |
| Upload.UploadToServerTask.Execute | Assetbundle/Assets/EditorAssetBrowser/Editor/UploaderTab/AssetBundleUploader.cs:105-116 | a task finishes whatever the transfer does, keeping its URL and file |
| Upload.UploadVersionFile | Assetbundle/Assets/EditorAssetBrowser/Editor/UploaderTab/AssetBundleUploader.cs:83-92 | a pending version-file task carrying the text to the platform's version URL |
| Upload.UploadAssetFile | Assetbundle/Assets/EditorAssetBrowser/Editor/UploaderTab/AssetBundleUploader.cs:94-103 | a pending task sending the bundle to base/remote path |
| Upload.TickDispatchesBatch | Assetbundle/Assets/EditorAssetBrowser/Editor/UploaderTab/AssetBundleUploader.cs:25-71 | a tick with every task finished takes the next batch off the queue, leaves every task finished, and ends the upload iff the queue was empty |
| Upload.TicksDrain | Assetbundle/Assets/EditorAssetBrowser/Editor/UploaderTab/AssetBundleUploader.cs:25-71 | successive ticks send the batches in order: after i ticks the queue is the batches from the i-th on, and one tick after the last the upload is over |
| Upload.UploadDrains | Assetbundle/Assets/EditorAssetBrowser/Editor/UploaderTab/AssetBundleUploader.cs:25-71 | from Execute on, every queued file is sent batch by batch and the upload then ends |
| Upload.AssetBundleUploader.constructor | Assetbundle/Assets/EditorAssetBrowser/Editor/UploaderTab/AssetBundleUploader.cs:18-23 | a new uploader is idle, with no queue and no tasks, targeting `All` |
| Upload.AssetBundleUploader.Execute | Assetbundle/Assets/EditorAssetBrowser/Editor/UploaderTab/AssetBundleUploader.cs:43-54 | the upload has started: the queue holds a fresh copy of the files, and the finished version-file task has been appended |
| Upload.AssetBundleUploader.CreateUploadTask | Assetbundle/Assets/EditorAssetBrowser/Editor/UploaderTab/AssetBundleUploader.cs:56-71 | the first BatchTake(n) queued files are removed in order, and each gets a finished task appended in that order; earlier tasks are kept |
| Upload.AssetBundleUploader.DispatchNext | Assetbundle/Assets/EditorAssetBrowser/Editor/UploaderTab/AssetBundleUploader.cs:61-67 | the head of the queue is popped and its finished task appended |
| Upload.AssetBundleUploader.OnUpdate | Assetbundle/Assets/EditorAssetBrowser/Editor/UploaderTab/AssetBundleUploader.cs:25-41 | one tick: nothing changes while idle or while a task runs; otherwise the next batch is dispatched and the upload ends exactly when the queue was already empty |
| UploaderTab.ServersShareUrl | Assetbundle/Assets/EditorAssetBrowser/Editor/UploaderTab/AssetBundleUpdalerTab.cs:47-52 | all three servers have the same FTP URL |
| UploaderTab.StartedIfAnyUploads | Assetbundle/Assets/EditorAssetBrowser/Editor/UploaderTab/AssetBundleUpdalerTab.cs:216-252 | after a platform's fan-out step its uploader is uploading iff it already was or the platform had files |
| UploaderTab.AllStepsInOrder | Assetbundle/Assets/EditorAssetBrowser/Editor/UploaderTab/AssetBundleUpdalerTab.cs:216-252 | a later step of the `All` fan-out runs only if every earlier one ran, and the fan-out throws iff the iOS step does not run |
| UploaderTab.StepOutcomeUploads | Assetbundle/Assets/EditorAssetBrowser/Editor/UploaderTab/AssetBundleUpdalerTab.cs:216-252 | after a fan-out step the uploader is uploading iff it already was or the step ran with files |
| UploaderTab.IOSVersionFileGoesToAndroid | Assetbundle/Assets/EditorAssetBrowser/Editor/UploaderTab/AssetBundleUpdalerTab.cs:244-248 | in the `All` fan-out the iOS version file goes to Android's URL, not to iOS's |
| UploaderTab.AssetBundleUploaderTab.constructor | Assetbundle/Assets/EditorAssetBrowser/Editor/UploaderTab/AssetBundleUpdalerTab.cs:54-78 | the window starts on Android and the development server, with the default account, a refreshed Android list and three idle uploaders |
| UploaderTab.AssetBundleUploaderTab.OnUpdate | Assetbundle/Assets/EditorAssetBrowser/Editor/UploaderTab/AssetBundleUpdalerTab.cs:90-95 | each of the three uploaders takes one tick |
| UploaderTab.AssetBundleUploaderTab.UploadTarget | Assetbundle/Assets/EditorAssetBrowser/Editor/UploaderTab/AssetBundleUpdalerTab.cs:202-215 | one platform: it throws iff its version folder fails, leaving files and uploader alone; otherwise the version file is written and the uploader starts on the current list with that text; the folders become `VersionFolderMade` when it does not throw |
| UploaderTab.AssetBundleUploaderTab.UploadPlatform | Assetbundle/Assets/EditorAssetBrowser/Editor/UploaderTab/AssetBundleUpdalerTab.cs:216-252 | one fan-out step: it throws iff its version folder fails, changing nothing; otherwise the version file is written and the uploader starts only if the platform has files; the folders become `VersionFolderMade` when it does not throw |
| UploaderTab.AssetBundleUploaderTab.UploadMobile | Assetbundle/Assets/EditorAssetBrowser/Editor/UploaderTab/AssetBundleUpdalerTab.cs:229-249 | Android then iOS, both uploaders given the Android target; an exception in Android's step skips iOS's; each step that ran puts its version folder in place (`MadeIf`) |
| UploaderTab.AssetBundleUploaderTab.UploadAll | Assetbundle/Assets/EditorAssetBrowser/Editor/UploaderTab/AssetBundleUpdalerTab.cs:216-252 | Windows, Android and iOS in turn, up to the first that throws: each step that runs writes its version file and starts its uploader when it has files, iOS on Android's target; each step that ran puts its version folder in place (`MadeIf`) |
| UploaderTab.AssetBundleUploaderTab.UploadProcess | Assetbundle/Assets/EditorAssetBrowser/Editor/UploaderTab/AssetBundleUpdalerTab.cs:198-254 | a single platform starts its uploader unless it throws, and leaves the others alone; `All` fans out until a step throws; afterwards something is playing iff it was, or a single platform ran, or a platform whose step ran had files; the folder set is stated exactly, step by step (`MadeIf`) |
| UploaderTab.AssetBundleUploaderTab.ChooseSettings | Assetbundle/Assets/EditorAssetBrowser/Editor/UploaderTab/AssetBundleUpdalerTab.cs:166-186 | the choices are stored, and the list is refreshed only when the target changed |
| UploaderTab.AssetBundleUploaderTab.OnGUI | Assetbundle/Assets/EditorAssetBrowser/Editor/UploaderTab/AssetBundleUpdalerTab.cs:129-196 | while an uploader plays nothing changes; otherwise the settings are stored, and a press with both credentials runs UploadProcess, throwing iff it throws |
| FileUtil.WalkBeneath | Assetbundle/Assets/Scripts/FileUtil.cs:169-189 | every recursively listed file lies beneath the listed folder |
| FileUtil.WalkCount | Assetbundle/Assets/Scripts/FileUtil.cs:169-189 | the recursive listing holds exactly as many paths as the tree holds files |
| FileUtil.NewDirsHoldNoFiles | Assetbundle/Assets/Scripts/FileUtil.cs:133-149 | creating empty folders does not change any folder's listing |
| FileUtil.Disk.MakeDir | Assetbundle/Assets/Scripts/FileUtil.cs:139 | the empty path throws and nothing is made; any other folder now exists; listings and texts are untouched |
| FileUtil.Disk.WriteText | Assetbundle/Assets/Scripts/FileUtil.cs:114-120 | the file now holds the text, and nothing else changes |
| FileUtil.CollectFiles | Assetbundle/Assets/Scripts/FileUtil.cs:169-189 | the recursion appends the folder's files, then each subfolder's, to the list given |
| FileUtil.GetAllFiles | Assetbundle/Assets/Scripts/FileUtil.cs:169-189 | the list given, followed by every file under the folder |
| FileUtil.ChainIsPrefixes | Assetbundle/Assets/Scripts/FileUtil.cs:133-149 | the folders CreateDirectory creates are the path's `/`-prefixes in order, ending with the path itself |
| FileUtil.CreateDirectory | Assetbundle/Assets/Scripts/FileUtil.cs:133-149 | it throws iff the path is empty or starts with `/`, making nothing; otherwise every prefix folder of the path is created in order; listings and texts never change |
| FileUtil.ConvertToCamelPath | Assetbundle/Assets/Scripts/FileUtil.cs:192-220 | the loop gives the camel path of the specification function CamelPath |
| FileUtil.CamelNoSlash | Assetbundle/Assets/Scripts/FileUtil.cs:192-220 | a path without `/` is returned unchanged |
| FileUtil.CamelKeepsLast | Assetbundle/Assets/Scripts/FileUtil.cs:192-220 | the file name, the last piece, is kept verbatim after a `/` |
| FileUtil.CamelSegmentPlain | Assetbundle/Assets/Scripts/FileUtil.cs:200-214 | a folder name without `_` is kept |
| FileUtil.CamelSegmentSnake | Assetbundle/Assets/Scripts/FileUtil.cs:200-214 | a folder name with `_` becomes its title-cased pieces concatenated, and no piece holds `_` |
| FileUtil.CamelDirsPlain | Assetbundle/Assets/Scripts/FileUtil.cs:198-216 | non-empty folder names without `_` are joined back unchanged |
| FileUtil.CamelIdentity | Assetbundle/Assets/Scripts/FileUtil.cs:192-220 | a path whose folder names are non-empty and have no `_` is a fixed point |
| FileUtil.CamelDropsLeadingSlash | Assetbundle/Assets/Scripts/FileUtil.cs:192-220 | a leading `/` is lost: `/a/b` becomes `a/b` |
| FileUtil.CachePathSub | Assetbundle/Assets/Scripts/FileUtil.cs:20-37 | without a sub-path the cache path is root + `/../AppCache/` + folder in the editor and root + `/` + folder in a player; a sub-path follows after a `/` |
| FileUtil.CacheRoot.constructor | Assetbundle/Assets/Scripts/FileUtil.cs:17 | no root is cached at first |
| FileUtil.CacheRoot.GetCacheRootPath | Assetbundle/Assets/Scripts/FileUtil.cs:39-55 | in the editor the data path; in a player the cached root, or else the platform root, which is then cached |
| FileUtil.CacheRoot.GetCachePath | Assetbundle/Assets/Scripts/FileUtil.cs:20-37 | the cache path under the root GetCacheRootPath gives, with the same caching |
| Grouping.KeysDistinct | Assetbundle/Assets/Editor/BuildAsset.cs:293-300 | each folder key appears once |
| Grouping.GroupsNonEmpty | Assetbundle/Assets/Editor/BuildAsset.cs:293-300 | every key's group is non-empty |
| Grouping.ItemsInTheirGroup | Assetbundle/Assets/Editor/BuildAsset.cs:293-300 | every item is in the group of its own key, and only items with that key are |
| Grouping.GroupedCount | Assetbundle/Assets/Editor/BuildAsset.cs:293-300 | the groups together hold exactly as many items as the list |
| Grouping.GroupBy | Assetbundle/Assets/Editor/BuildAsset.cs:293-300 | the dictionary loop gives the specified grouping |
| ListExtension.RemoveFirstAt | Assetbundle/Assets/Scripts/ListExtension.cs:23-29 | `List.Remove` deletes the first occurrence |
| ListExtension.RemoveFirstCount | Assetbundle/Assets/Scripts/ListExtension.cs:23-29 | removing a present element shortens the list by one and removes one copy from its multiset |
| ListExtension.GetAndRemoveAt | Assetbundle/Assets/Scripts/ListExtension.cs:11-21 | removing the element read at `index` deletes that position when no earlier copy exists, and the earlier copy otherwise |
| ListExtension.PopLastDuplicate | Assetbundle/Assets/Scripts/ListExtension.cs:36-39 | PopLast on `[a, b, a]` removes the first `a` and leaves `[b, a]` |
| ListExtension.List.IsEmpty | Assetbundle/Assets/Scripts/ListExtension.cs:52-55 | true iff the list has no items |
| ListExtension.List.GetAndRemove | Assetbundle/Assets/Scripts/ListExtension.cs:11-21 | returns the item at `index` and removes its first occurrence, one item fewer |
| ListExtension.List.SafeRemove | Assetbundle/Assets/Scripts/ListExtension.cs:23-29 | removes the first occurrence, and leaves the list alone when the item is absent |
| ListExtension.List.PopFirst | Assetbundle/Assets/Scripts/ListExtension.cs:31-34 | returns and removes the head |
| ListExtension.List.PopLast | Assetbundle/Assets/Scripts/ListExtension.cs:36-39 | returns the last item and removes its first occurrence |
| ListExtension.List.Shuffle | Assetbundle/Assets/Scripts/ListExtension.cs:41-50 | the list is a permutation of itself |
| ListExtension.List.AddFirst | Assetbundle/Assets/Scripts/ListExtension.cs:57-63 | the element goes in front |
| ArrayExtensions.CompareIsLexicographic | Assetbundle/Assets/Scripts/ListExtension.cs:87-114 | the comparator orders by the first key, then by the second, each possibly reversed |
| ArrayExtensions.CompareAntisymmetric | Assetbundle/Assets/Scripts/ListExtension.cs:87-114 | swapping the arguments negates the comparison |
| ArrayExtensions.InOrderTransitive | Assetbundle/Assets/Scripts/ListExtension.cs:87-114 | the comparator's order is transitive |
| ArrayExtensions.Sort | Assetbundle/Assets/Scripts/ListExtension.cs:79-115 | the array ends sorted by the comparator and is a permutation of its old contents |
| ArrayExtensions.Insert | Assetbundle/Assets/Scripts/ListExtension.cs:79-115 | one insertion step extends the sorted prefix by one and permutes the array |
| Text.JoinSplit | Assetbundle/Assets/Scripts/FileUtil.cs:194 | splitting on a character and joining back gives the string |
| Text.SplitSingle | Assetbundle/Assets/Scripts/FileUtil.cs:194-196 | a split has one piece iff the separator does not occur, and then that piece is the string |
| Text.SplitLastPiece | Assetbundle/Assets/Scripts/FileUtil.cs:194-218 | the last piece of a split is the text after the last separator |
| Text.AfterLastIsLast | Assetbundle/Assets/EditorAssetBrowser/Editor/UploaderTab/AssetBundleUploader.cs:134-137 | the piece after the last `build/` ends the path and holds no `build/` |
| Text.RemoveAllShrinks | Assetbundle/Assets/Editor/BuildAsset.cs:219-221 | replacing a pattern by the empty string never lengthens the text, and shortens it iff the pattern occurs |
| Text.MetaExtension | Assetbundle/Assets/Editor/BuildAsset.cs:328-330 | the extension is `.meta` iff the name ends in `.meta` |
| Targets.ServerIndex | Assetbundle/Assets/EditorAssetBrowser/Editor/UploaderTab/AssetBundleUpdalerTab.cs:27-33 | every server type indexes the three-entry server list |

## Left out

- Transfers: the FTP transfer coroutines (AssetBundleUploader.cs lines 148-214, with their `WebRequest`, streams and credentials) are left out because they are network I/O. A task is modelled as finished once `Execute` returns. The transfer's exceptions are caught and only logged, so the outcome makes no difference to the scheduler.
- A bundle file that cannot be read, where the read sits outside the try block, is left out because it is I/O. It would leave a task unfinished forever.
- Coroutine stepping, `EditorApplication.update` registration, `Debug.Log` and `EditorUtility.DisplayDialog` are left out because they are editor plumbing with no effect on the modelled state.
- GUI layout in `OnGUI` is left out because it is rendering. The window is modelled by the values the user picks and whether the button was pressed. `ExecuteShell` is left out because it is a process call.
- `OnEnable` is folded into the window's constructor.
- The static FTP account fields are modelled per window.
- MD5, JSON, YAML and CRC, the clock, `File.Exists`, `ToTitleCase` and the platform's persistent path are left out because they are foreign code. Each is a parameter.
- `Random.Range` in `Shuffle` is left out because it is randomness. `Shuffle` is modelled by its effect: the list's multiset is kept.
- ArrayExtensions.Sort: `Array.Sort` is unstable and its algorithm is unspecified. It is modelled as an insertion sort, which promises only sortedness and permutation, as the original does.
- `Directory.GetFiles` and `GetDirectories` order is taken as the order of a `Dir` value's files and subfolders. `Dictionary` enumeration order is taken as insertion order.
- `Path.Combine` is modelled as joining with `/`.
- Folder existence is a set of path strings, so `Output/iOS` and `Output/iOS/` count as different folders. The model tests the exact strings the code uses.
- `Directory.CreateDirectory` also rejects whitespace-only and otherwise malformed paths. Only the empty path, which the code can produce, is modelled.
- ArrayExtensions.Sort: the source's key selectors return any `IComparable`. The model uses integer keys, a consistent total order, in place of `CompareTo`, so a key type whose `CompareTo` is not a total order is not covered.
- `BuildForiOS`, `BuildForAndroid` and `BuildForWindows` are modelled by the one method `BuildForPlatform`, since they differ only in the platform.
- `ResourceVersion` and `FileVersion` serialisation is a `serialize` parameter.
- AssetBundleList.AssetBundleList.CreateAssetVersionFile: requires fewer than five upload files. With five or more, its item loop never terminates; `ManyFilesNeverEnd` proves this on a pass-by-pass model.
- UploaderTab.AssetBundleUploaderTab.UploadTarget: requires fewer than five files for the platform, because it calls CreateAssetVersionFile.
- UploaderTab.AssetBundleUploaderTab.UploadPlatform: the same bound on the platform's files.
- UploaderTab.AssetBundleUploaderTab.UploadMobile: the same bound on Android's and iOS's files.
- UploaderTab.AssetBundleUploaderTab.UploadAll: the same bound on every platform's files.
- UploaderTab.AssetBundleUploaderTab.UploadProcess: the same bound on the chosen platforms' files (`FewFiles`).
- UploaderTab.AssetBundleUploaderTab.OnGUI: the same bound when the press starts an upload.
- The `HashSet.IsEmpty` extension is left out. It is a one-line count test that the pipeline does not use.
