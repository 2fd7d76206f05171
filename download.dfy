/** llm/download.py: the older download-and-archive script, for catalog
    models only. The repository is fetched without the ignored weight
    formats, the local copy is compared with the repository listing, and the
    archive is built in a staging directory of the output store. */
module Download {
  import opened Common
  import opened Host
  import opened SystemUtils
  import opened Catalog
  import opened Hub
  import opened MarsGen
  import opened GenerateData

  /** Extensions skipped by the download and by the listing comparison. */
  const FileExtensionsToIgnore: seq<string> :=
    [".safetensors", ".safetensors.index.json", ".h5", ".ot", ".tflite", ".msgpack", ".onnx"]

  /** download.py declares its own MarUtils and RepoInfo dataclasses, field
      for field the same as the generate script's; the model uses one pair of
      classes for both. As there, the two nested objects are class attributes
      shared by every instance. */
  class DownloadDataModel {
    var modelName: string
    var skipDownload: bool
    var debug: bool
    const marUtils: MarUtils
    const repoInfo: RepoInfo

    constructor (mu: MarUtils, ri: RepoInfo)
      ensures marUtils == mu && repoInfo == ri
      ensures modelName == "" && !skipDownload && !debug
    {
      marUtils, repoInfo := mu, ri;
      modelName, skipDownload, debug := "", false, false;
    }
  }

  /** get_ignore_pattern_list: "*" in front of each extension. */
  function GetIgnorePatternList(extensions: seq<string>): (r: seq<string>)
    ensures |r| == |extensions|
    ensures forall i :: 0 <= i < |r| ==> r[i] == "*" + extensions[i]
  {
    if extensions == [] then [] else ["*" + extensions[0]] + GetIgnorePatternList(extensions[1..])
  }

  /** One extension of the alternation `escape(e1)$|escape(e2)$|...` ends the
      name. The empty alternation is the empty pattern, which matches every
      name. */
  predicate PatternMatches(extensions: seq<string>, name: string)
  {
    extensions == [] || exists i :: 0 <= i < |extensions| && EndsWith(name, extensions[i])
  }

  /** The glob patterns handed to the hub ignore exactly the names the
      regular expression of filter_files_by_extension matches, as long as
      there is at least one extension. */
  lemma IgnorePatternsAgreeWithFilter(extensions: seq<string>, name: string)
    requires extensions != []
    ensures Ignored(GetIgnorePatternList(extensions), name) <==> PatternMatches(extensions, name)
  {
    var ps := GetIgnorePatternList(extensions);
    forall i | 0 <= i < |ps|
      ensures GlobMatches(ps[i], name) <==> EndsWith(name, extensions[i])
    {
      assert ps[i][1..] == extensions[i];
    }
  }

  /** How many times `x` occurs in `xs` (collections.Counter(xs)[x]). */
  function Count(xs: seq<string>, x: string): nat
  {
    if xs == [] then 0 else (if xs[0] == x then 1 else 0) + Count(xs[1..], x)
  }

  lemma {:induction false} CountIsMultiplicity(xs: seq<string>, x: string)
    ensures Count(xs, x) == multiset(xs)[x]
  {
    if xs != [] {
      CountIsMultiplicity(xs[1..], x);
      assert xs == [xs[0]] + xs[1..];
    }
  }

  /** compare_lists: Counter(list1) == Counter(list2). */
  function CompareLists(list1: seq<string>, list2: seq<string>): bool
  {
    multiset(list1) == multiset(list2)
  }

  /** The two Counters are equal exactly when every name occurs equally
      often in both lists. */
  lemma CompareListsCountsEqual(list1: seq<string>, list2: seq<string>)
    ensures CompareLists(list1, list2) <==> forall x :: Count(list1, x) == Count(list2, x)
  {
    forall x ensures Count(list1, x) == multiset(list1)[x] && Count(list2, x) == multiset(list2)[x] {
      CountIsMultiplicity(list1, x);
      CountIsMultiplicity(list2, x);
    }
    if !CompareLists(list1, list2) {
      var x :| multiset(list1)[x] != multiset(list2)[x];
      assert Count(list1, x) != Count(list2, x);
    }
  }

  /** The order of either list does not matter. */
  lemma CompareListsIgnoresOrder(list1: seq<string>, list2: seq<string>, list3: seq<string>)
    requires multiset(list2) == multiset(list3)
    ensures CompareLists(list1, list2) == CompareLists(list1, list3)
    ensures CompareLists(list1, list2) == CompareLists(list2, list1)
  {
  }

  /** filter_files_by_extension: the names the pattern does not match, in
      their original order. */
  function FilterFilesByExtension(filenames: seq<string>, extensions: seq<string>): (r: seq<string>)
    ensures forall f :: f in r <==> f in filenames && !PatternMatches(extensions, f)
    ensures forall f :: multiset(r)[f] == if PatternMatches(extensions, f) then 0 else multiset(filenames)[f]
    ensures |r| <= |filenames|
  {
    if filenames == [] then []
    else
      var rest := FilterFilesByExtension(filenames[1..], extensions);
      assert filenames == [filenames[0]] + filenames[1..];
      if PatternMatches(extensions, filenames[0]) then rest else [filenames[0]] + rest
  }

  /** With no extensions the pattern is empty and filters out everything. */
  lemma {:induction false} FilterWithoutExtensionsIsEmpty(filenames: seq<string>)
    ensures FilterFilesByExtension(filenames, []) == []
  {
    if filenames != [] {
      FilterWithoutExtensionsIsEmpty(filenames[1..]);
    }
  }

  /** The hub keeps exactly the files the filter keeps, in the same order. */
  lemma {:induction false} KeptFilesIsFilter(filenames: seq<string>, extensions: seq<string>)
    requires extensions != []
    ensures KeptFiles(filenames, GetIgnorePatternList(extensions))
         == FilterFilesByExtension(filenames, extensions)
  {
    if filenames != [] {
      IgnorePatternsAgreeWithFilter(extensions, filenames[0]);
      KeptFilesIsFilter(filenames[1..], extensions);
    }
  }

  /** check_if_mar_exists: exit 1 exactly when the archive is already in the
      output store. */
  function CheckIfMarExists(fs: FileSystem, dl: DownloadDataModel): (st: Status)
    reads fs, dl, dl.marUtils
    ensures st == Ok || st == ExitOne
    ensures st == ExitOne <==> fs.Exists(MarPath(dl.marUtils.marOutput, dl.marUtils.marName))
  {
    if fs.Exists(MarPath(dl.marUtils.marOutput, dl.marUtils.marName)) then ExitOne else Ok
  }

  /** check_if_model_files_exist: the local listing, unfiltered, against the
      repository listing with the ignored extensions filtered out. */
  function CheckIfModelFilesExist(fs: FileSystem, hub: Hub, modelPath: Path, repoId: string,
                                  repoVersion: string): (r: Outcome<bool>)
    reads fs
    ensures !CommitExists(hub, repoId, repoVersion) ==> r == Failed(Raise("HfHubHTTPError"))
    ensures CommitExists(hub, repoId, repoVersion) ==> r.Done?
  {
    match ListRepoFiles(hub, repoId, repoVersion)
    case Failed(f) => Failed(f)
    case Done(repoFiles) =>
      Done(CompareLists(GetAllFilesInDirectory(fs, modelPath),
                        FilterFilesByExtension(repoFiles, FileExtensionsToIgnore)))
  }

  /** Only the remote listing is filtered: a local file with an ignored
      extension makes the comparison fail. */
  lemma LocalIgnoredFileFailsCheck(fs: FileSystem, hub: Hub, modelPath: Path, repoId: string,
                                   repoVersion: string, name: string)
    requires CommitExists(hub, repoId, repoVersion)
    requires fs.IsFile(modelPath + "/" + name)
    requires PatternMatches(FileExtensionsToIgnore, name)
    ensures CheckIfModelFilesExist(fs, hub, modelPath, repoId, repoVersion) == Done(false)
  {
    var local := GetAllFilesInDirectory(fs, modelPath);
    ListedFiles(fs, modelPath);
    var remote := FilterFilesByExtension(hub.listing[(repoId, repoVersion)], FileExtensionsToIgnore);
    assert name in local && name !in remote;
    assert multiset(local)[name] != multiset(remote)[name];
  }

  /** Files downloaded into a directory that holds nothing list back as the
      filtered repository listing, in the same order (when the listing has
      no repeats). */
  lemma DownloadedListing(before: seq<Path>, listing: seq<Path>, modelPath: Path)
    requires Distinct(listing)
    requires modelPath != ""
    requires forall i :: 0 <= i < |before| ==> !Under(before[i], modelPath)
    ensures RelativeFiles(AppendNew(before, Prefixed(modelPath,
              KeptFiles(listing, GetIgnorePatternList(FileExtensionsToIgnore)))), modelPath)
         == FilterFilesByExtension(listing, FileExtensionsToIgnore)
  {
    var kept := KeptFiles(listing, GetIgnorePatternList(FileExtensionsToIgnore));
    var written := Prefixed(modelPath, kept);
    KeptFilesDistinct(listing, GetIgnorePatternList(FileExtensionsToIgnore));
    PrefixedDistinct(modelPath, kept);
    forall i | 0 <= i < |written| ensures written[i] !in before {
      ConcatAffixes(modelPath + "/", kept[i]);
    }
    AppendNewFresh(before, written);
    RelativeFilesAppend(before, written, modelPath);
    RelativeFilesNone(before, modelPath);
    RelativeFilesPrefixed(modelPath, kept);
    assert RelativeFiles(before, modelPath) + kept == kept;
    KeptFilesIsFilter(listing, FileExtensionsToIgnore);
  }

  /** A download into an empty model directory passes the file check that
      create_mar makes next. */
  lemma DownloadedFilesPassCheck(fs: FileSystem, hub: Hub, modelPath: Path, repoId: string,
                                 repoVersion: string, before: seq<Path>)
    requires CommitExists(hub, repoId, repoVersion)
    requires Distinct(hub.listing[(repoId, repoVersion)])
    requires modelPath != ""
    requires forall i :: 0 <= i < |before| ==> !Under(before[i], modelPath)
    requires fs.files == AppendNew(before, Prefixed(modelPath,
      KeptFiles(hub.listing[(repoId, repoVersion)], GetIgnorePatternList(FileExtensionsToIgnore))))
    ensures GetAllFilesInDirectory(fs, modelPath)
         == FilterFilesByExtension(hub.listing[(repoId, repoVersion)], FileExtensionsToIgnore)
    ensures CheckIfModelFilesExist(fs, hub, modelPath, repoId, repoVersion) == Done(true)
  {
    DownloadedListing(before, hub.listing[(repoId, repoVersion)], modelPath);
  }

  /** The staging directory: "tmp_<mar_name>" inside the output store. */
  function TmpDirFor(marOutput: Path, marName: string): Path
  {
    PathJoin(marOutput, "tmp_" + marName)
  }

  /** "<mar_name>.mar" is never "tmp_<mar_name>": one more '.' on the left. */
  lemma NotStagingName(marName: string)
    ensures marName + ".mar" != "tmp_" + marName
  {
    assert multiset(marName + ".mar")['.'] == multiset(marName)['.'] + 1;
    assert multiset("tmp_" + marName)['.'] == multiset(marName)['.'];
  }

  /** The archive in the store never lies inside the staging directory. */
  lemma ArchiveOutsideStaging(marOutput: Path, marName: string)
    ensures !Within(MarPath(marOutput, marName), TmpDirFor(marOutput, marName))
  {
    NotStagingName(marName);
    if marOutput != "" {
      var dst, tmp := marOutput + "/" + (marName + ".mar"), marOutput + "/" + ("tmp_" + marName);
      assert dst[|marOutput| + 1..] == marName + ".mar";
      assert tmp[|marOutput| + 1..] == "tmp_" + marName;
    }
  }

  /** create_tmp_model_store: remove any previous staging directory with its
      contents, then create it again. */
  method CreateTmpModelStore(fs: FileSystem, marOutput: Path, marName: string) returns (tmpDir: Path)
    modifies fs
    ensures tmpDir == TmpDirFor(marOutput, marName)
    ensures old(fs.IsDir(tmpDir)) ==> fs.files == Outside(old(fs.files), tmpDir)
    ensures !old(fs.IsDir(tmpDir)) ==> fs.files == old(fs.files)
    ensures fs.dirs == (if old(fs.IsDir(tmpDir)) then set d | d in old(fs.dirs) && !Within(d, tmpDir)
                        else old(fs.dirs)) + Lineage(tmpDir)
    ensures fs.IsDir(tmpDir)
    ensures old(fs.IsDir(tmpDir)) ==> NoEntriesBelow(fs, tmpDir)
  {
    tmpDir := TmpDirFor(marOutput, marName);
    var wasDir := fs.IsDir(tmpDir);
    fs.RmDir(tmpDir);
    fs.MakeDirs(tmpDir);
    if wasDir {
      forall i | 0 <= i < |fs.files| ensures !Under(fs.files[i], tmpDir) {
        assert fs.files[i] in fs.files;
      }
    }
  }

  /** move_mar: rename "<model_name>.mar" in the staging directory to
      "<mar_name>.mar" in the store; exit 1 if the archiver left nothing. */
  method MoveMar(fs: FileSystem, dl: DownloadDataModel, tmpDir: Path) returns (st: Status)
    modifies fs
    ensures fs.dirs == old(fs.dirs)
    ensures old(fs.IsFile(PathJoin(tmpDir, dl.modelName + ".mar"))) ==>
      st == Ok && fs.files == AppendNew(Without(old(fs.files), PathJoin(tmpDir, dl.modelName + ".mar")),
                                        [MarPath(dl.marUtils.marOutput, dl.marUtils.marName)])
    ensures !old(fs.IsFile(PathJoin(tmpDir, dl.modelName + ".mar"))) ==>
      st == ExitOne && fs.files == old(fs.files)
  {
    var src := PathJoin(tmpDir, dl.modelName + ".mar");
    var dst := MarPath(dl.marUtils.marOutput, dl.marUtils.marName);
    st := CheckPathExists(fs, src, false);
    if st == Ok {
      fs.MoveFile(src, dst);
    }
  }

  /** What read_config_for_download settles about a catalog model. */
  datatype Resolution = Resolution(repoId: string, repoVersion: string, handlerPath: Path)

  /** read_config_for_download as a function of the catalog, the hub and the
      command line. Every failure, caught KeyError and HfHubHTTPError
      included, is exit 1. */
  function Resolve(catalog: Catalog, hub: Hub, modelName: string, repoVersion: string,
                   hfToken: Option<string>, handlerPath: Path): (r: Outcome<Resolution>)
    ensures r.Failed? ==> r == Failed(Exit(1))
    // Only catalog models are accepted.
    ensures modelName !in catalog ==> r.Failed?
    ensures r.Done? ==> Some(r.value.repoId) == catalog[modelName].repoId
    // The catalog's revision only fills in an empty one.
    ensures r.Done? && repoVersion != "" ==> r.value.repoVersion == repoVersion
    ensures r.Done? && repoVersion == "" ==> Some(r.value.repoVersion) == catalog[modelName].repoVersion
    // Gated meta-llama repositories need a token; the revision must exist.
    ensures r.Done? ==> !(StartsWith(r.value.repoId, "meta-llama") && hfToken.None?)
    ensures r.Done? ==> CommitExists(hub, r.value.repoId, r.value.repoVersion)
    ensures r.Done? && handlerPath != "" ==> r.value.handlerPath == handlerPath
    ensures r.Done? && handlerPath == "" ==>
      catalog[modelName].handler.Some?
      && r.value.handlerPath == PathJoin(LlmDir, catalog[modelName].handler.value)
    // And it succeeds whenever every one of those lookups and checks passes.
    ensures r.Done? <==>
      && modelName in catalog
      && catalog[modelName].repoId.Some?
      && (repoVersion != "" || catalog[modelName].repoVersion.Some?)
      && !(StartsWith(catalog[modelName].repoId.value, "meta-llama") && hfToken.None?)
      && CommitExists(hub, catalog[modelName].repoId.value,
                      if repoVersion != "" then repoVersion else catalog[modelName].repoVersion.value)
      && (handlerPath != "" || catalog[modelName].handler.Some?)
  {
    if modelName !in catalog then Failed(Exit(1))
    else
      var e := catalog[modelName];
      if e.repoId.None? then Failed(Exit(1))
      else if repoVersion == "" && e.repoVersion.None? then Failed(Exit(1))
      else
        var v := if repoVersion != "" then repoVersion else e.repoVersion.value;
        if StartsWith(e.repoId.value, "meta-llama") && hfToken.None? then Failed(Exit(1))
        else if !CommitExists(hub, e.repoId.value, v) then Failed(Exit(1))
        else if handlerPath == "" && e.handler.None? then Failed(Exit(1))
        else
          var h := if handlerPath != "" then handlerPath else PathJoin(LlmDir, e.handler.value);
          Done(Resolution(e.repoId.value, v, h))
  }

  /** A gated repository without a token is refused whatever else holds. */
  lemma MetaLlamaNeedsToken(catalog: Catalog, hub: Hub, modelName: string, repoVersion: string,
                            handlerPath: Path)
    requires modelName in catalog && catalog[modelName].repoId.Some?
    requires StartsWith(catalog[modelName].repoId.value, "meta-llama")
    ensures Resolve(catalog, hub, modelName, repoVersion, None, handlerPath) == Failed(Exit(1))
  {
  }

  /** read_config_for_download, assigning the shared objects step by step. */
  method ReadConfigForDownload(dl: DownloadDataModel, catalog: Catalog, hub: Hub) returns (st: Status)
    modifies dl.marUtils, dl.repoInfo
    ensures var r := old(Resolve(catalog, hub, dl.modelName, dl.repoInfo.repoVersion,
                                 dl.repoInfo.hfToken, dl.marUtils.handlerPath));
      && (r.Failed? ==> st == Fail(r.failure))
      && (r.Done? ==>
            && st == Ok
            && dl.repoInfo.repoId == r.value.repoId
            && dl.repoInfo.repoVersion == r.value.repoVersion
            && dl.marUtils.handlerPath == r.value.handlerPath)
    ensures dl.repoInfo.hfToken == old(dl.repoInfo.hfToken)
    ensures dl.marUtils.marOutput == old(dl.marUtils.marOutput)
    ensures dl.marUtils.modelPath == old(dl.marUtils.modelPath)
    ensures dl.marUtils.marName == old(dl.marUtils.marName)
  {
    var mu, ri := dl.marUtils, dl.repoInfo;
    if dl.modelName !in catalog {
      return ExitOne;
    }
    var e := catalog[dl.modelName];
    if e.repoId.None? {
      return ExitOne;
    }
    ri.repoId := e.repoId.value;
    if ri.repoVersion == "" {
      if e.repoVersion.None? {
        return ExitOne;
      }
      ri.repoVersion := e.repoVersion.value;
    }
    if StartsWith(ri.repoId, "meta-llama") && ri.hfToken.None? {
      return ExitOne;
    }
    if !CommitExists(hub, ri.repoId, ri.repoVersion) {
      return ExitOne;
    }
    if mu.handlerPath == "" {
      if e.handler.None? {
        return ExitOne;
      }
      mu.handlerPath := PathJoin(LlmDir, e.handler.value);
    }
    st := Ok;
  }

  /** Resolve applied to a command line. */
  function ResolveParams(catalog: Catalog, hub: Hub, params: Params): Outcome<Resolution>
  {
    Resolve(catalog, hub, params.modelName, params.repoVersion, params.hfToken, params.handlerPath)
  }

  /** set_values: a fresh data model over the shared objects, filled from
      the command line, resolved against the catalog, and named
      "<model_name>_<revision prefix>". */
  method SetValues(params: Params, mu: MarUtils, ri: RepoInfo, catalog: Catalog, hub: Hub)
    returns (dl: DownloadDataModel, st: Status)
    modifies mu, ri
    ensures dl.marUtils == mu && dl.repoInfo == ri
    ensures dl.modelName == params.modelName && dl.skipDownload == params.noDownload
    ensures mu.marOutput == params.marOutput && mu.modelPath == params.modelPath
    ensures ResolveParams(catalog, hub, params).Failed? ==>
      st == Fail(ResolveParams(catalog, hub, params).failure)
    ensures ResolveParams(catalog, hub, params).Done? ==>
      && st == Ok
      && var res := ResolveParams(catalog, hub, params).value;
      && ri.repoId == res.repoId && ri.repoVersion == res.repoVersion
      && mu.handlerPath == res.handlerPath
      && mu.marName == GetMarName(params.modelName, res.repoVersion, false)
  {
    dl := new DownloadDataModel(mu, ri);
    dl.modelName := params.modelName;
    dl.skipDownload := params.noDownload;
    dl.debug := params.debug;
    ri.hfToken := params.hfToken;
    ri.repoVersion := params.repoVersion;
    mu.handlerPath := params.handlerPath;
    mu.modelPath := params.modelPath;
    mu.marOutput := params.marOutput;
    st := ReadConfigForDownload(dl, catalog, hub);
    if st != Ok {
      return;
    }
    mu.marName := GetMarName(dl.modelName, ri.repoVersion, false);
  }

  /** run_download: the model directory must be empty; then the repository
      is fetched into it without the ignored extensions. */
  method RunDownload(dl: DownloadDataModel, fs: FileSystem, hub: Hub) returns (st: Status)
    modifies fs
    ensures fs.dirs == old(fs.dirs)
    ensures old(CheckFolderEmpty(fs, dl.marUtils.modelPath)).Failed? ==>
      st == Fail(old(CheckFolderEmpty(fs, dl.marUtils.modelPath)).failure) && fs.files == old(fs.files)
    ensures old(CheckFolderEmpty(fs, dl.marUtils.modelPath)) == Done(false) ==>
      st == ExitOne && fs.files == old(fs.files)
    ensures old(CheckFolderEmpty(fs, dl.marUtils.modelPath)) == Done(true) ==>
      if CommitExists(hub, dl.repoInfo.repoId, dl.repoInfo.repoVersion) then
        st == Ok && fs.files == AppendNew(old(fs.files), Prefixed(dl.marUtils.modelPath,
          KeptFiles(hub.listing[(dl.repoInfo.repoId, dl.repoInfo.repoVersion)],
                    GetIgnorePatternList(FileExtensionsToIgnore))))
      else
        st == Fail(Raise("HfHubHTTPError")) && fs.files == old(fs.files)
  {
    var empty := CheckFolderEmpty(fs, dl.marUtils.modelPath);
    if empty.Failed? {
      return Fail(empty.failure);
    }
    if !empty.value {
      return ExitOne;
    }
    st := SnapshotDownload(fs, hub, dl.repoInfo.repoId, dl.repoInfo.repoVersion,
                           dl.marUtils.modelPath, GetIgnorePatternList(FileExtensionsToIgnore));
  }

  /** The handler is still a file once create_tmp_model_store has removed
      the earlier staging directory `tmpDir` (which existed when
      `wasStaging`) together with everything in it. */
  predicate HandlerSurvivesStaging(files: seq<Path>, wasStaging: bool, handlerPath: Path, tmpDir: Path)
  {
    handlerPath in files && (wasStaging ==> !Within(handlerPath, tmpDir))
  }

  /** create_mar as written: it passes `dl_model=` to generate_mars, whose
      parameter is `gen_model`, so Python raises TypeError once the file
      check passes and the staging directory exists; no archive is built. */
  method CreateMarAsWritten(dl: DownloadDataModel, fs: FileSystem, hub: Hub) returns (st: Status)
    modifies fs
    ensures st != Ok
    ensures old(CheckIfModelFilesExist(fs, hub, dl.marUtils.modelPath, dl.repoInfo.repoId,
                                       dl.repoInfo.repoVersion)) == Done(true) ==>
      st == Fail(Raise("TypeError"))
  {
    var matches := CheckIfModelFilesExist(fs, hub, dl.marUtils.modelPath, dl.repoInfo.repoId,
                                          dl.repoInfo.repoVersion);
    if matches.Failed? {
      return Fail(matches.failure);
    }
    if !matches.value {
      return ExitOne;
    }
    var _ := CreateTmpModelStore(fs, dl.marUtils.marOutput, dl.marUtils.marName);
    st := Fail(Raise("TypeError"));
  }

  /** create_mar with the data model passed as `gen_model`. It succeeds
      exactly when the local files match the repository, the handler is
      still there once the staging directory has been emptied, and the
      archiver succeeds. On success the archive is in the store and the
      staging directory is gone. */
  method CreateMar(dl: DownloadDataModel, fs: FileSystem, hub: Hub, archiverSucceeds: bool)
    returns (st: Status)
    modifies fs
    ensures st == Ok <==>
      && old(CheckIfModelFilesExist(fs, hub, dl.marUtils.modelPath, dl.repoInfo.repoId,
                                    dl.repoInfo.repoVersion)) == Done(true)
      && old(HandlerSurvivesStaging(fs.files, fs.IsDir(TmpDirFor(dl.marUtils.marOutput, dl.marUtils.marName)),
                                    dl.marUtils.handlerPath, TmpDirFor(dl.marUtils.marOutput, dl.marUtils.marName)))
      && archiverSucceeds
    ensures st == Ok ==>
      && fs.IsFile(MarPath(dl.marUtils.marOutput, dl.marUtils.marName))
      && !fs.IsDir(TmpDirFor(dl.marUtils.marOutput, dl.marUtils.marName))
    // A failed or negative file check stops before anything changes.
    ensures old(CheckIfModelFilesExist(fs, hub, dl.marUtils.modelPath, dl.repoInfo.repoId,
                                       dl.repoInfo.repoVersion)).Failed? ==>
      && st == Fail(old(CheckIfModelFilesExist(fs, hub, dl.marUtils.modelPath, dl.repoInfo.repoId,
                                               dl.repoInfo.repoVersion)).failure)
      && fs.files == old(fs.files) && fs.dirs == old(fs.dirs)
    ensures old(CheckIfModelFilesExist(fs, hub, dl.marUtils.modelPath, dl.repoInfo.repoId,
                                       dl.repoInfo.repoVersion)) == Done(false) ==>
      st == ExitOne && fs.files == old(fs.files) && fs.dirs == old(fs.dirs)
    // Once staging has begun, a missing handler or a failing archiver exits
    // before the staging directory is removed: it is left behind, emptied of
    // what it held before, and no archive reaches the store.
    ensures
      var tmpDir := TmpDirFor(dl.marUtils.marOutput, dl.marUtils.marName);
      && old(CheckIfModelFilesExist(fs, hub, dl.marUtils.modelPath, dl.repoInfo.repoId,
                                    dl.repoInfo.repoVersion)) == Done(true)
      && !(old(HandlerSurvivesStaging(fs.files, fs.IsDir(tmpDir), dl.marUtils.handlerPath, tmpDir))
           && archiverSucceeds)
      ==>
      && st == ExitOne
      && fs.files == (if old(fs.IsDir(tmpDir)) then Outside(old(fs.files), tmpDir) else old(fs.files))
      && fs.IsDir(tmpDir)
  {
    var matches := CheckIfModelFilesExist(fs, hub, dl.marUtils.modelPath, dl.repoInfo.repoId,
                                          dl.repoInfo.repoVersion);
    if matches.Failed? {
      return Fail(matches.failure);
    }
    if !matches.value {
      return ExitOne;
    }
    var tmpDir := CreateTmpModelStore(fs, dl.marUtils.marOutput, dl.marUtils.marName);
    var _, built := GenerateMars(fs, dl.modelName, dl.repoInfo.repoVersion, dl.marUtils.handlerPath,
                                 dl.marUtils.modelPath, tmpDir, archiverSucceeds);
    if built != Ok {
      return built;
    }
    st := MoveMar(fs, dl, tmpDir);
    if st != Ok {
      return;
    }
    ArchiveOutsideStaging(dl.marUtils.marOutput, dl.marUtils.marName);
    fs.RmDir(tmpDir);
  }

  /** The files on the host once run_script's download step is done: the
      kept repository files are added below the model directory, unless the
      download is skipped (or the revision is unknown, when nothing is
      fetched). */
  function FilesAfterDownload(fs: FileSystem, hub: Hub, skipDownload: bool, modelPath: Path,
                              repoId: string, repoVersion: string): seq<Path>
    reads fs
  {
    if skipDownload || !CommitExists(hub, repoId, repoVersion) then fs.files
    else AppendNew(fs.files, Prefixed(modelPath, KeptFiles(hub.listing[(repoId, repoVersion)],
                                                           GetIgnorePatternList(FileExtensionsToIgnore))))
  }

  /** When run_script reaches create_mar's staging step, in terms of the
      host before the run: both directories exist, the archive does not,
      the revision exists, the model directory starts empty unless the
      download is skipped, and the files then below it match the filtered
      repository listing. */
  predicate StagingStarts(fs: FileSystem, hub: Hub, skipDownload: bool, modelPath: Path, marOutput: Path,
                          marName: string, repoId: string, repoVersion: string)
    reads fs
  {
    && fs.IsDir(modelPath) && fs.IsDir(marOutput)
    && !fs.Exists(MarPath(marOutput, marName))
    && CommitExists(hub, repoId, repoVersion)
    && (!skipDownload ==> NoEntriesBelow(fs, modelPath))
    && CompareLists(RelativeFiles(FilesAfterDownload(fs, hub, skipDownload, modelPath, repoId, repoVersion),
                                  modelPath),
                    FilterFilesByExtension(hub.listing[(repoId, repoVersion)], FileExtensionsToIgnore))
  }

  /** When run_script builds the archive: staging starts, the handler
      survives it and the archiver succeeds. */
  predicate RunSucceeds(fs: FileSystem, hub: Hub, skipDownload: bool, modelPath: Path, marOutput: Path,
                        marName: string, repoId: string, repoVersion: string, handlerPath: Path,
                        archiverSucceeds: bool)
    reads fs
  {
    && StagingStarts(fs, hub, skipDownload, modelPath, marOutput, marName, repoId, repoVersion)
    && HandlerSurvivesStaging(FilesAfterDownload(fs, hub, skipDownload, modelPath, repoId, repoVersion),
                              fs.IsDir(TmpDirFor(marOutput, marName)), handlerPath, TmpDirFor(marOutput, marName))
    && archiverSucceeds
  }

  /** With both directories there and no archive yet, a download into an
      empty model directory reaches the staging step (when the repository
      listing has no repeats). */
  lemma EmptyDownloadStages(fs: FileSystem, hub: Hub, modelPath: Path, marOutput: Path,
                            marName: string, repoId: string, repoVersion: string)
    requires modelPath != ""
    requires fs.IsDir(modelPath) && NoEntriesBelow(fs, modelPath)
    requires fs.IsDir(marOutput) && !fs.Exists(MarPath(marOutput, marName))
    requires CommitExists(hub, repoId, repoVersion) && Distinct(hub.listing[(repoId, repoVersion)])
    ensures StagingStarts(fs, hub, false, modelPath, marOutput, marName, repoId, repoVersion)
  {
    DownloadedListing(fs.files, hub.listing[(repoId, repoVersion)], modelPath);
  }

  /** The last two steps of run_script, once both directories are known to
      exist and the archive not to: download unless skipped, then build the
      archive. */
  method DownloadAndBuild(dl: DownloadDataModel, fs: FileSystem, hub: Hub, archiverSucceeds: bool)
    returns (st: Status)
    requires fs.IsDir(dl.marUtils.modelPath) && fs.IsDir(dl.marUtils.marOutput)
    requires !fs.Exists(MarPath(dl.marUtils.marOutput, dl.marUtils.marName))
    modifies fs
    ensures st == Ok <==>
      old(RunSucceeds(fs, hub, dl.skipDownload, dl.marUtils.modelPath, dl.marUtils.marOutput,
                      dl.marUtils.marName, dl.repoInfo.repoId, dl.repoInfo.repoVersion,
                      dl.marUtils.handlerPath, archiverSucceeds))
    ensures st == Ok ==> fs.IsFile(MarPath(dl.marUtils.marOutput, dl.marUtils.marName))
    ensures !dl.skipDownload && !old(NoEntriesBelow(fs, dl.marUtils.modelPath)) ==>
      st == ExitOne && fs.files == old(fs.files) && fs.dirs == old(fs.dirs)
    ensures
      && (dl.skipDownload || old(NoEntriesBelow(fs, dl.marUtils.modelPath)))
      && !CommitExists(hub, dl.repoInfo.repoId, dl.repoInfo.repoVersion)
      ==> st == Fail(Raise("HfHubHTTPError")) && fs.files == old(fs.files) && fs.dirs == old(fs.dirs)
    ensures
      var mu, ri := dl.marUtils, dl.repoInfo;
      && (dl.skipDownload || old(NoEntriesBelow(fs, mu.modelPath)))
      && CommitExists(hub, ri.repoId, ri.repoVersion)
      && !old(StagingStarts(fs, hub, dl.skipDownload, mu.modelPath, mu.marOutput, mu.marName,
                            ri.repoId, ri.repoVersion))
      ==>
      && st == ExitOne && fs.dirs == old(fs.dirs)
      && fs.files == old(FilesAfterDownload(fs, hub, dl.skipDownload, mu.modelPath, ri.repoId, ri.repoVersion))
    ensures
      var mu, ri := dl.marUtils, dl.repoInfo;
      && old(StagingStarts(fs, hub, dl.skipDownload, mu.modelPath, mu.marOutput, mu.marName,
                           ri.repoId, ri.repoVersion))
      && !old(RunSucceeds(fs, hub, dl.skipDownload, mu.modelPath, mu.marOutput, mu.marName,
                          ri.repoId, ri.repoVersion, mu.handlerPath, archiverSucceeds))
      ==> st == ExitOne && fs.IsDir(TmpDirFor(mu.marOutput, mu.marName))
  {
    var mu, ri := dl.marUtils, dl.repoInfo;
    ghost var after := FilesAfterDownload(fs, hub, dl.skipDownload, mu.modelPath, ri.repoId, ri.repoVersion);
    ghost var wasStaging := fs.IsDir(TmpDirFor(mu.marOutput, mu.marName));
    if !dl.skipDownload {
      st := RunDownload(dl, fs, hub);
      if st != Ok {
        return;
      }
    }
    assert fs.files == after && fs.IsDir(TmpDirFor(mu.marOutput, mu.marName)) == wasStaging;
    st := CreateMar(dl, fs, hub, archiverSucceeds);
  }

  /** The steps of run_script after set_values, with create_mar corrected:
      validate the paths, refuse an archive that is already there, download
      unless asked not to, then build the archive. Every exit is stated, in
      the order the script takes them. */
  method ProduceMar(dl: DownloadDataModel, fs: FileSystem, hub: Hub, archiverSucceeds: bool)
    returns (st: Status)
    modifies fs
    ensures st == Ok <==>
      old(RunSucceeds(fs, hub, dl.skipDownload, dl.marUtils.modelPath, dl.marUtils.marOutput,
                      dl.marUtils.marName, dl.repoInfo.repoId, dl.repoInfo.repoVersion,
                      dl.marUtils.handlerPath, archiverSucceeds))
    ensures st == Ok ==> fs.IsFile(MarPath(dl.marUtils.marOutput, dl.marUtils.marName))
    // The path checks and the archive check come before any change.
    ensures !old(fs.IsDir(dl.marUtils.modelPath)) ==>
      st == ExitOne && fs.files == old(fs.files) && fs.dirs == old(fs.dirs)
    ensures !old(fs.IsDir(dl.marUtils.marOutput)) ==>
      st == ExitOne && fs.files == old(fs.files) && fs.dirs == old(fs.dirs)
    ensures old(fs.Exists(MarPath(dl.marUtils.marOutput, dl.marUtils.marName))) ==>
      st == ExitOne && fs.files == old(fs.files) && fs.dirs == old(fs.dirs)
    // A model directory that is not empty is refused before a download.
    ensures !dl.skipDownload && !old(NoEntriesBelow(fs, dl.marUtils.modelPath)) ==>
      st == ExitOne && fs.files == old(fs.files) && fs.dirs == old(fs.dirs)
    // An unknown revision raises, from the download or from the file check.
    ensures
      var mu, ri := dl.marUtils, dl.repoInfo;
      && old(fs.IsDir(mu.modelPath)) && old(fs.IsDir(mu.marOutput))
      && !old(fs.Exists(MarPath(mu.marOutput, mu.marName)))
      && (dl.skipDownload || old(NoEntriesBelow(fs, mu.modelPath)))
      && !CommitExists(hub, ri.repoId, ri.repoVersion)
      ==> st == Fail(Raise("HfHubHTTPError")) && fs.files == old(fs.files) && fs.dirs == old(fs.dirs)
    // Files that do not match the repository exit 1 before staging; what
    // was downloaded stays.
    ensures
      var mu, ri := dl.marUtils, dl.repoInfo;
      && old(fs.IsDir(mu.modelPath)) && old(fs.IsDir(mu.marOutput))
      && !old(fs.Exists(MarPath(mu.marOutput, mu.marName)))
      && (dl.skipDownload || old(NoEntriesBelow(fs, mu.modelPath)))
      && CommitExists(hub, ri.repoId, ri.repoVersion)
      && !old(StagingStarts(fs, hub, dl.skipDownload, mu.modelPath, mu.marOutput, mu.marName,
                            ri.repoId, ri.repoVersion))
      ==>
      && st == ExitOne && fs.dirs == old(fs.dirs)
      && fs.files == old(FilesAfterDownload(fs, hub, dl.skipDownload, mu.modelPath, ri.repoId, ri.repoVersion))
    // The archive is not built once staging has begun: the staging
    // directory is left behind.
    ensures
      var mu, ri := dl.marUtils, dl.repoInfo;
      && old(StagingStarts(fs, hub, dl.skipDownload, mu.modelPath, mu.marOutput, mu.marName,
                           ri.repoId, ri.repoVersion))
      && !old(RunSucceeds(fs, hub, dl.skipDownload, mu.modelPath, mu.marOutput, mu.marName,
                          ri.repoId, ri.repoVersion, mu.handlerPath, archiverSucceeds))
      ==> st == ExitOne && fs.IsDir(TmpDirFor(mu.marOutput, mu.marName))
    // A download into an empty directory always passes the file check.
    ensures
      var mu, ri := dl.marUtils, dl.repoInfo;
      && !dl.skipDownload && mu.modelPath != ""
      && old(fs.IsDir(mu.modelPath)) && old(NoEntriesBelow(fs, mu.modelPath))
      && old(fs.IsDir(mu.marOutput)) && !old(fs.Exists(MarPath(mu.marOutput, mu.marName)))
      && CommitExists(hub, ri.repoId, ri.repoVersion)
      && Distinct(hub.listing[(ri.repoId, ri.repoVersion)])
      && old(fs.IsFile(mu.handlerPath))
      && !Within(mu.handlerPath, TmpDirFor(mu.marOutput, mu.marName))
      && archiverSucceeds
      ==> st == Ok
  {
    var mu, ri := dl.marUtils, dl.repoInfo;
    st := CheckPathExists(fs, mu.modelPath, true);
    if st != Ok {
      return;
    }
    st := CheckPathExists(fs, mu.marOutput, true);
    if st != Ok {
      return;
    }
    st := CheckIfMarExists(fs, dl);
    if st != Ok {
      return;
    }
    if !dl.skipDownload && mu.modelPath != "" && NoEntriesBelow(fs, mu.modelPath)
       && CommitExists(hub, ri.repoId, ri.repoVersion) && Distinct(hub.listing[(ri.repoId, ri.repoVersion)]) {
      EmptyDownloadStages(fs, hub, mu.modelPath, mu.marOutput, mu.marName, ri.repoId, ri.repoVersion);
    }
    st := DownloadAndBuild(dl, fs, hub, archiverSucceeds);
  }

  /** run_script, with create_mar corrected. Every exit is stated in terms
      of the command line: a successful run leaves the archive named after
      the model and the resolved revision in the output store, and a
      complete set of working inputs does give a successful run. */
  method RunScript(params: Params, mu: MarUtils, ri: RepoInfo, catalog: Catalog, hub: Hub,
                   fs: FileSystem, archiverSucceeds: bool)
    returns (st: Status)
    modifies mu, ri, fs
    ensures var res := ResolveParams(catalog, hub, params);
      st == Ok <==>
        && res.Done?
        && old(RunSucceeds(fs, hub, params.noDownload, params.modelPath, params.marOutput,
                           GetMarName(params.modelName, res.value.repoVersion, false),
                           res.value.repoId, res.value.repoVersion, res.value.handlerPath, archiverSucceeds))
    ensures st == Ok ==>
      && ResolveParams(catalog, hub, params).Done?
      && mu.marOutput == params.marOutput
      && mu.marName == GetMarName(params.modelName, ResolveParams(catalog, hub, params).value.repoVersion, false)
      && fs.IsFile(MarPath(mu.marOutput, mu.marName))
    ensures ResolveParams(catalog, hub, params).Failed? ==>
      && st == Fail(ResolveParams(catalog, hub, params).failure)
      && fs.files == old(fs.files) && fs.dirs == old(fs.dirs)
    // A missing model directory or output store exits 1 before any change.
    ensures (ResolveParams(catalog, hub, params).Done?
             && (!old(fs.IsDir(params.modelPath)) || !old(fs.IsDir(params.marOutput)))) ==>
      st == ExitOne && fs.files == old(fs.files) && fs.dirs == old(fs.dirs)
    ensures ResolveParams(catalog, hub, params).Done? &&
      old(fs.Exists(MarPath(params.marOutput,
        GetMarName(params.modelName, ResolveParams(catalog, hub, params).value.repoVersion, false))))
      ==> st == ExitOne && fs.files == old(fs.files) && fs.dirs == old(fs.dirs)
    // A model directory that is not empty is refused before a download.
    ensures (ResolveParams(catalog, hub, params).Done? && !params.noDownload
             && !old(NoEntriesBelow(fs, params.modelPath))) ==>
      st == ExitOne && fs.files == old(fs.files) && fs.dirs == old(fs.dirs)
    // Files that do not match the repository, skipped download or not,
    // exit 1 before staging.
    ensures
      var res := ResolveParams(catalog, hub, params);
      && res.Done?
      && old(fs.IsDir(params.modelPath)) && old(fs.IsDir(params.marOutput))
      && !old(fs.Exists(MarPath(params.marOutput, GetMarName(params.modelName, res.value.repoVersion, false))))
      && (params.noDownload || old(NoEntriesBelow(fs, params.modelPath)))
      && !old(StagingStarts(fs, hub, params.noDownload, params.modelPath, params.marOutput,
                            GetMarName(params.modelName, res.value.repoVersion, false),
                            res.value.repoId, res.value.repoVersion))
      ==>
      && st == ExitOne && fs.dirs == old(fs.dirs)
      && fs.files == old(FilesAfterDownload(fs, hub, params.noDownload, params.modelPath,
                                            res.value.repoId, res.value.repoVersion))
    // A missing handler or a failing archiver, once staging has begun,
    // exits 1 and leaves the staging directory behind.
    ensures
      var res := ResolveParams(catalog, hub, params);
      && res.Done?
      && old(StagingStarts(fs, hub, params.noDownload, params.modelPath, params.marOutput,
                           GetMarName(params.modelName, res.value.repoVersion, false),
                           res.value.repoId, res.value.repoVersion))
      && !old(RunSucceeds(fs, hub, params.noDownload, params.modelPath, params.marOutput,
                          GetMarName(params.modelName, res.value.repoVersion, false),
                          res.value.repoId, res.value.repoVersion, res.value.handlerPath, archiverSucceeds))
      ==>
      && st == ExitOne
      && fs.IsDir(TmpDirFor(params.marOutput, GetMarName(params.modelName, res.value.repoVersion, false)))
    ensures
      var res := ResolveParams(catalog, hub, params);
      && res.Done? && !params.noDownload && params.modelPath != ""
      && old(fs.IsDir(params.modelPath)) && old(NoEntriesBelow(fs, params.modelPath))
      && old(fs.IsDir(params.marOutput))
      && !old(fs.Exists(MarPath(params.marOutput, GetMarName(params.modelName, res.value.repoVersion, false))))
      && CommitExists(hub, res.value.repoId, res.value.repoVersion)
      && Distinct(hub.listing[(res.value.repoId, res.value.repoVersion)])
      && old(fs.IsFile(res.value.handlerPath))
      && !Within(res.value.handlerPath,
                 TmpDirFor(params.marOutput, GetMarName(params.modelName, res.value.repoVersion, false)))
      && archiverSucceeds
      ==> st == Ok
    ensures
      var res := ResolveParams(catalog, hub, params);
      && res.Done? && !params.noDownload && params.modelPath != ""
      && old(fs.IsDir(params.modelPath)) && old(NoEntriesBelow(fs, params.modelPath))
      && old(fs.IsDir(params.marOutput))
      && !old(fs.Exists(MarPath(params.marOutput, GetMarName(params.modelName, res.value.repoVersion, false))))
      && CommitExists(hub, res.value.repoId, res.value.repoVersion)
      && Distinct(hub.listing[(res.value.repoId, res.value.repoVersion)])
      && !archiverSucceeds
      ==>
      && st == ExitOne
      && fs.IsDir(TmpDirFor(params.marOutput, GetMarName(params.modelName, res.value.repoVersion, false)))
  {
    var dl;
    dl, st := SetValues(params, mu, ri, catalog, hub);
    if st != Ok {
      return;
    }
    ghost var res := ResolveParams(catalog, hub, params).value;
    assert fs.files == old(fs.files) && fs.dirs == old(fs.dirs);
    assert && dl.skipDownload == params.noDownload
           && mu.modelPath == params.modelPath && mu.marOutput == params.marOutput
           && mu.marName == GetMarName(params.modelName, res.repoVersion, false)
           && ri.repoId == res.repoId && ri.repoVersion == res.repoVersion
           && mu.handlerPath == res.handlerPath;
    if !params.noDownload && params.modelPath != "" && fs.IsDir(params.modelPath)
       && NoEntriesBelow(fs, params.modelPath) && fs.IsDir(params.marOutput)
       && !fs.Exists(MarPath(params.marOutput, mu.marName))
       && CommitExists(hub, res.repoId, res.repoVersion) && Distinct(hub.listing[(res.repoId, res.repoVersion)]) {
      EmptyDownloadStages(fs, hub, params.modelPath, params.marOutput, mu.marName, res.repoId, res.repoVersion);
    }
    st := ProduceMar(dl, fs, hub, archiverSucceeds);
  }

  /** run_script as written: create_mar always fails, so no run succeeds. */
  method RunScriptAsWritten(params: Params, mu: MarUtils, ri: RepoInfo, catalog: Catalog, hub: Hub,
                            fs: FileSystem)
    returns (st: Status)
    modifies mu, ri, fs
    ensures st != Ok
    ensures ResolveParams(catalog, hub, params).Failed? ==>
      st == Fail(ResolveParams(catalog, hub, params).failure)
  {
    var dl;
    dl, st := SetValues(params, mu, ri, catalog, hub);
    if st != Ok {
      return;
    }
    st := CheckPathExists(fs, mu.modelPath, true);
    if st != Ok {
      return;
    }
    st := CheckPathExists(fs, mu.marOutput, true);
    if st != Ok {
      return;
    }
    st := CheckIfMarExists(fs, dl);
    if st != Ok {
      return;
    }
    if !dl.skipDownload {
      st := RunDownload(dl, fs, hub);
      if st != Ok {
        return;
      }
    }
    st := CreateMarAsWritten(dl, fs, hub);
  }

  /** Running the script twice with the same arguments: once the first run
      has built the archive, the second refuses to overwrite it. */
  method RunTwice(params: Params, mu: MarUtils, ri: RepoInfo, catalog: Catalog, hub: Hub,
                  fs: FileSystem, archiverSucceeds: bool)
    returns (first: Status, second: Status)
    modifies mu, ri, fs
    ensures first == Ok ==> second == ExitOne
  {
    first := RunScript(params, mu, ri, catalog, hub, fs, archiverSucceeds);
    second := RunScript(params, mu, ri, catalog, hub, fs, archiverSucceeds);
  }
}
