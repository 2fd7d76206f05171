/** llm/generate.py: the newer download-and-archive script. A model named in
    the catalog is resolved from it; any other name is a custom model, whose
    files are either already in model_path or downloaded from a repository
    given on the command line. The archive is built in a staging directory
    of the output store and then renamed into the store. */
module Generate {
  import opened Common
  import opened Host
  import opened SystemUtils
  import opened Catalog
  import opened Hub
  import opened MarsGen
  import opened GenerateData

  /** Weight formats in order of preference. */
  const PreferredModelFormats: seq<string> := [".safetensors", ".bin"]

  /** Weight formats never downloaded once a preferred format is chosen. */
  const OtherModelFormats: seq<string> :=
    ["*.pt", "*.h5", "*.gguf", "*.msgpack", "*.tflite", "*.ot", "*.onnx"]

  /** The results of the calls the script makes on the data model that the
      data model does not define (get_repo_file_extensions,
      validate_hf_token, validate_commit_info), of uuid4, and of the
      archiver process. */
  datatype Externals = Externals(
    repoExtensions: set<string>,
    tokenCheck: Status,
    commitCheck: Status,
    uuid: string,
    archiverSucceeds: bool)

  /** Each format of `formats` other than `chosen`, as a "*" pattern, in order. */
  function StarredExcept(formats: seq<string>, chosen: string): (r: seq<string>)
    ensures forall e :: e in formats && e != chosen ==> "*" + e in r
    ensures "*" + chosen !in r
    ensures |r| <= |formats|
  {
    if formats == [] then []
    else
      var rest := StarredExcept(formats[1..], chosen);
      assert forall e :: e in formats ==> e == formats[0] || e in formats[1..];
      if formats[0] != chosen then
        assert ("*" + formats[0])[1..] == formats[0];
        assert ("*" + chosen)[1..] == chosen;
        ["*" + formats[0]] + rest
      else rest
  }

  /** The first format of `prefs` that the repository holds. */
  function FirstPresent(prefs: seq<string>, exts: set<string>): (r: Option<string>)
    ensures r.None? <==> forall i :: 0 <= i < |prefs| ==> prefs[i] !in exts
    ensures r.Some? ==>
      exists i :: 0 <= i < |prefs| && prefs[i] == r.value && r.value in exts
        && forall j :: 0 <= j < i ==> prefs[j] !in exts
  {
    if prefs == [] then None
    else if prefs[0] in exts then Some(prefs[0])
    else
      var r := FirstPresent(prefs[1..], exts);
      if r.Some? then
        var i :| 0 <= i < |prefs[1..]| && prefs[1..][i] == r.value
          && r.value in exts && forall j :: 0 <= j < i ==> prefs[1..][j] !in exts;
        assert prefs[i + 1] == r.value;
        r
      else r
  }

  /** The ignore list for a repository holding files with `exts`. */
  function IgnoreListFor(exts: set<string>): seq<string>
  {
    match FirstPresent(PreferredModelFormats, exts)
    case None => []
    case Some(chosen) => StarredExcept(PreferredModelFormats, chosen) + OtherModelFormats
  }

  /** get_ignore_pattern_list: walk the preferred formats in order and stop
      at the first one the repository holds. */
  method GetIgnorePatternList(repoExtensions: set<string>) returns (ignore: seq<string>)
    ensures ignore == IgnoreListFor(repoExtensions)
  {
    var i := 0;
    while i < |PreferredModelFormats|
      invariant 0 <= i <= |PreferredModelFormats|
      invariant forall j :: 0 <= j < i ==> PreferredModelFormats[j] !in repoExtensions
    {
      var desired := PreferredModelFormats[i];
      if desired in repoExtensions {
        assert FirstPresent(PreferredModelFormats, repoExtensions) == Some(desired);
        ignore := StarredExcept(PreferredModelFormats, desired) + OtherModelFormats;
        return;
      }
      i := i + 1;
    }
    ignore := [];
  }

  /** The first preferred format present is kept; every other preferred
      format and every other weight format is ignored. */
  lemma IgnoreListKeepsFirstPreferred(exts: set<string>, chosen: string)
    requires FirstPresent(PreferredModelFormats, exts) == Some(chosen)
    ensures "*" + chosen !in IgnoreListFor(exts)
    ensures forall e :: e in PreferredModelFormats && e != chosen ==> "*" + e in IgnoreListFor(exts)
    ensures forall o :: o in OtherModelFormats ==> o in IgnoreListFor(exts)
  {
    var r := IgnoreListFor(exts);
    assert r == StarredExcept(PreferredModelFormats, chosen) + OtherModelFormats;
    assert "*" + chosen !in OtherModelFormats by {
      assert chosen in PreferredModelFormats;
    }
  }

  /** With no preferred format in the repository nothing is ignored. */
  lemma IgnoreListEmptyWithoutPreferred(exts: set<string>)
    requires ".safetensors" !in exts && ".bin" !in exts
    ensures IgnoreListFor(exts) == []
  {
    assert FirstPresent(PreferredModelFormats, exts) == None;
  }

  /** With both preferred formats present, safetensors wins. */
  lemma IgnoreListPrefersSafetensors(exts: set<string>)
    requires ".safetensors" in exts && ".bin" in exts
    ensures "*.bin" in IgnoreListFor(exts)
    ensures "*.safetensors" !in IgnoreListFor(exts)
  {
    assert FirstPresent(PreferredModelFormats, exts) == Some(".safetensors");
    IgnoreListKeepsFirstPreferred(exts, ".safetensors");
    assert "*" + ".bin" == "*.bin";
    assert "*" + ".safetensors" == "*.safetensors";
  }

  /** The staging directory: "tmp_<mar_name>_<last 5 characters of a uuid>"
      inside the output store. */
  function TmpDirFor(marOutput: Path, marName: string, uuid: string): Path
  {
    PathJoin(marOutput, "tmp_" + marName + "_" + Last(uuid, 5))
  }

  /** The archive in the store never lies inside the staging directory. */
  lemma ArchiveOutsideStaging(marOutput: Path, marName: string, uuid: string)
    ensures !Within(MarPath(marOutput, marName), TmpDirFor(marOutput, marName, uuid))
  {
  }

  /** create_tmp_model_store: make the staging directory; nothing already
      in the store is removed. */
  method CreateTmpModelStore(fs: FileSystem, marOutput: Path, marName: string, uuid: string)
    returns (tmpDir: Path)
    modifies fs
    ensures tmpDir == TmpDirFor(marOutput, marName, uuid)
    ensures fs.files == old(fs.files)
    ensures fs.dirs == old(fs.dirs) + Lineage(tmpDir)
    ensures fs.IsDir(tmpDir)
  {
    tmpDir := TmpDirFor(marOutput, marName, uuid);
    fs.MakeDirs(tmpDir);
  }

  /** move_mar: rename "<model_name>.mar" in the staging directory to
      "<mar_name>.mar" in the store; exit 1 if the archiver left nothing. */
  method MoveMar(fs: FileSystem, gen: GenerateDataModel, tmpDir: Path) returns (st: Status)
    modifies fs
    ensures fs.dirs == old(fs.dirs)
    ensures old(fs.IsFile(PathJoin(tmpDir, gen.modelName + ".mar"))) ==>
      st == Ok && fs.files == AppendNew(Without(old(fs.files), PathJoin(tmpDir, gen.modelName + ".mar")),
                                        [MarPath(gen.marUtils.marOutput, gen.marUtils.marName)])
    ensures !old(fs.IsFile(PathJoin(tmpDir, gen.modelName + ".mar"))) ==>
      st == ExitOne && fs.files == old(fs.files)
  {
    var src := PathJoin(tmpDir, gen.modelName + ".mar");
    var dst := MarPath(gen.marUtils.marOutput, gen.marUtils.marName);
    st := CheckPathExists(fs, src, false);
    if st == Ok {
      fs.MoveFile(src, dst);
    }
  }

  /** What read_config_for_download settles about a model. */
  datatype Resolution = Resolution(
    isCustomModel: bool, repoId: string, repoVersion: string, handlerPath: Path, marName: string)

  /** A failure of a validation call inside the catalog branch: KeyError and
      ValueError are caught and become exit 1, anything else escapes. */
  function CatalogCaught(f: Failure): Failure
  {
    if f == Raise("KeyError") || f == Raise("ValueError") then Exit(1) else f
  }

  /** The catalog entry of `modelName` names a repository, and a revision
      and a handler either come from the command line or from the entry. */
  predicate CatalogEntryComplete(catalog: Catalog, modelName: string, repoVersion: string,
                                 handlerPath: Path)
  {
    && modelName in catalog
    && catalog[modelName].repoId.Some?
    && (repoVersion != "" || catalog[modelName].repoVersion.Some?)
    && (handlerPath != "" || catalog[modelName].handler.Some?)
  }

  /** read_config_for_download as a function of the catalog, the filesystem,
      the command line (as held by the data model), and the outcomes of the
      two validation calls. */
  function Resolve(catalog: Catalog, fs: FileSystem, modelName: string, skipDownload: bool,
                   modelPath: Path, repoId: string, repoVersion: string, handlerPath: Path,
                   tokenCheck: Status, commitCheck: Status): (r: Outcome<Resolution>)
    reads fs
    // The custom flag is exactly "not in the catalog", and the archive name
    // is computed from the final revision and flag.
    ensures r.Done? ==> (r.value.isCustomModel <==> modelName !in catalog)
    ensures r.Done? ==> r.value.marName == GetMarName(modelName, r.value.repoVersion, r.value.isCustomModel)
    // A handler given on the command line is kept.
    ensures r.Done? && handlerPath != "" ==> r.value.handlerPath == handlerPath
    // Catalog model: the catalog's revision only fills in an empty one.
    ensures modelName in catalog && r.Done? ==>
      && Some(r.value.repoId) == catalog[modelName].repoId
      && (repoVersion != "" ==> r.value.repoVersion == repoVersion)
      && (repoVersion == "" ==> Some(r.value.repoVersion) == catalog[modelName].repoVersion)
      && (handlerPath == "" ==>
            catalog[modelName].handler.Some?
            && r.value.handlerPath == PathJoin(LlmDir, catalog[modelName].handler.value))
    ensures modelName in catalog && catalog[modelName].repoId.None? ==> r == Failed(Exit(1))
    ensures
      (&& modelName in catalog && catalog[modelName].repoId.Some?
       && repoVersion == "" && catalog[modelName].repoVersion.None?)
      ==> r == Failed(Exit(1))
    ensures
      (&& modelName in catalog && catalog[modelName].repoId.Some?
       && (repoVersion != "" || catalog[modelName].repoVersion.Some?)
       && handlerPath == "" && catalog[modelName].handler.None?)
      ==> r == Failed(Exit(1))
    // The two validation calls run in order; KeyError and ValueError from
    // either are caught.
    ensures CatalogEntryComplete(catalog, modelName, repoVersion, handlerPath) && tokenCheck.Fail?
      ==> r == Failed(CatalogCaught(tokenCheck.failure))
    ensures
      CatalogEntryComplete(catalog, modelName, repoVersion, handlerPath)
      && tokenCheck.Ok? && commitCheck.Fail?
      ==> r == Failed(CatalogCaught(commitCheck.failure))
    // Custom model with its files already in place.
    ensures modelName !in catalog && skipDownload && modelPath !in fs.dirs ==>
      r == Failed(Raise(if modelPath in fs.files then "NotADirectoryError" else "FileNotFoundError"))
    ensures modelName !in catalog && skipDownload && modelPath in fs.dirs ==>
      (r == Failed(Exit(1)) <==> NoEntriesBelow(fs, modelPath))
    ensures modelName !in catalog && skipDownload && r.Done? ==>
      r.value.repoVersion == (if repoVersion == "" then "1.0" else repoVersion)
    // Custom model to download: a repository id is required.
    ensures modelName !in catalog && !skipDownload && repoId == "" ==> r == Failed(Exit(1))
    // Outside the catalog nothing is caught: a failed validation escapes.
    ensures modelName !in catalog && !skipDownload && repoId != "" && tokenCheck.Fail? ==>
      r == Failed(tokenCheck.failure)
    ensures modelName !in catalog && !skipDownload && repoId != "" && tokenCheck.Ok? && commitCheck.Fail?
      ==> r == Failed(commitCheck.failure)
    ensures modelName !in catalog && !skipDownload && r.Done? ==> r.value.repoVersion == repoVersion
    // When the resolution succeeds.
    ensures r.Done? <==>
      if modelName in catalog then
        CatalogEntryComplete(catalog, modelName, repoVersion, handlerPath)
        && tokenCheck.Ok? && commitCheck.Ok?
      else if skipDownload then
        modelPath in fs.dirs && !NoEntriesBelow(fs, modelPath)
      else
        repoId != "" && tokenCheck.Ok? && commitCheck.Ok?
    ensures modelName !in catalog && r.Done? ==> r.value.repoId == repoId
    ensures modelName !in catalog && r.Done? && handlerPath == "" ==>
      r.value.handlerPath == PathJoin(LlmDir, "handler.py")
  {
    if modelName in catalog then
      var e := catalog[modelName];
      if e.repoId.None? then Failed(Exit(1))
      else if repoVersion == "" && e.repoVersion.None? then Failed(Exit(1))
      else if handlerPath == "" && e.handler.None? then Failed(Exit(1))
      else if tokenCheck.Fail? then Failed(CatalogCaught(tokenCheck.failure))
      else if commitCheck.Fail? then Failed(CatalogCaught(commitCheck.failure))
      else
        var v := if repoVersion != "" then repoVersion else e.repoVersion.value;
        var h := if handlerPath != "" then handlerPath else PathJoin(LlmDir, e.handler.value);
        Done(Resolution(false, e.repoId.value, v, h, GetMarName(modelName, v, false)))
    else
      var h := if handlerPath != "" then handlerPath else PathJoin(LlmDir, "handler.py");
      if skipDownload then
        match CheckFolderEmpty(fs, modelPath)
        case Failed(f) => Failed(f)
        case Done(empty) =>
          if empty then Failed(Exit(1))
          else
            var v := if repoVersion == "" then "1.0" else repoVersion;
            Done(Resolution(true, repoId, v, h, GetMarName(modelName, v, true)))
      else if repoId == "" then Failed(Exit(1))
      else if tokenCheck.Fail? then Failed(tokenCheck.failure)
      else if commitCheck.Fail? then Failed(commitCheck.failure)
      else Done(Resolution(true, repoId, repoVersion, h, GetMarName(modelName, repoVersion, true)))
  }

  /** Resolve, applied to what the data model holds. */
  function ResolveModel(catalog: Catalog, fs: FileSystem, gen: GenerateDataModel, ext: Externals)
    : Outcome<Resolution>
    reads fs, gen, gen.marUtils, gen.repoInfo
  {
    Resolve(catalog, fs, gen.modelName, gen.skipDownload, gen.marUtils.modelPath,
            gen.repoInfo.repoId, gen.repoInfo.repoVersion, gen.marUtils.handlerPath,
            ext.tokenCheck, ext.commitCheck)
  }

  /** read_config_for_download, assigning the data model's fields branch by
      branch and the archive name last. After an exit the process ends, so
      the fields are stated only on success. */
  method ReadConfigForDownload(gen: GenerateDataModel, catalog: Catalog, fs: FileSystem, ext: Externals)
    returns (st: Status)
    modifies gen, gen.marUtils, gen.repoInfo
    ensures old(ResolveModel(catalog, fs, gen, ext)).Failed? ==>
      st == Fail(old(ResolveModel(catalog, fs, gen, ext)).failure)
    ensures old(ResolveModel(catalog, fs, gen, ext)).Done? ==>
      && st == Ok
      && var res := old(ResolveModel(catalog, fs, gen, ext)).value;
      && gen.isCustomModel == res.isCustomModel
      && gen.repoInfo.repoId == res.repoId
      && gen.repoInfo.repoVersion == res.repoVersion
      && gen.marUtils.handlerPath == res.handlerPath
      && gen.marUtils.marName == res.marName
    ensures gen.modelName == old(gen.modelName) && gen.skipDownload == old(gen.skipDownload)
    ensures gen.marUtils.modelPath == old(gen.marUtils.modelPath)
    ensures gen.marUtils.marOutput == old(gen.marUtils.marOutput)
    ensures gen.repoInfo.hfToken == old(gen.repoInfo.hfToken)
  {
    st := Ok;
    var mu, ri := gen.marUtils, gen.repoInfo;
    if gen.modelName in catalog {
      gen.isCustomModel := false;
      var e := catalog[gen.modelName];
      if e.repoId.None? {
        return ExitOne;
      }
      ri.repoId := e.repoId.value;
      if ri.repoVersion == "" {
        if e.repoVersion.None? {
          return ExitOne;
        }
        ri.repoVersion := e.repoVersion.value;
      }
      if mu.handlerPath == "" {
        if e.handler.None? {
          return ExitOne;
        }
        mu.handlerPath := PathJoin(LlmDir, e.handler.value);
      }
      if ext.tokenCheck.Fail? {
        return Fail(CatalogCaught(ext.tokenCheck.failure));
      }
      if ext.commitCheck.Fail? {
        return Fail(CatalogCaught(ext.commitCheck.failure));
      }
    } else {
      gen.isCustomModel := true;
      if gen.skipDownload {
        var empty := CheckFolderEmpty(fs, mu.modelPath);
        if empty.Failed? {
          return Fail(empty.failure);
        }
        if empty.value {
          return ExitOne;
        }
        if ri.repoVersion == "" {
          ri.repoVersion := "1.0";
        }
      } else {
        if ri.repoId == "" {
          return ExitOne;
        }
        if ext.tokenCheck.Fail? {
          return Fail(ext.tokenCheck.failure);
        }
        if ext.commitCheck.Fail? {
          return Fail(ext.commitCheck.failure);
        }
      }
      if mu.handlerPath == "" {
        mu.handlerPath := PathJoin(LlmDir, "handler.py");
      }
    }
    mu.marName := GetMarName(gen.modelName, ri.repoVersion, gen.isCustomModel);
  }

  /** run_download: the model directory must be empty; then the repository
      is fetched into it, skipping the ignored weight formats. */
  method RunDownload(gen: GenerateDataModel, fs: FileSystem, hub: Hub, ext: Externals)
    returns (st: Status)
    modifies fs
    ensures fs.dirs == old(fs.dirs)
    ensures old(CheckFolderEmpty(fs, gen.marUtils.modelPath)).Failed? ==>
      st == Fail(old(CheckFolderEmpty(fs, gen.marUtils.modelPath)).failure) && fs.files == old(fs.files)
    ensures old(CheckFolderEmpty(fs, gen.marUtils.modelPath)) == Done(false) ==>
      st == ExitOne && fs.files == old(fs.files)
    ensures old(CheckFolderEmpty(fs, gen.marUtils.modelPath)) == Done(true) ==>
      if CommitExists(hub, gen.repoInfo.repoId, gen.repoInfo.repoVersion) then
        st == Ok && fs.files == AppendNew(old(fs.files), Prefixed(gen.marUtils.modelPath,
          KeptFiles(hub.listing[(gen.repoInfo.repoId, gen.repoInfo.repoVersion)],
                    IgnoreListFor(ext.repoExtensions))))
      else
        st == Fail(Raise("HfHubHTTPError")) && fs.files == old(fs.files)
  {
    var empty := CheckFolderEmpty(fs, gen.marUtils.modelPath);
    if empty.Failed? {
      return Fail(empty.failure);
    }
    if !empty.value {
      return ExitOne;
    }
    var ignore := GetIgnorePatternList(ext.repoExtensions);
    st := SnapshotDownload(fs, hub, gen.repoInfo.repoId, gen.repoInfo.repoVersion,
                           gen.marUtils.modelPath, ignore);
  }

  /** create_mar: refuse an empty model directory, build the archive in a
      fresh staging directory, rename it into the store and remove the
      staging directory. It succeeds exactly when the model directory holds
      something, the handler file exists and the archiver succeeds; then the
      archive is in the store and the staging directory is gone. */
  method CreateMar(gen: GenerateDataModel, fs: FileSystem, ext: Externals) returns (st: Status)
    modifies fs
    ensures st == Ok <==>
      old(CheckFolderEmpty(fs, gen.marUtils.modelPath)) == Done(false)
      && old(fs.IsFile(gen.marUtils.handlerPath)) && ext.archiverSucceeds
    ensures st == Ok ==>
      && fs.IsFile(MarPath(gen.marUtils.marOutput, gen.marUtils.marName))
      && !fs.IsDir(TmpDirFor(gen.marUtils.marOutput, gen.marUtils.marName, ext.uuid))
    // A missing or empty model directory stops before anything changes.
    ensures old(CheckFolderEmpty(fs, gen.marUtils.modelPath)).Failed? ==>
      && st == Fail(old(CheckFolderEmpty(fs, gen.marUtils.modelPath)).failure)
      && fs.files == old(fs.files) && fs.dirs == old(fs.dirs)
    ensures old(CheckFolderEmpty(fs, gen.marUtils.modelPath)) == Done(true) ==>
      st == ExitOne && fs.files == old(fs.files) && fs.dirs == old(fs.dirs)
    // Once staging has begun, a missing handler or a failing archiver exits
    // before the staging directory is removed: it is left behind, and no
    // archive reaches the store.
    ensures
      && old(CheckFolderEmpty(fs, gen.marUtils.modelPath)) == Done(false)
      && !(old(fs.IsFile(gen.marUtils.handlerPath)) && ext.archiverSucceeds)
      ==>
      && st == ExitOne
      && fs.files == old(fs.files)
      && fs.dirs == old(fs.dirs) + Lineage(TmpDirFor(gen.marUtils.marOutput, gen.marUtils.marName, ext.uuid))
      && fs.IsDir(TmpDirFor(gen.marUtils.marOutput, gen.marUtils.marName, ext.uuid))
  {
    var empty := CheckFolderEmpty(fs, gen.marUtils.modelPath);
    if empty.Failed? {
      return Fail(empty.failure);
    }
    if empty.value {
      return ExitOne;
    }
    var tmpDir := CreateTmpModelStore(fs, gen.marUtils.marOutput, gen.marUtils.marName, ext.uuid);
    var _, built := GenerateMars(fs, gen.modelName, gen.repoInfo.repoVersion, gen.marUtils.handlerPath,
                                 gen.marUtils.modelPath, tmpDir, ext.archiverSucceeds);
    if built != Ok {
      return built;
    }
    st := MoveMar(fs, gen, tmpDir);
    if st != Ok {
      return;
    }
    ArchiveOutsideStaging(gen.marUtils.marOutput, gen.marUtils.marName, ext.uuid);
    fs.RmDir(tmpDir);
  }

  /** The paths a download of the resolved revision writes below `modelPath`. */
  function Downloaded(hub: Hub, repoId: string, repoVersion: string, modelPath: Path,
                      ext: Externals): seq<Path>
    requires CommitExists(hub, repoId, repoVersion)
  {
    Prefixed(modelPath, KeptFiles(hub.listing[(repoId, repoVersion)], IgnoreListFor(ext.repoExtensions)))
  }

  /** When run_script reaches create_mar's staging step, in terms of the
      resolution and of the host before the run: both directories exist,
      the archive does not, and either the download is skipped and the
      model directory already holds something, or the model directory
      starts empty and the download puts something below it. */
  predicate StagingStarts(res: Outcome<Resolution>, skipDownload: bool, modelPath: Path,
                          marOutput: Path, fs: FileSystem, hub: Hub, ext: Externals)
    reads fs
  {
    && res.Done?
    && fs.IsDir(modelPath) && fs.IsDir(marOutput)
    && !fs.Exists(MarPath(marOutput, res.value.marName))
    && if skipDownload then !NoEntriesBelow(fs, modelPath)
       else
         && NoEntriesBelow(fs, modelPath)
         && CommitExists(hub, res.value.repoId, res.value.repoVersion)
         && (exists p :: p in Downloaded(hub, res.value.repoId, res.value.repoVersion, modelPath, ext)
                         && Under(p, modelPath))
  }

  /** When run_script returns True: staging starts, the archiver succeeds,
      and the handler file exists or is downloaded. */
  predicate RunSucceeds(res: Outcome<Resolution>, skipDownload: bool, modelPath: Path,
                        marOutput: Path, fs: FileSystem, hub: Hub, ext: Externals)
    reads fs
  {
    && StagingStarts(res, skipDownload, modelPath, marOutput, fs, hub, ext)
    && ext.archiverSucceeds
    && (|| fs.IsFile(res.value.handlerPath)
        || (!skipDownload
            && res.value.handlerPath in Downloaded(hub, res.value.repoId, res.value.repoVersion, modelPath, ext)))
  }

  /** The last two steps of run_script, once the model directory is known
      to exist: download unless skipped, then build the archive. */
  method DownloadAndBuild(gen: GenerateDataModel, fs: FileSystem, hub: Hub, ext: Externals)
    returns (r: Outcome<bool>)
    requires fs.IsDir(gen.marUtils.modelPath)
    modifies fs
    ensures gen.skipDownload ==>
      (r.Done? <==> old(!NoEntriesBelow(fs, gen.marUtils.modelPath) && fs.IsFile(gen.marUtils.handlerPath))
                    && ext.archiverSucceeds)
    ensures !gen.skipDownload && !old(NoEntriesBelow(fs, gen.marUtils.modelPath)) ==>
      r == Failed(Exit(1)) && fs.files == old(fs.files)
    ensures
      (&& !gen.skipDownload && old(NoEntriesBelow(fs, gen.marUtils.modelPath))
       && !CommitExists(hub, gen.repoInfo.repoId, gen.repoInfo.repoVersion)) ==>
      r == Failed(Raise("HfHubHTTPError")) && fs.files == old(fs.files)
    ensures
      (&& !gen.skipDownload && old(NoEntriesBelow(fs, gen.marUtils.modelPath))
       && CommitExists(hub, gen.repoInfo.repoId, gen.repoInfo.repoVersion)) ==>
      var d := Downloaded(hub, gen.repoInfo.repoId, gen.repoInfo.repoVersion, gen.marUtils.modelPath, ext);
      (r.Done? <==>
        && (exists p :: p in d && Under(p, gen.marUtils.modelPath))
        && (old(fs.IsFile(gen.marUtils.handlerPath)) || gen.marUtils.handlerPath in d)
        && ext.archiverSucceeds)
    ensures r.Done? ==> r.value && fs.IsFile(MarPath(gen.marUtils.marOutput, gen.marUtils.marName))
    // Staging began but the archive was not built: the staging directory
    // is left behind.
    ensures
      (&& gen.skipDownload && old(!NoEntriesBelow(fs, gen.marUtils.modelPath))
       && !(old(fs.IsFile(gen.marUtils.handlerPath)) && ext.archiverSucceeds)) ==>
      && r == Failed(Exit(1)) && fs.files == old(fs.files)
      && fs.IsDir(TmpDirFor(gen.marUtils.marOutput, gen.marUtils.marName, ext.uuid))
    ensures
      (&& !gen.skipDownload && old(NoEntriesBelow(fs, gen.marUtils.modelPath))
       && CommitExists(hub, gen.repoInfo.repoId, gen.repoInfo.repoVersion)) ==>
      var d := Downloaded(hub, gen.repoInfo.repoId, gen.repoInfo.repoVersion, gen.marUtils.modelPath, ext);
      (&& (exists p :: p in d && Under(p, gen.marUtils.modelPath))
       && !((old(fs.IsFile(gen.marUtils.handlerPath)) || gen.marUtils.handlerPath in d) && ext.archiverSucceeds))
      ==>
      && r == Failed(Exit(1)) && fs.files == AppendNew(old(fs.files), d)
      && fs.IsDir(TmpDirFor(gen.marUtils.marOutput, gen.marUtils.marName, ext.uuid))
  {
    ghost var files0 := fs.files;
    ghost var mp := gen.marUtils.modelPath;
    if !gen.skipDownload {
      var st := RunDownload(gen, fs, hub, ext);
      if st.Fail? {
        return Failed(st.failure);
      }
      ghost var d := Downloaded(hub, gen.repoInfo.repoId, gen.repoInfo.repoVersion, mp, ext);
      assert fs.files == AppendNew(files0, d);
      assert NoEntriesBelow(fs, mp) <==> !(exists p :: p in d && Under(p, mp)) by {
        if exists p :: p in d && Under(p, mp) {
          var p :| p in d && Under(p, mp);
          assert p in fs.files;
          var j :| 0 <= j < |fs.files| && fs.files[j] == p;
        } else {
          forall i | 0 <= i < |fs.files| ensures !Under(fs.files[i], mp) {
            if fs.files[i] in files0 {
              var k :| 0 <= k < |files0| && files0[k] == fs.files[i];
            }
          }
        }
      }
      assert fs.IsFile(gen.marUtils.handlerPath) <==> gen.marUtils.handlerPath in files0 + d;
    }
    var st := CreateMar(gen, fs, ext);
    if st.Fail? {
      return Failed(st.failure);
    }
    r := Done(true);
  }

  /** run_script after the data model is built: every exit path, in the
      order the script takes them. Nothing is written before the archive
      check, and a failed step leaves the files as they were. */
  method RunSteps(gen: GenerateDataModel, catalog: Catalog, fs: FileSystem, hub: Hub, ext: Externals)
    returns (r: Outcome<bool>)
    modifies gen, gen.marUtils, gen.repoInfo, fs
    ensures var res := old(ResolveModel(catalog, fs, gen, ext));
      res.Failed? ==> r == Failed(res.failure) && fs.files == old(fs.files) && fs.dirs == old(fs.dirs)
    ensures var res := old(ResolveModel(catalog, fs, gen, ext));
      res.Done? && !old(fs.IsDir(gen.marUtils.modelPath)) ==>
      r == Failed(Exit(1)) && fs.files == old(fs.files)
    ensures var res := old(ResolveModel(catalog, fs, gen, ext));
      res.Done? && old(fs.IsDir(gen.marUtils.modelPath)) && !old(fs.IsDir(gen.marUtils.marOutput)) ==>
      r == Failed(Exit(1)) && fs.files == old(fs.files)
    ensures var res := old(ResolveModel(catalog, fs, gen, ext));
      res.Done? && old(fs.IsDir(gen.marUtils.modelPath)) && old(fs.IsDir(gen.marUtils.marOutput))
      && old(fs.Exists(MarPath(gen.marUtils.marOutput, res.value.marName))) ==>
      r == Failed(Exit(1)) && fs.files == old(fs.files)
    ensures var res := old(ResolveModel(catalog, fs, gen, ext));
      res.Done? && old(fs.IsDir(gen.marUtils.modelPath)) && old(fs.IsDir(gen.marUtils.marOutput))
      && !old(fs.Exists(MarPath(gen.marUtils.marOutput, res.value.marName)))
      && !old(gen.skipDownload) && !old(NoEntriesBelow(fs, gen.marUtils.modelPath)) ==>
      r == Failed(Exit(1)) && fs.files == old(fs.files)
    ensures var res := old(ResolveModel(catalog, fs, gen, ext));
      res.Done? && old(fs.IsDir(gen.marUtils.modelPath)) && old(fs.IsDir(gen.marUtils.marOutput))
      && !old(fs.Exists(MarPath(gen.marUtils.marOutput, res.value.marName)))
      && !old(gen.skipDownload) && old(NoEntriesBelow(fs, gen.marUtils.modelPath))
      && !CommitExists(hub, res.value.repoId, res.value.repoVersion) ==>
      r == Failed(Raise("HfHubHTTPError")) && fs.files == old(fs.files)
    ensures r.Done? <==>
      old(RunSucceeds(ResolveModel(catalog, fs, gen, ext), gen.skipDownload, gen.marUtils.modelPath,
                      gen.marUtils.marOutput, fs, hub, ext))
    ensures var res := old(ResolveModel(catalog, fs, gen, ext));
      && old(StagingStarts(res, gen.skipDownload, gen.marUtils.modelPath, gen.marUtils.marOutput, fs, hub, ext))
      && !old(RunSucceeds(res, gen.skipDownload, gen.marUtils.modelPath, gen.marUtils.marOutput, fs, hub, ext))
      ==>
      && res.Done? && r == Failed(Exit(1))
      && fs.IsDir(TmpDirFor(old(gen.marUtils.marOutput), res.value.marName, ext.uuid))
    ensures var res := old(ResolveModel(catalog, fs, gen, ext));
      r.Done? ==>
        (&& res.Done? && r.value
         && fs.IsFile(MarPath(old(gen.marUtils.marOutput), res.value.marName))
         && gen.marUtils.marName == res.value.marName)
    ensures gen.marUtils.modelPath == old(gen.marUtils.modelPath)
    ensures gen.marUtils.marOutput == old(gen.marUtils.marOutput)
  {
    var st := ReadConfigForDownload(gen, catalog, fs, ext);
    if st.Fail? {
      return Failed(st.failure);
    }
    st := CheckPathExists(fs, gen.marUtils.modelPath, true);
    if st.Fail? {
      return Failed(st.failure);
    }
    st := CheckPathExists(fs, gen.marUtils.marOutput, true);
    if st.Fail? {
      return Failed(st.failure);
    }
    st := gen.CheckIfMarExists(fs);
    if st.Fail? {
      return Failed(st.failure);
    }
    r := DownloadAndBuild(gen, fs, hub, ext);
  }

  /** run_script: build the data model from the command line, then run the
      steps. Every exit path is stated in terms of the command line. */
  method RunScript(params: Params, mu: MarUtils, ri: RepoInfo, catalog: Catalog,
                   fs: FileSystem, hub: Hub, ext: Externals)
    returns (r: Outcome<bool>)
    modifies mu, ri, fs
    ensures var res := old(Resolve(catalog, fs, params.modelName, params.noDownload, params.modelPath,
                                   params.repoId, params.repoVersion, params.handlerPath,
                                   ext.tokenCheck, ext.commitCheck));
      res.Failed? ==> r == Failed(res.failure) && fs.files == old(fs.files) && fs.dirs == old(fs.dirs)
    ensures var res := old(Resolve(catalog, fs, params.modelName, params.noDownload, params.modelPath,
                                   params.repoId, params.repoVersion, params.handlerPath,
                                   ext.tokenCheck, ext.commitCheck));
      res.Done? && (!old(fs.IsDir(params.modelPath)) || !old(fs.IsDir(params.marOutput))) ==>
      r == Failed(Exit(1)) && fs.files == old(fs.files)
    ensures var res := old(Resolve(catalog, fs, params.modelName, params.noDownload, params.modelPath,
                                   params.repoId, params.repoVersion, params.handlerPath,
                                   ext.tokenCheck, ext.commitCheck));
      res.Done? && old(fs.Exists(MarPath(params.marOutput, res.value.marName))) ==>
      r == Failed(Exit(1)) && fs.files == old(fs.files)
    ensures var res := old(Resolve(catalog, fs, params.modelName, params.noDownload, params.modelPath,
                                   params.repoId, params.repoVersion, params.handlerPath,
                                   ext.tokenCheck, ext.commitCheck));
      res.Done? && old(fs.IsDir(params.modelPath)) && old(fs.IsDir(params.marOutput))
      && !old(fs.Exists(MarPath(params.marOutput, res.value.marName)))
      && !params.noDownload && !old(NoEntriesBelow(fs, params.modelPath)) ==>
      r == Failed(Exit(1)) && fs.files == old(fs.files)
    ensures var res := old(Resolve(catalog, fs, params.modelName, params.noDownload, params.modelPath,
                                   params.repoId, params.repoVersion, params.handlerPath,
                                   ext.tokenCheck, ext.commitCheck));
      res.Done? && old(fs.IsDir(params.modelPath)) && old(fs.IsDir(params.marOutput))
      && !old(fs.Exists(MarPath(params.marOutput, res.value.marName)))
      && !params.noDownload && old(NoEntriesBelow(fs, params.modelPath))
      && !CommitExists(hub, res.value.repoId, res.value.repoVersion) ==>
      r == Failed(Raise("HfHubHTTPError")) && fs.files == old(fs.files)
    ensures r.Done? <==>
      old(RunSucceeds(Resolve(catalog, fs, params.modelName, params.noDownload, params.modelPath,
                              params.repoId, params.repoVersion, params.handlerPath,
                              ext.tokenCheck, ext.commitCheck),
                      params.noDownload, params.modelPath, params.marOutput, fs, hub, ext))
    ensures var res := old(Resolve(catalog, fs, params.modelName, params.noDownload, params.modelPath,
                                   params.repoId, params.repoVersion, params.handlerPath,
                                   ext.tokenCheck, ext.commitCheck));
      && old(StagingStarts(res, params.noDownload, params.modelPath, params.marOutput, fs, hub, ext))
      && !old(RunSucceeds(res, params.noDownload, params.modelPath, params.marOutput, fs, hub, ext))
      ==>
      && res.Done? && r == Failed(Exit(1))
      && fs.IsDir(TmpDirFor(params.marOutput, res.value.marName, ext.uuid))
    ensures var res := old(Resolve(catalog, fs, params.modelName, params.noDownload, params.modelPath,
                                   params.repoId, params.repoVersion, params.handlerPath,
                                   ext.tokenCheck, ext.commitCheck));
      r.Done? ==>
        (&& res.Done? && r.value && fs.IsFile(MarPath(params.marOutput, res.value.marName))
         && mu.marOutput == params.marOutput && mu.modelPath == params.modelPath
         && mu.marName == res.value.marName)
  {
    var gen := new GenerateDataModel(params, mu, ri);
    assert ResolveModel(catalog, fs, gen, ext) ==
      old(Resolve(catalog, fs, params.modelName, params.noDownload, params.modelPath,
                  params.repoId, params.repoVersion, params.handlerPath, ext.tokenCheck, ext.commitCheck));
    r := RunSteps(gen, catalog, fs, hub, ext);
  }

  /** run_script as written: the data model never receives the repository
      id from the command line, so the id Resolve sees is whatever the
      shared RepoInfo object held before. */
  method RunScriptAsWritten(params: Params, mu: MarUtils, ri: RepoInfo, catalog: Catalog,
                            fs: FileSystem, hub: Hub, ext: Externals)
    returns (r: Outcome<bool>)
    modifies mu, ri, fs
    ensures r.Done? <==>
      old(RunSucceeds(Resolve(catalog, fs, params.modelName, params.noDownload, params.modelPath,
                              ri.repoId, params.repoVersion, params.handlerPath,
                              ext.tokenCheck, ext.commitCheck),
                      params.noDownload, params.modelPath, params.marOutput, fs, hub, ext))
    ensures params.modelName !in catalog && !params.noDownload && old(ri.repoId) == "" ==>
      r == Failed(Exit(1)) && fs.files == old(fs.files)
  {
    var gen := new GenerateDataModel.AsWritten(params, mu, ri);
    assert ResolveModel(catalog, fs, gen, ext) ==
      old(Resolve(catalog, fs, params.modelName, params.noDownload, params.modelPath,
                  ri.repoId, params.repoVersion, params.handlerPath, ext.tokenCheck, ext.commitCheck));
    r := RunSteps(gen, catalog, fs, hub, ext);
  }

  /** A process starts with fresh shared objects, whose repository id is
      empty; so as written, a custom model can never be downloaded, whatever
      `--repo_id` says. */
  method CustomDownloadAsWrittenExits(params: Params, catalog: Catalog, fs: FileSystem, hub: Hub,
                                      ext: Externals)
    returns (r: Outcome<bool>)
    modifies fs
    ensures params.modelName !in catalog && !params.noDownload ==>
      r == Failed(Exit(1)) && fs.files == old(fs.files)
  {
    var mu := new MarUtils();
    var ri := new RepoInfo();
    r := RunScriptAsWritten(params, mu, ri, catalog, fs, hub, ext);
  }

  /** With the id copied, the same command line reaches the download: for a
      custom model with a repository id and passing validations, the run
      fails only for a reason later than the resolution. */
  lemma CustomDownloadResolvesWithRepoId(catalog: Catalog, fs: FileSystem,
                                          params: Params, ext: Externals)
    requires params.modelName !in catalog && !params.noDownload && params.repoId != ""
    requires ext.tokenCheck.Ok? && ext.commitCheck.Ok?
    ensures Resolve(catalog, fs, params.modelName, params.noDownload, params.modelPath,
                    "", params.repoVersion, params.handlerPath, ext.tokenCheck, ext.commitCheck)
            == Failed(Exit(1))
    ensures Resolve(catalog, fs, params.modelName, params.noDownload, params.modelPath,
                    params.repoId, params.repoVersion, params.handlerPath,
                    ext.tokenCheck, ext.commitCheck).Done?
  {
  }
}
