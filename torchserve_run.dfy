/** llm/torchserve_run.py: stop any running server, read the catalog, check
    the model store, the archive and the inputs, then start TorchServe on the
    archive and run the inputs, and finally clean up as the flags say. */
module TorchserveRun {
  import opened Common
  import opened Host
  import opened Catalog
  import opened SystemUtils
  import opened MarsGen
  import opened InferenceData
  import opened TsUtils
  import opened InferenceUtils

  /** model_config.json, next to the script. */
  const ModelConfigPath: Path := PathJoin(LlmDir, "model_config.json")

  /** The gen folder as the script spells it ("utils" below the script's
      directory): the folder the data model derives its paths from. */
  function GenDir(genFolder: Path): (r: Path)
    ensures r == GenFolderPath(genFolder)
  {
    PathJoin(PathJoin(LlmDir, "utils"), genFolder)
  }

  /** The logs folder cleanup removes: the directory LOG_LOCATION names. */
  function GenLogsDir(genFolder: Path): (r: Path)
    ensures r == LogDir(genFolder)
    ensures Within(r, GenDir(genFolder))
  {
    PathJoin(GenDir(genFolder), "logs")
  }

  // ----- read_config_for_inference -----

  /** The repo_version read_config_for_inference leaves in the namespace.
      The catalog's "repo_version" is looked up before the caller's version
      is tested, so a catalog entry without one raises KeyError. */
  function InferenceVersion(catalog: Catalog, modelName: string, version: string)
    : (r: Outcome<string>)
    ensures modelName !in catalog ==> r == Done(version)
    ensures modelName in catalog && catalog[modelName].repoVersion.None? ==>
      r == Failed(Raise("KeyError"))
    ensures modelName in catalog && catalog[modelName].repoVersion.Some? ==> r.Done?
    ensures r.Done? ==>
      (r.value != version <==>
        && modelName in catalog && version == ""
        && catalog[modelName].repoVersion.Some? && catalog[modelName].repoVersion.value != "")
    ensures r.Done? && r.value != version ==> r.value == catalog[modelName].repoVersion.value
  {
    if modelName !in catalog then Done(version)
    else match catalog[modelName].repoVersion
      case None => Failed(Raise("KeyError"))
      case Some(v) => if v != "" && version == "" then Done(v) else Done(version)
  }

  /** read_config_for_inference: a model the catalog does not hold is a
      custom archive; a catalog model with a version there and none on the
      command line takes the catalog's version. */
  method ReadConfigForInference(params: RunParams, catalog: Catalog) returns (st: Status)
    modifies params
    ensures params.isCustomModel <==> params.modelName !in catalog
    ensures InferenceVersion(catalog, params.modelName, old(params.repoVersion)).Failed? ==>
      st == Fail(InferenceVersion(catalog, params.modelName, old(params.repoVersion)).failure)
      && params.repoVersion == old(params.repoVersion)
    ensures InferenceVersion(catalog, params.modelName, old(params.repoVersion)).Done? ==>
      st == Ok && params.repoVersion == InferenceVersion(catalog, params.modelName, old(params.repoVersion)).value
    ensures params.data == old(params.data) && params.modelName == old(params.modelName)
    ensures params.genFolderName == old(params.genFolderName)
    ensures params.stopServer == old(params.stopServer) && params.tsCleanup == old(params.tsCleanup)
    ensures params.debugMode == old(params.debugMode) && params.modelStore == old(params.modelStore)
    ensures params.quantizeBits == old(params.quantizeBits) && params.mar == old(params.mar)
  {
    params.isCustomModel := false;
    if params.modelName !in catalog {
      params.isCustomModel := true;
    }
    st := Ok;
    if !params.isCustomModel {
      var catalogVersion := catalog[params.modelName].repoVersion;
      if catalogVersion.None? {
        st := Fail(Raise("KeyError"));
        return;
      }
      if catalogVersion.value != "" && params.repoVersion == "" {
        params.repoVersion := catalogVersion.value;
      }
    }
  }

  // ----- set_mar_filepath -----

  /** An archive name holds no separator when the model name and the
      version hold none. */
  lemma MarNameNoSeparator(modelName: string, repoVersion: string, isCustomModel: bool)
    requires '/' !in modelName && '/' !in repoVersion
    ensures '/' !in GetMarName(modelName, repoVersion, isCustomModel)
  {
    if !isCustomModel {
      assert GetMarName(modelName, repoVersion, false)
          == modelName + "_" + Take(repoVersion, MarNameLen);
      assert Take(repoVersion, MarNameLen) == repoVersion[..Min(MarNameLen, |repoVersion|)];
    }
  }

  /** set_mar_filepath: "<mar name>.mar" inside the model store. */
  function SetMarFilepath(modelStore: Path, modelName: string, repoVersion: string,
                          isCustomModel: bool): Path
  {
    MarPath(modelStore, GetMarName(modelName, repoVersion, isCustomModel))
  }

  /** Taken apart again, the archive path gives back the store as its
      directory and the archive's name as its file name. */
  lemma MarFilepathParts(modelStore: Path, modelName: string, repoVersion: string,
                         isCustomModel: bool)
    requires '/' !in modelName && '/' !in repoVersion
    ensures var r := SetMarFilepath(modelStore, modelName, repoVersion, isCustomModel);
      && Dirname(r) == modelStore
      && Basename(r) == GetMarName(modelName, repoVersion, isCustomModel) + ".mar"
  {
    MarNameNoSeparator(modelName, repoVersion, isCustomModel);
    JoinParts(modelStore, GetMarName(modelName, repoVersion, isCustomModel) + ".mar");
  }

  // ----- cleanup -----

  /** Whatever lies in the logs folder lies in the gen folder. */
  lemma LogsWithinGen(genFolder: Path, p: Path)
    requires Within(p, GenLogsDir(genFolder))
    ensures Within(p, GenDir(genFolder))
  {
    var g := GenDir(genFolder);
    assert GenLogsDir(genFolder) == g + "/logs";
    if p != GenLogsDir(genFolder) {
      assert p[..|g| + 1] == (g + "/logs/")[..|g| + 1];
    }
    assert p[..|g| + 1] == g + "/";
  }

  /** cleanup: with ts_stop, stop the server and remove the logs folder;
      with ts_cleanup as well, remove the whole gen folder. Without ts_stop
      nothing happens, whatever ts_cleanup says. */
  method Cleanup(genFolder: Path, tsStop: bool, tsCleanup: bool, fs: FileSystem, server: Server,
                 stopStatus: int)
    modifies fs, server
    ensures !tsStop ==>
      fs.files == old(fs.files) && fs.dirs == old(fs.dirs) && server.running == old(server.running)
    ensures tsStop ==> server.running == (old(server.running) && stopStatus != 0)
    ensures forall p :: p in fs.files ==> p in old(fs.files)
    ensures forall p :: p in old(fs.files) && !Within(p, GenDir(genFolder)) ==> p in fs.files
    ensures tsStop ==> !fs.IsDir(GenLogsDir(genFolder))
    ensures tsStop && old(fs.IsDir(GenLogsDir(genFolder))) ==>
      forall i :: 0 <= i < |fs.files| ==> !Within(fs.files[i], GenLogsDir(genFolder))
    ensures tsStop && !tsCleanup && !old(fs.IsDir(GenLogsDir(genFolder))) ==>
      fs.files == old(fs.files) && fs.dirs == old(fs.dirs)
    ensures tsStop && tsCleanup ==> !fs.IsDir(GenDir(genFolder))
    ensures tsStop && tsCleanup && old(fs.IsDir(GenDir(genFolder))) ==>
      && (forall i :: 0 <= i < |fs.files| ==> !Within(fs.files[i], GenDir(genFolder)))
      && (forall d :: d in fs.dirs ==> !Within(d, GenDir(genFolder)))
  {
    if tsStop {
      var _ := StopTorchserve(server, stopStatus);
      fs.RmDir(GenLogsDir(genFolder));
      forall p | p in old(fs.files) && !Within(p, GenDir(genFolder)) ensures p in fs.files {
        if Within(p, GenLogsDir(genFolder)) {
          LogsWithinGen(genFolder, p);
        }
      }
      if tsCleanup {
        fs.RmDir(GenDir(genFolder));
      }
    }
  }

  // ----- run_inference -----

  /** run_inference_with_mar: build the data model from the namespace (its
      start data is the shared object `ts`) and run get_inference. */
  method RunInferenceWithMar(params: RunParams, ts: TorchserveStartData, fs: FileSystem,
                             env: Environment, server: Server, catalog: Catalog, platform: Platform,
                             startStatus: int, stopStatus: int,
                             probe: nat -> Probe, respond: (Path, bool) -> Reply)
    returns (st: Status, inputs: seq<Path>, sent: nat)
    modifies ts, env, fs, server
    ensures ts.tsModelStore == Dirname(params.mar)
    ensures ts.tsLogFile == LogFile(params.genFolderName)
    ensures env.vars == old(env.vars)[LogLocation := LogDir(params.genFolderName)]
                                     [MetricsLocation := LogDir(params.genFolderName)]
    ensures fs.dirs == old(fs.dirs) + Lineage(LogDir(params.genFolderName))
    ensures sent <= |inputs|
    ensures inputs != [] ==>
      && startStatus == 0
      && inputs == Prefixed(params.data, GetAllFilesInDirectory(fs, params.data))
    ensures params.data == "" ==> inputs == []
    ensures !old(fs.IsFile(TemplateConfigPath)) ==> st == ExitOne && inputs == []
    ensures st == Ok ==>
      && startStatus == 0 && server.running
      && ts.tsConfigFile == GenConfigPath(params.genFolderName)
      && sent == |inputs|
      && (forall i :: 0 <= i < |inputs| ==> Succeeded(ReplyTo(respond, inputs[i])))
    ensures
      (old(fs.IsFile(TemplateConfigPath)) && GetParamsForRegistration(catalog, params.modelName).Failed?)
      ==> st == Fail(GetParamsForRegistration(catalog, params.modelName).failure) && inputs == []
    // Template present, registration readable, server started and healthy,
    // and every input answered with 200: the run succeeds.
    ensures
      (&& old(fs.IsFile(TemplateConfigPath)) && GetParamsForRegistration(catalog, params.modelName).Done?
       && startStatus == 0 && HealthReached(probe))
      ==>
      && inputs == (if params.data == "" then [] else Prefixed(params.data, GetAllFilesInDirectory(fs, params.data)))
      && (st == Ok <==> forall i :: 0 <= i < |inputs| ==> Succeeded(ReplyTo(respond, inputs[i])))
  {
    var dm := new InferenceDataModel(params, ts);
    st, inputs, sent :=
      GetInference(dm, fs, env, server, catalog, platform, startStatus, stopStatus, probe, respond);
  }

  /** The three checks of run_inference, in the order it makes them: the
      model store, then the archive, then the input folder when one is given. */
  function InputChecks(fs: FileSystem, modelStore: Path, mar: Path, data: Path): (st: Status)
    reads fs
    ensures st == Ok || st == ExitOne
    ensures st == Ok <==> fs.IsDir(modelStore) && fs.IsFile(mar) && (data != "" ==> fs.IsDir(data))
  {
    if CheckPathExists(fs, modelStore, true) != Ok then ExitOne
    else if CheckPathExists(fs, mar, false) != Ok then ExitOne
    else if data != "" && CheckPathExists(fs, data, true) != Ok then ExitOne
    else Ok
  }

  /** run_inference: the checks come before anything is created or set; the
      archive path is filled in once the store exists. `precision` is what
      set_model_precision does, which is not part of this model. */
  method RunInference(params: RunParams, ts: TorchserveStartData, fs: FileSystem,
                      env: Environment, server: Server, catalog: Catalog, platform: Platform,
                      precision: Status, startStatus: int, stopStatus: int,
                      probe: nat -> Probe, respond: (Path, bool) -> Reply)
    returns (st: Status)
    modifies params, ts, env, fs, server
    ensures params.mar ==
      if old(fs.IsDir(params.modelStore))
      then SetMarFilepath(params.modelStore, params.modelName, params.repoVersion, params.isCustomModel)
      else old(params.mar)
    ensures params.data == old(params.data) && params.modelName == old(params.modelName)
    ensures params.repoVersion == old(params.repoVersion)
    ensures params.genFolderName == old(params.genFolderName)
    ensures params.stopServer == old(params.stopServer) && params.tsCleanup == old(params.tsCleanup)
    ensures params.modelStore == old(params.modelStore)
    ensures params.isCustomModel == old(params.isCustomModel)
    ensures old(InputChecks(fs, params.modelStore,
                     SetMarFilepath(params.modelStore, params.modelName, params.repoVersion,
                                    params.isCustomModel),
                     params.data)) != Ok ==>
      st == ExitOne
      && fs.files == old(fs.files) && fs.dirs == old(fs.dirs) && env.vars == old(env.vars)
    ensures old(InputChecks(fs, params.modelStore,
                     SetMarFilepath(params.modelStore, params.modelName, params.repoVersion,
                                    params.isCustomModel),
                     params.data)) == Ok && precision != Ok ==>
      st == precision
      && fs.files == old(fs.files) && fs.dirs == old(fs.dirs) && env.vars == old(env.vars)
    ensures st == Ok ==>
      && GenDir(params.genFolderName) in fs.dirs
      && env.vars == ModelParamsEnv(old(env.vars), catalog, params.modelName)
                       [LogLocation := LogDir(params.genFolderName)]
                       [MetricsLocation := LogDir(params.genFolderName)]
      && server.running
      && ts.tsModelStore == Dirname(params.mar)
  {
    st := CheckPathExists(fs, params.modelStore, true);
    if st != Ok {
      return;
    }
    params.mar := SetMarFilepath(params.modelStore, params.modelName, params.repoVersion,
                                 params.isCustomModel);
    st := CheckPathExists(fs, params.mar, false);
    if st != Ok {
      return;
    }
    if params.data != "" {
      st := CheckPathExists(fs, params.data, true);
      if st != Ok {
        return;
      }
    }
    if precision != Ok {
      st := precision;
      return;
    }
    fs.MakeDirs(GenDir(params.genFolderName));
    SetModelParams(env, catalog, params.modelName);
    var inputs, sent;
    st, inputs, sent := RunInferenceWithMar(params, ts, fs, env, server, catalog, platform,
                                            startStatus, stopStatus, probe, respond);
  }

  // ----- torchserve_run -----

  /** The catalog file lies outside every gen folder, so cleaning up never
      removes it. */
  lemma ModelConfigOutsideGen(genFolder: Path)
    ensures !Within(ModelConfigPath, GenDir(genFolder))
    ensures !Within(ModelConfigPath, GenLogsDir(genFolder))
  {
    var g := GenDir(genFolder);
    assert g[..14] == "/nai-llm/llm/u";
    assert ModelConfigPath[13] == 'm';
    assert GenLogsDir(genFolder)[..14] == "/nai-llm/llm/u";
  }

  /** The try block of torchserve_run: stop whatever server runs and reset
      its logs, check the catalog file, read it, and run the inference. */
  method StopThenRun(params: RunParams, ts: TorchserveStartData, fs: FileSystem,
                     env: Environment, server: Server, catalog: Catalog, platform: Platform,
                     precision: Status, startStatus: int, stopStatus: int,
                     probe: nat -> Probe, respond: (Path, bool) -> Reply)
    returns (st: Status)
    modifies params, ts, env, fs, server
    ensures params.genFolderName == old(params.genFolderName)
    ensures params.stopServer == old(params.stopServer) && params.tsCleanup == old(params.tsCleanup)
    ensures !old(fs.IsFile(ModelConfigPath)) ==> st == ExitOne && env.vars == old(env.vars)
    ensures old(fs.IsFile(ModelConfigPath)) ==>
      (params.isCustomModel <==> params.modelName !in catalog)
    ensures (old(fs.IsFile(ModelConfigPath))
             && InferenceVersion(catalog, old(params.modelName), old(params.repoVersion)).Failed?) ==>
      st == Fail(Raise("KeyError")) && env.vars == old(env.vars)
    ensures st == Ok ==>
      && params.repoVersion == InferenceVersion(catalog, old(params.modelName), old(params.repoVersion)).value
      && params.mar == SetMarFilepath(params.modelStore, params.modelName, params.repoVersion,
                                      params.isCustomModel)
      && server.running
      && ts.tsModelStore == Dirname(params.mar)
  {
    Cleanup(params.genFolderName, true, false, fs, server, stopStatus);
    ModelConfigOutsideGen(params.genFolderName);
    assert old(ModelConfigPath in fs.files) ==> ModelConfigPath in fs.files;
    st := CheckPathExists(fs, ModelConfigPath, false);
    if st != Ok {
      return;
    }
    st := ReadConfigForInference(params, catalog);
    if st != Ok {
      return;
    }
    st := RunInference(params, ts, fs, env, server, catalog, platform, precision,
                       startStatus, stopStatus, probe, respond);
  }

  /** torchserve_run: whatever the try block does, the finally clause cleans
      up with the user's flags; a server left running stays up only when
      --stop_server is not given. */
  method TorchserveRunMain(params: RunParams, ts: TorchserveStartData, fs: FileSystem,
                           env: Environment, server: Server, catalog: Catalog, platform: Platform,
                           precision: Status, startStatus: int, stopStatus: int,
                           probe: nat -> Probe, respond: (Path, bool) -> Reply)
    returns (st: Status)
    modifies params, ts, env, fs, server
    ensures params.stopServer == old(params.stopServer) && params.tsCleanup == old(params.tsCleanup)
    ensures old(params.stopServer) ==> !fs.IsDir(GenLogsDir(old(params.genFolderName)))
    ensures old(params.stopServer) && old(params.tsCleanup) ==>
      !fs.IsDir(GenDir(old(params.genFolderName)))
    ensures old(params.stopServer) ==> !server.running || stopStatus != 0
    ensures !old(params.stopServer) && st == Ok ==> server.running
    ensures !old(fs.IsFile(ModelConfigPath)) ==> st == ExitOne
    ensures st == Ok ==>
      && (params.isCustomModel <==> params.modelName !in catalog)
      && params.mar == SetMarFilepath(params.modelStore, params.modelName, params.repoVersion,
                                      params.isCustomModel)
  {
    st := StopThenRun(params, ts, fs, env, server, catalog, platform, precision,
                      startStatus, stopStatus, probe, respond);
    Cleanup(params.genFolderName, params.stopServer, params.tsCleanup, fs, server, stopStatus);
  }
}
