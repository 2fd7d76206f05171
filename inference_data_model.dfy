/** llm/utils/inference_data_model.py: what the inference run needs to start
    TorchServe, and the derivation of the server's paths and log settings. */
module InferenceData {
  import opened Common
  import opened Host

  /** The directory of the utilities, `os.path.dirname(__file__)` in llm/utils. */
  const UtilsDir: Path := PathJoin(LlmDir, "utils")

  const LogLocation: string := "LOG_LOCATION"
  const MetricsLocation: string := "METRICS_LOCATION"

  /** TorchserveStartData: the log file, log configuration, server
      configuration and model store handed to `torchserve --start`. */
  class TorchserveStartData {
    var tsLogFile: Path
    var tsLogConfig: Path
    var tsConfigFile: Path
    var tsModelStore: Path

    constructor ()
      ensures tsLogFile == "" && tsLogConfig == "" && tsConfigFile == "" && tsModelStore == ""
    {
      tsLogFile := "";
      tsLogConfig := "";
      tsConfigFile := "";
      tsModelStore := "";
    }
  }

  /** The command line of torchserve_run.py. The run updates the namespace in
      place: it adds `is_custom_model` and `mar` and may fill `repo_version`. */
  class RunParams {
    var data: Path
    var modelName: string
    var repoVersion: string
    var genFolderName: Path
    var stopServer: bool
    var tsCleanup: bool
    var debugMode: bool
    var modelStore: Path
    var quantizeBits: string
    var isCustomModel: bool
    var mar: Path

    constructor (data0: Path, modelName0: string, repoVersion0: string, genFolderName0: Path,
                 stopServer0: bool, tsCleanup0: bool, debugMode0: bool, modelStore0: Path,
                 quantizeBits0: string)
      ensures data == data0 && modelName == modelName0 && repoVersion == repoVersion0
      ensures genFolderName == genFolderName0 && stopServer == stopServer0
      ensures tsCleanup == tsCleanup0 && debugMode == debugMode0
      ensures modelStore == modelStore0 && quantizeBits == quantizeBits0
      ensures !isCustomModel && mar == ""
    {
      data := data0;
      modelName := modelName0;
      repoVersion := repoVersion0;
      genFolderName := genFolderName0;
      stopServer := stopServer0;
      tsCleanup := tsCleanup0;
      debugMode := debugMode0;
      modelStore := modelStore0;
      quantizeBits := quantizeBits0;
      isCustomModel := false;
      mar := "";
    }
  }

  /** The gen folder of a run, inside the utilities directory. */
  function GenFolderPath(genFolder: Path): (r: Path)
    ensures r != ""
  {
    PathJoin(UtilsDir, genFolder)
  }

  /** The directory that LOG_LOCATION and METRICS_LOCATION name. */
  function LogDir(genFolder: Path): Path
  {
    PathJoin(GenFolderPath(genFolder), "logs")
  }

  /** The console log file: "logs/ts_console.log" inside the gen folder. */
  function LogFile(genFolder: Path): Path
  {
    PathJoin(GenFolderPath(genFolder), "logs/ts_console.log")
  }

  /** The console log file is the file "ts_console.log" of the log directory. */
  lemma LogFileParts(genFolder: Path)
    ensures LogFile(genFolder) == PathJoin(LogDir(genFolder), "ts_console.log")
    ensures Dirname(LogFile(genFolder)) == LogDir(genFolder)
    ensures Basename(LogFile(genFolder)) == "ts_console.log"
  {
    JoinParts(LogDir(genFolder), "ts_console.log");
  }

  const LogConfigPath: Path := PathJoin(UtilsDir, "../log4j2.xml")
  const TemplateConfigPath: Path := PathJoin(UtilsDir, "../config.properties")

  /** InferenceDataModel. `ts_data` is a class attribute, so every instance
      shares one TorchserveStartData object: the constructor receives it. */
  class InferenceDataModel {
    var modelName: string
    var repoVersion: string
    var inputPath: Path
    var genFolder: Path
    var marFilepath: Path
    const tsData: TorchserveStartData

    constructor (params: RunParams, ts: TorchserveStartData)
      ensures tsData == ts
      ensures modelName == params.modelName && inputPath == params.data
      ensures genFolder == params.genFolderName && marFilepath == params.mar
      ensures repoVersion == params.repoVersion
    {
      tsData := ts;
      new;
      SetDataModel(params);
    }

    /** set_data_model: copy the run's fields from the command line. */
    method SetDataModel(args: RunParams)
      modifies this
      ensures modelName == args.modelName && inputPath == args.data
      ensures genFolder == args.genFolderName && marFilepath == args.mar
      ensures repoVersion == args.repoVersion
    {
      modelName := args.modelName;
      inputPath := args.data;
      genFolder := args.genFolderName;
      marFilepath := args.mar;
      repoVersion := args.repoVersion;
    }

    /** prepare_settings: fill the shared start data, point LOG_LOCATION and
        METRICS_LOCATION at the log directory of the gen folder, and create
        that directory. The model store is the directory of the archive, and
        the console log lies in the directory the environment names. */
    method PrepareSettings(env: Environment, fs: FileSystem)
      modifies tsData, env, fs
      ensures tsData.tsLogFile == LogFile(genFolder)
      ensures Dirname(tsData.tsLogFile) == LogDir(genFolder)
      ensures tsData.tsLogConfig == LogConfigPath
      ensures tsData.tsConfigFile == TemplateConfigPath
      ensures tsData.tsModelStore == Dirname(marFilepath)
      ensures env.vars == old(env.vars)[LogLocation := LogDir(genFolder)][MetricsLocation := LogDir(genFolder)]
      ensures env.vars[LogLocation] == env.vars[MetricsLocation] == Dirname(tsData.tsLogFile)
      ensures fs.files == old(fs.files)
      ensures fs.dirs == old(fs.dirs) + Lineage(LogDir(genFolder))
      ensures fs.IsDir(Dirname(tsData.tsLogFile))
    {
      FillStartData();
      LogFileParts(genFolder);
      ExportLogDir(LogDir(genFolder), env, fs);
    }

    /** The four paths prepare_settings stores in the shared start data. */
    method FillStartData()
      modifies tsData
      ensures tsData.tsLogFile == LogFile(genFolder)
      ensures tsData.tsLogConfig == LogConfigPath
      ensures tsData.tsConfigFile == TemplateConfigPath
      ensures tsData.tsModelStore == Dirname(marFilepath)
    {
      tsData.tsLogFile := LogFile(genFolder);
      tsData.tsLogConfig := LogConfigPath;
      tsData.tsConfigFile := TemplateConfigPath;
      tsData.tsModelStore := Dirname(marFilepath);
    }
  }

  /** Point LOG_LOCATION and METRICS_LOCATION at `logDir` and create it. */
  method ExportLogDir(logDir: Path, env: Environment, fs: FileSystem)
    modifies env, fs
    ensures env.vars == old(env.vars)[LogLocation := logDir][MetricsLocation := logDir]
    ensures env.vars[LogLocation] == env.vars[MetricsLocation] == logDir
    ensures fs.files == old(fs.files)
    ensures fs.dirs == old(fs.dirs) + Lineage(logDir)
  {
    env.vars := env.vars[LogLocation := logDir];
    env.vars := env.vars[MetricsLocation := logDir];
    fs.MakeDirs(logDir);
  }

  /** Two data models built one after the other share their start data: the
      second one's prepare_settings is what the first one then sees. */
  method SecondModelSharesStartData(p1: RunParams, p2: RunParams, ts: TorchserveStartData,
                                    env: Environment, fs: FileSystem)
    returns (m1: InferenceDataModel, m2: InferenceDataModel)
    modifies ts, env, fs
    ensures m1.tsData == m2.tsData == ts
    ensures m1.genFolder == p1.genFolderName
    ensures m1.tsData.tsLogFile == LogFile(p2.genFolderName)
    ensures m1.tsData.tsModelStore == Dirname(p2.mar)
  {
    m1 := new InferenceDataModel(p1, ts);
    m2 := new InferenceDataModel(p2, ts);
    m2.PrepareSettings(env, fs);
  }
}
