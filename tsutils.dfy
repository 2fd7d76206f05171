/** llm/utils/tsutils.py: the TorchServe start command, starting and stopping
    the server, the model snapshot appended to config.properties, the
    generation parameters exported to the handler through the environment,
    the registration parameters and the worker health predicate. */
module TsUtils {
  import opened Common
  import opened Host
  import opened Catalog
  import opened SystemUtils
  import opened InferenceData

  datatype Platform = Windows | Darwin | Linux

  /** The `torchserve_command` table. */
  function TorchserveCommand(p: Platform): (r: string)
    ensures StartsWith(r, "torchserve")
    ensures p == Windows <==> EndsWith(r, ".exe")
  {
    if p == Windows then "torchserve.exe" else "torchserve"
  }

  /** The TorchServe process, as far as the scripts can observe it: whether it
      is up and answers the ping on port 8080. */
  class Server {
    var running: bool

    constructor (running0: bool)
      ensures running == running0
    {
      running := running0;
    }
  }

  // ----- generate_ts_start_cmd -----

  /** The optional parts of the start command, in the order they are added. */
  datatype StartOption =
    | NoConfigSnapshots
    | TsConfig(file: Path)
    | LogConfig(file: Path)
    | Redirect(logFile: Path)
  {
    function Rank(): nat
    {
      match this
      case NoConfigSnapshots => 0
      case TsConfig(_) => 1
      case LogConfig(_) => 2
      case Redirect(_) => 3
    }

    function Render(): string
    {
      match this
      case NoConfigSnapshots => " --ncs"
      case TsConfig(f) => " --ts-config=" + f
      case LogConfig(f) => " --log-config " + f
      case Redirect(f) => " >> " + RedirectTarget(f)
    }
  }

  /** `os.path.join(os.path.dirname(log_file), log_file)`: an absolute log file
      path replaces the directory; a relative one is joined onto it. */
  function RedirectTarget(logFile: Path): (r: Path)
    ensures StartsWith(logFile, "/") ==> r == logFile
    ensures EndsWith(r, logFile)
  {
    if StartsWith(logFile, "/") then logFile
    else
      ConcatAffixes(Dirname(logFile) + "/", logFile);
      PathJoin(Dirname(logFile), logFile)
  }

  /** The console log file lies below the absolute script directory, so the
      redirection appends to the log file itself. */
  lemma LogFileRedirectsToItself(genFolder: Path)
    ensures StartsWith(LogFile(genFolder), "/")
    ensures RedirectTarget(LogFile(genFolder)) == LogFile(genFolder)
  {
    assert LogFile(genFolder)[..1] == UtilsDir[..1] == "/";
  }

  /** An option that is added only when `on` holds. */
  function Emit(on: bool, o: StartOption): (r: seq<StartOption>)
    ensures o in r <==> on
    ensures forall x :: x in r ==> x == o
  {
    if on then [o] else []
  }

  /** Every option comes before each later one in the fixed flag order. */
  predicate Ranked(opts: seq<StartOption>)
  {
    forall i, j :: 0 <= i < j < |opts| ==> opts[i].Rank() < opts[j].Rank()
  }

  /** Appending an option that ranks after all the others keeps the order. */
  lemma AppendRanked(xs: seq<StartOption>, on: bool, o: StartOption)
    requires Ranked(xs)
    requires forall x :: x in xs ==> x.Rank() < o.Rank()
    ensures Ranked(xs + Emit(on, o))
    ensures forall x :: x in xs + Emit(on, o) ==> x.Rank() <= o.Rank()
  {
    var ys := xs + Emit(on, o);
    forall i, j | 0 <= i < j < |ys|
      ensures ys[i].Rank() < ys[j].Rank()
    {
      if j >= |xs| {
        assert ys[i] in xs;
      }
    }
  }

  /** The first two and three options are ranked. */
  lemma RankedTwo(ncs: bool, configFile: Path)
    ensures var s := Emit(ncs, NoConfigSnapshots) + Emit(configFile != "", TsConfig(configFile));
      Ranked(s) && forall x :: x in s ==> x.Rank() <= 1
  {
    AppendRanked(Emit(ncs, NoConfigSnapshots), configFile != "", TsConfig(configFile));
  }

  lemma RankedThree(ncs: bool, configFile: Path, logConfig: Path)
    ensures var s := Emit(ncs, NoConfigSnapshots) + Emit(configFile != "", TsConfig(configFile))
                     + Emit(logConfig != "", LogConfig(logConfig));
      Ranked(s) && forall x :: x in s ==> x.Rank() <= 2
  {
    RankedTwo(ncs, configFile);
    AppendRanked(Emit(ncs, NoConfigSnapshots) + Emit(configFile != "", TsConfig(configFile)),
                 logConfig != "", LogConfig(logConfig));
  }

  /** The options come in the fixed order --ncs, --ts-config, --log-config, ">>". */
  lemma StartOptionsOrdered(ncs: bool, configFile: Path, logConfig: Path, logFile: Path)
    ensures Ranked(StartOptions(ncs, configFile, logConfig, logFile))
  {
    RankedThree(ncs, configFile, logConfig);
    AppendRanked(Emit(ncs, NoConfigSnapshots) + Emit(configFile != "", TsConfig(configFile))
                 + Emit(logConfig != "", LogConfig(logConfig)),
                 logFile != "", Redirect(logFile));
  }

  /** The option carries the input it was built from. */
  predicate Carries(o: StartOption, configFile: Path, logConfig: Path, logFile: Path)
  {
    match o
    case NoConfigSnapshots => true
    case TsConfig(f) => f == configFile
    case LogConfig(f) => f == logConfig
    case Redirect(f) => f == logFile
  }

  /** The options the start command carries, in the order they are added. */
  function StartOptions(ncs: bool, configFile: Path, logConfig: Path, logFile: Path)
    : seq<StartOption>
  {
    Emit(ncs, NoConfigSnapshots)
    + Emit(configFile != "", TsConfig(configFile))
    + Emit(logConfig != "", LogConfig(logConfig))
    + Emit(logFile != "", Redirect(logFile))
  }

  /** Each option is present exactly when its input is set. */
  lemma StartOptionsPresence(ncs: bool, configFile: Path, logConfig: Path, logFile: Path)
    ensures var opts := StartOptions(ncs, configFile, logConfig, logFile);
      && (NoConfigSnapshots in opts <==> ncs)
      && (TsConfig(configFile) in opts <==> configFile != "")
      && (LogConfig(logConfig) in opts <==> logConfig != "")
      && (Redirect(logFile) in opts <==> logFile != "")
  {
    var opts := StartOptions(ncs, configFile, logConfig, logFile);
    var a := Emit(ncs, NoConfigSnapshots);
    var b := Emit(configFile != "", TsConfig(configFile));
    var c := Emit(logConfig != "", LogConfig(logConfig));
    var d := Emit(logFile != "", Redirect(logFile));
    assert opts == a + b + c + d;
    forall x
      ensures x in opts <==> x in a || x in b || x in c || x in d
    {
    }
  }

  /** Every option carries the input it was built from. */
  lemma StartOptionsCarry(ncs: bool, configFile: Path, logConfig: Path, logFile: Path)
    ensures forall o :: o in StartOptions(ncs, configFile, logConfig, logFile) ==>
      Carries(o, configFile, logConfig, logFile)
  {
    forall o | o in StartOptions(ncs, configFile, logConfig, logFile)
      ensures Carries(o, configFile, logConfig, logFile)
    {
      assert o in Emit(ncs, NoConfigSnapshots) || o in Emit(configFile != "", TsConfig(configFile))
        || o in Emit(logConfig != "", LogConfig(logConfig))
        || o in Emit(logFile != "", Redirect(logFile));
    }
  }

  function RenderOptions(opts: seq<StartOption>): string
  {
    if opts == [] then "" else opts[0].Render() + RenderOptions(opts[1..])
  }

  lemma {:induction false} RenderOptionsAppend(xs: seq<StartOption>, ys: seq<StartOption>)
    ensures RenderOptions(xs + ys) == RenderOptions(xs) + RenderOptions(ys)
  {
    if xs == [] {
      assert xs + ys == ys;
    } else {
      assert (xs + ys)[0] == xs[0];
      assert (xs + ys)[1..] == xs[1..] + ys;
      RenderOptionsAppend(xs[1..], ys);
    }
  }

  /** generate_ts_start_cmd (the debug flag only prints). */
  function GenerateTsStartCmd(ts: TorchserveStartData, ncs: bool, platform: Platform): (cmd: string)
    reads ts
    ensures StartsWith(cmd, TorchserveCommand(platform) + " --start --model-store=" + ts.tsModelStore)
  {
    var head := TorchserveCommand(platform) + " --start --model-store=" + ts.tsModelStore;
    var options := (if ncs then " --ncs" else "")
      + (if ts.tsConfigFile != "" then " --ts-config=" + ts.tsConfigFile else "")
      + (if ts.tsLogConfig != "" then " --log-config " + ts.tsLogConfig else "")
      + (if ts.tsLogFile != "" then " >> " + RedirectTarget(ts.tsLogFile) else "");
    ConcatAffixes(head, options);
    head + options
  }

  /** The rendered options are the optional pieces of the command, in order. */
  lemma RenderStartOptions(ncs: bool, configFile: Path, logConfig: Path, logFile: Path)
    ensures RenderOptions(StartOptions(ncs, configFile, logConfig, logFile))
         == (if ncs then " --ncs" else "")
            + (if configFile != "" then " --ts-config=" + configFile else "")
            + (if logConfig != "" then " --log-config " + logConfig else "")
            + (if logFile != "" then " >> " + RedirectTarget(logFile) else "")
  {
    var a := Emit(ncs, NoConfigSnapshots);
    var b := Emit(configFile != "", TsConfig(configFile));
    var c := Emit(logConfig != "", LogConfig(logConfig));
    var d := Emit(logFile != "", Redirect(logFile));
    assert StartOptions(ncs, configFile, logConfig, logFile) == a + b + c + d;
    RenderOptionsAppend(a, b);
    RenderOptionsAppend(a + b, c);
    RenderOptionsAppend(a + b + c, d);
    RenderOne(a);
    RenderOne(b);
    RenderOne(c);
    RenderOne(d);
  }

  lemma RenderOne(opts: seq<StartOption>)
    requires |opts| <= 1
    ensures RenderOptions(opts) == if opts == [] then "" else opts[0].Render()
  {
    if opts != [] {
      assert opts[1..] == [];
    }
  }

  /** The start command is the fixed head followed by the rendered options. */
  lemma StartCmdRendersOptions(ts: TorchserveStartData, ncs: bool, platform: Platform)
    ensures GenerateTsStartCmd(ts, ncs, platform)
         == TorchserveCommand(platform) + " --start --model-store=" + ts.tsModelStore
            + RenderOptions(StartOptions(ncs, ts.tsConfigFile, ts.tsLogConfig, ts.tsLogFile))
  {
    RenderStartOptions(ncs, ts.tsConfigFile, ts.tsLogConfig, ts.tsLogFile);
  }

  /** start_torchserve: run the start command; the server is up when the
      command's exit status is 0. */
  method StartTorchserve(server: Server, ts: TorchserveStartData, ncs: bool, platform: Platform,
                         exitStatus: int)
    returns (cmd: string, started: bool)
    modifies server
    ensures cmd == GenerateTsStartCmd(ts, ncs, platform)
    ensures started <==> exitStatus == 0
    ensures server.running == (old(server.running) || started)
  {
    cmd := GenerateTsStartCmd(ts, ncs, platform);
    started := exitStatus == 0;
    if started {
      server.running := true;
    }
  }

  /** stop_torchserve: nothing to stop when the ping fails; otherwise run the
      stop command, which succeeds when its exit status is 0. */
  method StopTorchserve(server: Server, exitStatus: int) returns (stopped: bool)
    modifies server
    ensures stopped <==> old(server.running) && exitStatus == 0
    ensures server.running == (old(server.running) && !stopped)
  {
    if !server.running {
      return false;
    }
    stopped := exitStatus == 0;
    if stopped {
      server.running := false;
    }
  }

  // ----- get_params_for_registration and the model snapshot -----

  /** The four registration parameters; `None` when not configured. */
  datatype Registration = Registration(
    initialWorkers: Option<int>,
    batchSize: Option<int>,
    maxBatchDelay: Option<int>,
    responseTimeout: Option<int>)

  function Lookup(m: map<string, int>, k: string): (r: Option<int>)
    ensures r.Some? <==> k in m
    ensures r.Some? ==> r.value == m[k]
  {
    if k in m then Some(m[k]) else None
  }

  /** get_params_for_registration: every parameter is `None` for a model the
      catalog does not hold; an entry without "registration_params" raises
      KeyError; otherwise each parameter is the configured value or `None`. */
  function GetParamsForRegistration(catalog: Catalog, modelName: string): (r: Outcome<Registration>)
    ensures modelName !in catalog ==> r == Done(Registration(None, None, None, None))
    ensures modelName in catalog && catalog[modelName].registrationParams.None? ==>
      r == Failed(Raise("KeyError"))
    ensures modelName in catalog && catalog[modelName].registrationParams.Some? ==>
      && r.Done?
      && var m := catalog[modelName].registrationParams.value;
      && (r.value.initialWorkers.Some? <==> "initial_workers" in m)
      && (r.value.batchSize.Some? <==> "batch_size" in m)
      && (r.value.maxBatchDelay.Some? <==> "max_batch_delay" in m)
      && (r.value.responseTimeout.Some? <==> "response_timeout" in m)
      && ("initial_workers" in m ==> r.value.initialWorkers.value == m["initial_workers"])
      && ("batch_size" in m ==> r.value.batchSize.value == m["batch_size"])
      && ("max_batch_delay" in m ==> r.value.maxBatchDelay.value == m["max_batch_delay"])
      && ("response_timeout" in m ==> r.value.responseTimeout.value == m["response_timeout"])
  {
    if modelName !in catalog then Done(Registration(None, None, None, None))
    else match catalog[modelName].registrationParams
      case None => Failed(Raise("KeyError"))
      case Some(m) =>
        Done(Registration(Lookup(m, "initial_workers"), Lookup(m, "batch_size"),
                          Lookup(m, "max_batch_delay"), Lookup(m, "response_timeout")))
  }

  /** Python's `x or d` for an optional integer: `None` and 0 give `d`. */
  function OrDefault(x: Option<int>, d: int): (r: int)
    ensures x.Some? && x.value != 0 ==> r == x.value
    ensures x.None? || x.value == 0 ==> r == d
  {
    if x.Some? && x.value != 0 then x.value else d
  }

  /** The one model version registered at startup. */
  datatype Snapshot = Snapshot(
    modelName: string, version: string, marName: string,
    minWorkers: int, maxWorkers: int, batchSize: int, maxBatchDelay: int, responseTimeout: int)

  /** The snapshot set_config_properties writes: one worker count for both
      bounds, unset or zero values replaced by 1, 1, 1 and 120, and the
      archive named by its file name only. */
  function SnapshotFor(modelName: string, repoVersion: string, marFilepath: Path, reg: Registration)
    : (s: Snapshot)
    ensures s.modelName == modelName && s.version == repoVersion
    ensures s.marName == Basename(marFilepath) && '/' !in s.marName
    ensures s.minWorkers == s.maxWorkers
    ensures s.minWorkers != 0 && s.batchSize != 0 && s.maxBatchDelay != 0 && s.responseTimeout != 0
    ensures reg.initialWorkers.Some? && reg.initialWorkers.value != 0 ==>
      s.minWorkers == reg.initialWorkers.value
    ensures reg.initialWorkers.None? || reg.initialWorkers.value == 0 ==>
      s.minWorkers == 1 && s.maxWorkers == 1
    ensures reg.batchSize.Some? && reg.batchSize.value != 0 ==> s.batchSize == reg.batchSize.value
    ensures reg.batchSize.None? || reg.batchSize.value == 0 ==> s.batchSize == 1
    ensures reg.maxBatchDelay.Some? && reg.maxBatchDelay.value != 0 ==>
      s.maxBatchDelay == reg.maxBatchDelay.value
    ensures reg.maxBatchDelay.None? || reg.maxBatchDelay.value == 0 ==> s.maxBatchDelay == 1
    ensures reg.responseTimeout.Some? && reg.responseTimeout.value != 0 ==>
      s.responseTimeout == reg.responseTimeout.value
    ensures reg.responseTimeout.None? || reg.responseTimeout.value == 0 ==> s.responseTimeout == 120
  {
    Snapshot(modelName, repoVersion, Basename(marFilepath),
             OrDefault(reg.initialWorkers, 1), OrDefault(reg.initialWorkers, 1),
             OrDefault(reg.batchSize, 1), OrDefault(reg.maxBatchDelay, 1),
             OrDefault(reg.responseTimeout, 120))
  }

  /** A model the catalog does not hold is registered with the defaults. */
  lemma UnknownModelSnapshotDefaults(catalog: Catalog, modelName: string, repoVersion: string,
                                     marFilepath: Path)
    requires modelName !in catalog
    ensures GetParamsForRegistration(catalog, modelName).Done?
    ensures var s := SnapshotFor(modelName, repoVersion, marFilepath,
                                 GetParamsForRegistration(catalog, modelName).value);
      s.minWorkers == 1 && s.maxWorkers == 1 && s.batchSize == 1 && s.maxBatchDelay == 1
      && s.responseTimeout == 120
  {
  }

  /** The line appended to config.properties. */
  function SnapshotLine(s: Snapshot): (line: string)
    ensures StartsWith(line, "\nmodel_snapshot={\"name\":\"startup.cfg\",\"modelCount\":1,")
    ensures EndsWith(line, "}}}}")
  {
    var head := "\nmodel_snapshot={\"name\":\"startup.cfg\",\"modelCount\":1,";
    var body :=
      "\"models\":{\"" + s.modelName + "\":{"
      + "\"" + s.version + "\":{\"defaultVersion\":true,\"marName\":\"" + s.marName + "\","
      + "\"minWorkers\":" + IntToString(s.minWorkers) + ","
      + "\"maxWorkers\":" + IntToString(s.maxWorkers) + ","
      + "\"batchSize\":" + IntToString(s.batchSize) + ","
      + "\"maxBatchDelay\":" + IntToString(s.maxBatchDelay) + ","
      + "\"responseTimeout\":" + IntToString(s.responseTimeout);
    ConcatAffixes(head, body + "}}}}");
    ConcatAffixes(head + body, "}}}}");
    assert head + (body + "}}}}") == head + body + "}}}}";
    head + body + "}}}}"
  }

  /** The copy of the configuration inside the gen folder. */
  function GenConfigPath(genFolder: Path): Path
  {
    PathJoin(GenFolderPath(genFolder), "config.properties")
  }

  /** set_config_properties: the template must exist; it is copied into the
      gen folder, the snapshot line is appended to the copy (`line` is what
      is appended; file contents are not modelled), and from then on the
      start data names the copy. */
  method SetConfigProperties(dm: InferenceDataModel, fs: FileSystem, catalog: Catalog)
    returns (st: Status, line: string)
    modifies fs, dm.tsData
    ensures fs.dirs == old(fs.dirs)
    ensures !old(fs.IsFile(dm.tsData.tsConfigFile)) ==>
      st == ExitOne && fs.files == old(fs.files) && dm.tsData.tsConfigFile == old(dm.tsData.tsConfigFile)
    ensures old(fs.IsFile(dm.tsData.tsConfigFile)) ==>
      fs.files == AppendNew(old(fs.files), [GenConfigPath(dm.genFolder)])
    ensures
      (old(fs.IsFile(dm.tsData.tsConfigFile)) && GetParamsForRegistration(catalog, dm.modelName).Failed?)
      ==> st == Fail(GetParamsForRegistration(catalog, dm.modelName).failure)
    ensures st == Ok <==>
      old(fs.IsFile(dm.tsData.tsConfigFile)) && GetParamsForRegistration(catalog, dm.modelName).Done?
    ensures st == Ok ==>
      && dm.tsData.tsConfigFile == GenConfigPath(dm.genFolder)
      && fs.IsFile(dm.tsData.tsConfigFile)
      && line == SnapshotLine(SnapshotFor(dm.modelName, dm.repoVersion, dm.marFilepath,
                                          GetParamsForRegistration(catalog, dm.modelName).value))
    ensures dm.tsData.tsLogFile == old(dm.tsData.tsLogFile)
    ensures dm.tsData.tsLogConfig == old(dm.tsData.tsLogConfig)
    ensures dm.tsData.tsModelStore == old(dm.tsData.tsModelStore)
  {
    line := "";
    var template := dm.tsData.tsConfigFile;
    st := CheckPathExists(fs, template, false);
    if st != Ok {
      return;
    }
    var dst := GenConfigPath(dm.genFolder);
    fs.CopyFile(template, dst);
    st := CheckPathExists(fs, dst, false);
    if st != Ok {
      return;
    }
    var reg := GetParamsForRegistration(catalog, dm.modelName);
    if reg.Failed? {
      st := Fail(reg.failure);
      return;
    }
    line := SnapshotLine(SnapshotFor(dm.modelName, dm.repoVersion, dm.marFilepath, reg.value));
    dm.tsData.tsConfigFile := dst;
  }

  // ----- set_model_params -----

  /** The environment variables the handler reads, with the model_params key
      each one is taken from. */
  const GenerationParams: seq<(string, string)> := [
    ("NAI_TEMPERATURE", "temperature"),
    ("NAI_REP_PENALTY", "repetition_penalty"),
    ("NAI_TOP_P", "top_p"),
    ("NAI_MAX_TOKENS", "max_new_tokens")
  ]

  function NamesOf(pairs: seq<(string, string)>): set<string>
  {
    set i | 0 <= i < |pairs| :: pairs[i].0
  }

  predicate DistinctNames(pairs: seq<(string, string)>)
  {
    forall i, j :: 0 <= i < j < |pairs| ==> pairs[i].0 != pairs[j].0
  }

  /** One step: export the configured value, or delete the variable. */
  function SetOrDelete(env: map<string, string>, name: string, key: string,
                       params: map<string, string>): map<string, string>
  {
    if key in params then env[name := params[key]]
    else if name in env then env - {name}
    else env
  }

  /** The steps for `pairs`, in order. */
  function ApplyParams(env: map<string, string>, pairs: seq<(string, string)>,
                       params: map<string, string>): map<string, string>
    decreases |pairs|
  {
    if pairs == [] then env
    else ApplyParams(SetOrDelete(env, pairs[0].0, pairs[0].1, params), pairs[1..], params)
  }

  /** After the steps, each listed variable is set exactly when its key is
      configured, to the configured value, and every other variable is as
      it was. */
  lemma {:induction false} ApplyParamsSpec(env: map<string, string>, pairs: seq<(string, string)>,
                                           params: map<string, string>)
    requires DistinctNames(pairs)
    ensures var r := ApplyParams(env, pairs, params);
      forall i :: 0 <= i < |pairs| ==>
        && (pairs[i].0 in r <==> pairs[i].1 in params)
        && (pairs[i].1 in params ==> r[pairs[i].0] == params[pairs[i].1])
    ensures var r := ApplyParams(env, pairs, params);
      forall n :: n !in NamesOf(pairs) ==> (n in r <==> n in env) && (n in r ==> r[n] == env[n])
    decreases |pairs|
  {
    if pairs != [] {
      var env' := SetOrDelete(env, pairs[0].0, pairs[0].1, params);
      var rest := pairs[1..];
      ApplyParamsSpec(env', rest, params);
      assert pairs[0].0 !in NamesOf(rest) by {
        forall i | 0 <= i < |rest| ensures rest[i].0 != pairs[0].0 {
          assert rest[i] == pairs[i + 1];
        }
      }
      assert NamesOf(pairs) == {pairs[0].0} + NamesOf(rest) by {
        forall n | n in NamesOf(pairs) ensures n in {pairs[0].0} + NamesOf(rest) {
          var i :| 0 <= i < |pairs| && pairs[i].0 == n;
          if i > 0 {
            assert rest[i - 1] == pairs[i];
          }
        }
        forall n | n in NamesOf(rest) ensures n in NamesOf(pairs) {
          var i :| 0 <= i < |rest| && rest[i].0 == n;
          assert pairs[i + 1] == rest[i];
        }
      }
      forall i | 0 <= i < |pairs| && i > 0 ensures pairs[i] == rest[i - 1] {
      }
    }
  }

  /** The environment after set_model_params. A model the catalog does not
      hold leaves it as it was; a model without model_params has all four
      variables deleted (the same steps with nothing configured). For a
      model with model_params each variable is set exactly when its key is
      configured, with the configured text; no other variable changes. */
  function ModelParamsEnv(env: map<string, string>, catalog: Catalog, modelName: string)
    : (r: map<string, string>)
    ensures modelName !in catalog ==> r == env
    ensures modelName in catalog && catalog[modelName].modelParams.None? ==>
      forall i :: 0 <= i < |GenerationParams| ==> GenerationParams[i].0 !in r
    ensures modelName in catalog && catalog[modelName].modelParams.Some? ==>
      var params := catalog[modelName].modelParams.value;
      forall i :: 0 <= i < |GenerationParams| ==>
        && (GenerationParams[i].0 in r <==> GenerationParams[i].1 in params)
        && (GenerationParams[i].1 in params ==> r[GenerationParams[i].0] == params[GenerationParams[i].1])
    ensures forall n :: n !in NamesOf(GenerationParams) ==> (n in r <==> n in env) && (n in r ==> r[n] == env[n])
  {
    if modelName !in catalog then env
    else
      var params := if catalog[modelName].modelParams.Some? then catalog[modelName].modelParams.value
                    else map[];
      ApplyParamsSpec(env, GenerationParams, params);
      ApplyParams(env, GenerationParams, params)
  }

  /** The loop of set_model_params over the four variables. */
  method ApplyGenerationParams(env: Environment, params: map<string, string>)
    modifies env
    ensures env.vars == ApplyParams(old(env.vars), GenerationParams, params)
  {
    var i := 0;
    while i < |GenerationParams|
      invariant 0 <= i <= |GenerationParams|
      invariant ApplyParams(env.vars, GenerationParams[i..], params)
             == ApplyParams(old(env.vars), GenerationParams, params)
    {
      var (name, key) := GenerationParams[i];
      assert GenerationParams[i..][1..] == GenerationParams[i + 1..];
      if key in params {
        env.vars := env.vars[name := params[key]];
      } else if name in env.vars {
        env.vars := env.vars - {name};
      }
      i := i + 1;
    }
  }

  /** set_model_params: the model's generation parameters become the NAI_*
      environment variables the handler reads. */
  method SetModelParams(env: Environment, catalog: Catalog, modelName: string)
    modifies env
    ensures env.vars == ModelParamsEnv(old(env.vars), catalog, modelName)
  {
    if modelName in catalog {
      if catalog[modelName].modelParams.Some? {
        ApplyGenerationParams(env, catalog[modelName].modelParams.value);
      } else {
        ApplyGenerationParams(env, map[]);
      }
    }
  }

  // ----- run_health_check -----

  predicate AllReady(workers: seq<string>)
  {
    forall i :: 0 <= i < |workers| ==> workers[i] == "READY"
  }

  /** run_health_check over the worker statuses the management API reports:
      true exactly when every worker is READY (so also for no workers). */
  method RunHealthCheck(workers: seq<string>) returns (ready: bool)
    ensures ready <==> AllReady(workers)
  {
    var i := 0;
    while i < |workers|
      invariant 0 <= i <= |workers|
      invariant forall k :: 0 <= k < i ==> workers[k] == "READY"
    {
      if workers[i] != "READY" {
        return false;
      }
      i := i + 1;
    }
    return true;
  }
}
