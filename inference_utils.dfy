/** llm/utils/inference_utils.py: starting the server, the bounded health
    check, sending the inputs, and the order of the steps of an inference
    run. The HTTP replies are parameters: `probe(i)` is the answer to the
    i-th worker-status request and `respond(path, isJson)` the answer to a
    prediction request for one input file. */
module InferenceUtils {
  import opened Common
  import opened Host
  import opened Catalog
  import opened SystemUtils
  import opened InferenceData
  import opened TsUtils

  /** start_ts_server: start TorchServe with --ncs; if it does not start,
      stop the server (error_msg_print) and exit 1. */
  method StartTsServer(server: Server, ts: TorchserveStartData, platform: Platform,
                       startStatus: int, stopStatus: int)
    returns (st: Status)
    modifies server
    ensures st == Ok || st == ExitOne
    ensures st == Ok <==> startStatus == 0
    ensures st == Ok ==> server.running
  {
    var _, started := StartTorchserve(server, ts, true, platform, startStatus);
    if !started {
      var _ := StopTorchserve(server, stopStatus);
      return ExitOne;
    }
    st := Ok;
  }

  // ----- ts_health_check -----

  const SleepTime: nat := 15

  /** The timeout get_inference passes (the parameter's default). */
  const DefaultModelTimeout: int := 1200

  /** The answer to one worker-status request: the workers' statuses, or the
      name of the exception that sending it or reading the reply raised. */
  datatype Probe = Workers(statuses: seq<string>) | Error(exc: string)

  /** The exceptions the retry loop swallows. */
  predicate Caught(exc: string)
  {
    exc == "RequestException" || exc == "KeyError"
  }

  predicate Healthy(p: Probe)
  {
    p.Workers? && AllReady(p.statuses)
  }

  /** A probe after which the loop tries again (if time is left). */
  predicate Retried(p: Probe)
  {
    (p.Workers? && !AllReady(p.statuses)) || (p.Error? && Caught(p.exc))
  }

  /** The number of probes the loop has time for: ceil(timeout / 15), and
      none for a timeout that is not positive. */
  function MaxProbes(timeout: int): (n: nat)
    ensures n * SleepTime >= timeout
    ensures n > 0 ==> (n - 1) * SleepTime < timeout
    ensures timeout <= 0 <==> n == 0
  {
    if timeout <= 0 then 0 else (timeout + 14) / 15
  }

  /** At the default timeout the loop makes at most 80 probes. */
  lemma DefaultTimeoutProbes()
    ensures MaxProbes(DefaultModelTimeout) == 80
  {
  }

  /** ts_health_check: probe until the workers are all READY or the time is
      used up, sleeping 15 seconds after each failed probe; a request error
      or a missing key counts as a failed probe, any other exception ends
      the check. `probes` is the number of probes made. */
  method TsHealthCheck(modelTimeout: int, probe: nat -> Probe) returns (probes: nat, st: Status)
    ensures probes <= MaxProbes(modelTimeout)
    ensures forall i :: 0 <= i < probes - 1 ==> Retried(probe(i))
    ensures st == Ok <==> probes > 0 && Healthy(probe(probes - 1))
    ensures st == ExitOne <==>
      probes == MaxProbes(modelTimeout) && forall i :: 0 <= i < probes ==> Retried(probe(i))
    ensures st != Ok && st != ExitOne ==>
      && probes > 0
      && probe(probes - 1).Error? && !Caught(probe(probes - 1).exc)
      && st == Fail(Raise(probe(probes - 1).exc))
  {
    var retryCount: nat := 0;
    var success := false;
    while !success && retryCount * SleepTime < modelTimeout
      invariant retryCount <= MaxProbes(modelTimeout)
      invariant forall i :: 0 <= i < retryCount ==> Retried(probe(i))
      invariant success ==> retryCount < MaxProbes(modelTimeout) && Healthy(probe(retryCount))
      decreases MaxProbes(modelTimeout) - retryCount, if success then 0 else 1
    {
      var answer := probe(retryCount);
      if answer.Error? {
        if !Caught(answer.exc) {
          return retryCount + 1, Fail(Raise(answer.exc));
        }
      } else {
        success := RunHealthCheck(answer.statuses);
      }
      if !success {
        retryCount := retryCount + 1;
      }
    }
    if success {
      probes, st := retryCount + 1, Ok;
    } else {
      probes, st := retryCount, ExitOne;
    }
  }

  // ----- execute_inference_on_inputs -----

  /** The answer to one prediction request: its HTTP status code, or the
      name of the exception that reading the input or sending it raised. */
  datatype Reply = Answered(code: int) | Raised(exc: string)

  /** `response and response.status_code == 200`: a response is truthy only
      for codes below 400, so this is a 200 answer. */
  predicate Succeeded(r: Reply)
  {
    r.Answered? && r.code == 200
  }

  /** `data.split(".")[-1] == "json"`: the file is sent as JSON exactly when
      its path is "json" or ends in ".json". */
  function IsJsonContentType(path: Path): (r: bool)
    ensures r <==> path == "json" || EndsWith(path, ".json")
  {
    JsonSuffix(path);
    AfterLast(path, '.') == "json"
  }

  lemma JsonSuffix(s: string)
    ensures AfterLast(s, '.') == "json" <==> s == "json" || EndsWith(s, ".json")
  {
    if EndsWith(s, ".json") {
      var x := s[..|s| - 5];
      assert s == x + ['.'] + "json";
      LastPiece(x, '.', "json");
    } else if '.' in s {
      SplitAtLast(s, '.');
      var a := AfterLast(s, '.');
      assert s[|s| - |a| - 1..] == ['.'] + a;
    } else {
      NoSeparator(s, '.');
    }
  }

  /** The reply to the request for one input, sent as JSON or as text. */
  function ReplyTo(respond: (Path, bool) -> Reply, input: Path): Reply
  {
    respond(input, IsJsonContentType(input))
  }

  /** execute_inference_on_inputs: send the inputs in order; the first one
      that does not get a 200 answer stops the server and exits 1, and an
      exception ends the loop as well. `sent` is the number of requests
      made. */
  method ExecuteInferenceOnInputs(inputs: seq<Path>, server: Server,
                                  respond: (Path, bool) -> Reply, stopStatus: int)
    returns (sent: nat, st: Status)
    modifies server
    ensures sent <= |inputs|
    ensures forall i :: 0 <= i < sent - 1 ==> Succeeded(ReplyTo(respond, inputs[i]))
    ensures st == Ok <==>
      sent == |inputs| && forall i :: 0 <= i < |inputs| ==> Succeeded(ReplyTo(respond, inputs[i]))
    ensures st != Ok ==> 0 < sent && !Succeeded(ReplyTo(respond, inputs[sent - 1]))
    ensures st != Ok && ReplyTo(respond, inputs[sent - 1]).Raised? ==>
      st == Fail(Raise(ReplyTo(respond, inputs[sent - 1]).exc))
    ensures st != Ok && ReplyTo(respond, inputs[sent - 1]).Answered? ==> st == ExitOne
    ensures st == ExitOne ==> server.running == (old(server.running) && stopStatus != 0)
    ensures st != ExitOne ==> server.running == old(server.running)
  {
    sent := 0;
    while sent < |inputs|
      invariant sent <= |inputs|
      invariant forall i :: 0 <= i < sent ==> Succeeded(ReplyTo(respond, inputs[i]))
      invariant server.running == old(server.running)
    {
      var reply := respond(inputs[sent], IsJsonContentType(inputs[sent]));
      sent := sent + 1;
      if reply.Raised? {
        return sent, Fail(Raise(reply.exc));
      }
      if reply.code != 200 {
        var _ := StopTorchserve(server, stopStatus);
        return sent, ExitOne;
      }
    }
    st := Ok;
  }

  // ----- get_inference -----

  /** The guarded block of get_inference: with an input folder given, send
      every file below it, as a path inside the folder; a request error or a
      missing key stops the server and exits 1. */
  method InferOnInputFolder(inputPath: Path, fs: FileSystem, server: Server,
                            respond: (Path, bool) -> Reply, stopStatus: int)
    returns (st: Status, inputs: seq<Path>, sent: nat)
    modifies server
    ensures sent <= |inputs|
    ensures inputPath == "" ==> inputs == [] && st == Ok && server.running == old(server.running)
    ensures inputPath != "" ==> inputs == Prefixed(inputPath, GetAllFilesInDirectory(fs, inputPath))
    ensures st == Ok <==>
      sent == |inputs| && forall i :: 0 <= i < |inputs| ==> Succeeded(ReplyTo(respond, inputs[i]))
    ensures st == Ok ==> server.running == old(server.running)
    ensures st != Ok ==>
      && 0 < sent && !Succeeded(ReplyTo(respond, inputs[sent - 1]))
      && (ReplyTo(respond, inputs[sent - 1]).Raised? && !Caught(ReplyTo(respond, inputs[sent - 1]).exc)
          ==> st == Fail(Raise(ReplyTo(respond, inputs[sent - 1]).exc)))
      && (ReplyTo(respond, inputs[sent - 1]).Answered? || Caught(ReplyTo(respond, inputs[sent - 1]).exc)
          ==> st == ExitOne)
  {
    inputs, sent, st := [], 0, Ok;
    if inputPath != "" {
      inputs := Prefixed(inputPath, GetAllFilesInDirectory(fs, inputPath));
      if inputs != [] {
        sent, st := ExecuteInferenceOnInputs(inputs, server, respond, stopStatus);
        if st.Fail? && st.failure.Raise? && Caught(st.failure.exc) {
          var _ := StopTorchserve(server, stopStatus);
          st := ExitOne;
        }
      }
    }
  }

  /** Write the configuration and start the server, once the settings are
      prepared. */
  method ConfigureAndStart(dm: InferenceDataModel, fs: FileSystem, server: Server,
                           catalog: Catalog, platform: Platform, startStatus: int, stopStatus: int)
    returns (st: Status)
    modifies dm.tsData, fs, server
    ensures dm.tsData.tsModelStore == old(dm.tsData.tsModelStore)
    ensures dm.tsData.tsLogFile == old(dm.tsData.tsLogFile)
    ensures fs.dirs == old(fs.dirs)
    ensures !old(fs.IsFile(dm.tsData.tsConfigFile)) ==>
      st == ExitOne && server.running == old(server.running)
    ensures
      (old(fs.IsFile(dm.tsData.tsConfigFile)) && GetParamsForRegistration(catalog, dm.modelName).Done?)
      ==> (st == Ok <==> startStatus == 0) && (st == Ok || st == ExitOne)
    // A catalog entry without registration_params raises KeyError, which
    // nothing here catches; the server is not started.
    ensures
      (old(fs.IsFile(dm.tsData.tsConfigFile)) && GetParamsForRegistration(catalog, dm.modelName).Failed?)
      ==> st == Fail(GetParamsForRegistration(catalog, dm.modelName).failure)
          && server.running == old(server.running)
    ensures st == Ok ==>
      && startStatus == 0 && server.running
      && dm.tsData.tsConfigFile == GenConfigPath(dm.genFolder)
      && fs.IsFile(GenConfigPath(dm.genFolder))
  {
    var line;
    st, line := SetConfigProperties(dm, fs, catalog);
    if st != Ok {
      return;
    }
    st := StartTsServer(server, dm.tsData, platform, startStatus, stopStatus);
  }

  /** The first steps of get_inference: prepare the settings, write the
      configuration and start the server. */
  method StartServing(dm: InferenceDataModel, fs: FileSystem, env: Environment, server: Server,
                      catalog: Catalog, platform: Platform, startStatus: int, stopStatus: int)
    returns (st: Status)
    modifies dm.tsData, env, fs, server
    ensures dm.tsData.tsModelStore == Dirname(dm.marFilepath)
    ensures dm.tsData.tsLogFile == LogFile(dm.genFolder)
    ensures env.vars == old(env.vars)[LogLocation := LogDir(dm.genFolder)][MetricsLocation := LogDir(dm.genFolder)]
    ensures fs.dirs == old(fs.dirs) + Lineage(LogDir(dm.genFolder))
    ensures !old(fs.IsFile(TemplateConfigPath)) ==>
      st == ExitOne && server.running == old(server.running)
    ensures
      (old(fs.IsFile(TemplateConfigPath)) && GetParamsForRegistration(catalog, dm.modelName).Done?)
      ==> (st == Ok <==> startStatus == 0) && (st == Ok || st == ExitOne)
    ensures
      (old(fs.IsFile(TemplateConfigPath)) && GetParamsForRegistration(catalog, dm.modelName).Failed?)
      ==> st == Fail(GetParamsForRegistration(catalog, dm.modelName).failure)
          && server.running == old(server.running)
    ensures st == Ok ==>
      && startStatus == 0 && server.running
      && dm.tsData.tsConfigFile == GenConfigPath(dm.genFolder)
      && fs.IsFile(GenConfigPath(dm.genFolder))
  {
    dm.PrepareSettings(env, fs);
    st := ConfigureAndStart(dm, fs, server, catalog, platform, startStatus, stopStatus);
  }

  /** Within the probes the default timeout allows, one probe finds every
      worker ready after the earlier ones all asked to retry. */
  predicate HealthReached(probe: nat -> Probe)
  {
    exists k :: 0 <= k < MaxProbes(DefaultModelTimeout) && Healthy(probe(k))
      && forall i :: 0 <= i < k ==> Retried(probe(i))
  }

  /** A probe that finds the workers ready is not one the loop retries, so
      the first healthy probe within the limit is where a health check that
      has made `probes` probes and not passed would have had to stop. */
  lemma HealthyNotRetried(probe: nat -> Probe, probes: nat)
    requires HealthReached(probe)
    requires probes <= MaxProbes(DefaultModelTimeout)
    requires forall i :: 0 <= i < probes - 1 ==> Retried(probe(i))
    requires probes > 0 ==> !Healthy(probe(probes - 1))
    ensures probes < MaxProbes(DefaultModelTimeout)
    ensures probes > 0 ==> Retried(probe(probes - 1))
  {
    var k :| 0 <= k < MaxProbes(DefaultModelTimeout) && Healthy(probe(k))
             && forall i :: 0 <= i < k ==> Retried(probe(i));
    if probes > 0 {
      assert !Retried(probe(k));
      assert k >= probes - 1;
      assert k != probes - 1;
    }
  }

  /** The last steps of get_inference: wait for the health check, then run
      the inputs. When every probe the timeout allows asks to retry, nothing
      is sent and the run exits. */
  method AwaitAndInfer(inputPath: Path, fs: FileSystem, server: Server,
                       probe: nat -> Probe, respond: (Path, bool) -> Reply, stopStatus: int)
    returns (st: Status, inputs: seq<Path>, sent: nat)
    modifies server
    ensures sent <= |inputs|
    ensures inputPath == "" ==> inputs == []
    ensures inputs != [] ==> inputs == Prefixed(inputPath, GetAllFilesInDirectory(fs, inputPath))
    ensures (forall i :: 0 <= i < MaxProbes(DefaultModelTimeout) ==> Retried(probe(i))) ==>
      st == ExitOne && inputs == []
    ensures st == Ok || inputs != [] ==> HealthReached(probe)
    ensures st == Ok ==>
      && server.running == old(server.running)
      && sent == |inputs|
      && (forall i :: 0 <= i < |inputs| ==> Succeeded(ReplyTo(respond, inputs[i])))
    // Once the health check passes, every file of the input folder is sent
    // for, and the run succeeds exactly when each gets a 200 answer.
    ensures HealthReached(probe) ==>
      && inputs == (if inputPath == "" then [] else Prefixed(inputPath, GetAllFilesInDirectory(fs, inputPath)))
      && (st == Ok <==> forall i :: 0 <= i < |inputs| ==> Succeeded(ReplyTo(respond, inputs[i])))
  {
    inputs, sent := [], 0;
    var probes;
    probes, st := TsHealthCheck(DefaultModelTimeout, probe);
    if st != Ok {
      if HealthReached(probe) {
        HealthyNotRetried(probe, probes);
      }
      return;
    }
    assert Healthy(probe(probes - 1)) && forall i :: 0 <= i < probes - 1 ==> Retried(probe(i));
    st, inputs, sent := InferOnInputFolder(inputPath, fs, server, respond, stopStatus);
  }

  /** get_inference: prepare the settings, write the configuration, start
      the server, wait for the health check, then run the inputs.
      `inputs` are the paths sent for, `sent` the requests made. */
  method GetInference(dm: InferenceDataModel, fs: FileSystem, env: Environment, server: Server,
                      catalog: Catalog, platform: Platform, startStatus: int, stopStatus: int,
                      probe: nat -> Probe, respond: (Path, bool) -> Reply)
    returns (st: Status, inputs: seq<Path>, sent: nat)
    modifies dm.tsData, env, fs, server
    ensures dm.tsData.tsModelStore == Dirname(dm.marFilepath)
    ensures dm.tsData.tsLogFile == LogFile(dm.genFolder)
    ensures env.vars == old(env.vars)[LogLocation := LogDir(dm.genFolder)][MetricsLocation := LogDir(dm.genFolder)]
    ensures fs.dirs == old(fs.dirs) + Lineage(LogDir(dm.genFolder))
    ensures sent <= |inputs|
    ensures dm.inputPath == "" ==> inputs == []
    ensures inputs != [] ==>
      && startStatus == 0
      && inputs == Prefixed(dm.inputPath, GetAllFilesInDirectory(fs, dm.inputPath))
    ensures !old(fs.IsFile(TemplateConfigPath)) ==>
      st == ExitOne && inputs == [] && server.running == old(server.running)
    ensures
      (old(fs.IsFile(TemplateConfigPath)) && GetParamsForRegistration(catalog, dm.modelName).Done?
       && startStatus != 0)
      ==> st == ExitOne && inputs == []
    ensures st == Ok || inputs != [] ==> HealthReached(probe)
    ensures st == Ok ==>
      && startStatus == 0 && server.running
      && dm.tsData.tsConfigFile == GenConfigPath(dm.genFolder)
      && fs.IsFile(GenConfigPath(dm.genFolder))
      && sent == |inputs|
      && (forall i :: 0 <= i < |inputs| ==> Succeeded(ReplyTo(respond, inputs[i])))
    // A registration KeyError propagates before the server starts.
    ensures
      (old(fs.IsFile(TemplateConfigPath)) && GetParamsForRegistration(catalog, dm.modelName).Failed?)
      ==> st == Fail(GetParamsForRegistration(catalog, dm.modelName).failure) && inputs == []
    // With the template there, the registration readable, the server
    // started and the health check passed, every input is sent for, and the
    // run succeeds exactly when each gets a 200 answer.
    ensures
      (&& old(fs.IsFile(TemplateConfigPath)) && GetParamsForRegistration(catalog, dm.modelName).Done?
       && startStatus == 0 && HealthReached(probe))
      ==>
      && inputs == (if dm.inputPath == "" then [] else Prefixed(dm.inputPath, GetAllFilesInDirectory(fs, dm.inputPath)))
      && (st == Ok <==> forall i :: 0 <= i < |inputs| ==> Succeeded(ReplyTo(respond, inputs[i])))
  {
    inputs, sent := [], 0;
    st := StartServing(dm, fs, env, server, catalog, platform, startStatus, stopStatus);
    if st != Ok {
      return;
    }
    st, inputs, sent := AwaitAndInfer(dm.inputPath, fs, server, probe, respond, stopStatus);
  }
}
