# nai-llm model archive naming, resolution and serving — a Dafny model

This project models the core of nai-llm, the Nutanix scripts that package
Hugging Face language models as TorchServe model archives (MAR files) and
serve them. It covers:

- the naming of a model archive (`<model_name>_<first 7 characters of the
  revision>` for catalog models, the bare model name for custom models);
- how `download.py` and `generate.py` resolve a request against the model
  catalog (`model_config.json`) and the Hugging Face hub. This includes the
  ignore patterns for weight formats, the staging directory
  `tmp_<mar_name>_…`, the archiver command line and moving the archive into
  the model store;
- the TorchServe start command, the `config.properties` snapshot line, and
  the model's registration and generation parameters;
- the health-check retry loop, and inference over a folder of inputs;
- `torchserve_run.py`: its checks, inference and cleanup;
- the request batching of the TorchServe handler (`preprocess` and
  `postprocess`).

The file system is a `Host.FileSystem` object. It holds a sequence of file
paths in listing order and a set of directory paths; the scripts' steps
change it in place. The process environment is a `Host.Environment` object.
The shared class-level objects of the data models are classes passed to
each constructor. Status codes from the shell, the hub's answers and the
HTTP responses are parameters.

Each file models one source file:

- `marsgen.dfy`, `system_utils.dfy`, `tsutils.dfy`, `inference_utils.dfy`,
  `generate_data_model.dfy` and `inference_data_model.dfy` model the modules
  of the same name under `llm/utils/`.
- `generate.dfy`, `download.dfy`, `torchserve_run.dfy` and `handler.dfy`
  model the scripts under `llm/`.
- `hub.dfy` models the calls into `huggingface_hub`.
- `host.dfy` models the file system, the environment and the file helpers
  of `shell_utils.py`.
- `catalog.dfy` models the catalog's entries.
- `common.dfy` holds string and path helpers.

Failures are values:

- `Status` is `Ok` or `Fail(f)`, where `f` is `Exit(code)` for a
  `sys.exit` or `Raise(name)` for an uncaught Python exception.
- `Outcome<T>` is `Done(v)` or `Failed(f)`.
- `ExitOne` abbreviates `Fail(Exit(1))`.

## Model

| member | source | states |
|---|---|---|
| MarsGen.GetMarName | llm/utils/marsgen.py:32-36 | A custom model's archive name is its model name. A catalog model's name starts with `<model_name>_`, has length `len(model_name) + 1 + min(7, len(version))`, and what follows the underscore is a prefix of the version. |
| MarsGen.MarNameCollision | llm/utils/marsgen.py:32-36 | Two revisions of one catalog model get the same archive name exactly when their first seven characters agree. |
| MarsGen.MarNameCustomDiffers | llm/utils/marsgen.py:32-36 | For a given model and version, the custom name and the catalog name always differ. |
| MarsGen.OptionOfRank | llm/utils/marsgen.py:122-133 | The option built for builder position k has position k and carries the given value. |
| MarsGen.OptionsFromCarry | llm/utils/marsgen.py:122-133 | Every emitted archiver option carries the argument of its own flag, and that argument is non-empty. |
| MarsGen.OptionsFromOrdered | llm/utils/marsgen.py:122-133 | Options are emitted in the builder's order: model-name, version, handler, extra-files, export-path. |
| MarsGen.OptionsFromPresence | llm/utils/marsgen.py:122-133 | Each flag appears exactly when its argument is non-empty. |
| MarsGen.RenderStep | llm/utils/marsgen.py:122-133 | Each conditional append of the builder adds exactly the rendering of that option, if any. |
| MarsGen.CommandRendersOptions | llm/utils/marsgen.py:122-133 | The command is `torch-model-archiver`, then the rendered options in order, then ` --force`. |
| MarsGen.CommandFrame | llm/utils/marsgen.py:122-133 | The command starts with `torch-model-archiver` and ends with ` --force`. |
| MarsGen.ExtraFilesRoundTrip | llm/utils/marsgen.py:67-72 | Splitting the comma-joined manifest at commas gives back the model files, each under the model path, in listing order. |
| MarsGen.MarsArgs | llm/utils/marsgen.py:77-83 | Archiver arguments: the bare model name, the repository version, the handler, the staging directory as export path, and the manifest of every file below the model path. |
| MarsGen.GenerateMars | llm/utils/marsgen.py:40-105 | A missing handler file or a missing model store is exit 1, with no file changed. Otherwise the command run is the builder's command over these arguments. A zero status writes `<store>/<model_name>.mar`, and nothing else; a non-zero status is exit 1 with files unchanged. Directories are unchanged. |
| SystemUtils.RemoveSuffixIfStartsWith | llm/utils/system_utils.py:91-93 | When the string starts with the given prefix, the prefix followed by the result is the string. Otherwise the result is the string unchanged. It is never longer. |
| SystemUtils.CheckPathExists | llm/utils/system_utils.py:48-52 | Returns success or exit 1, and exits exactly when the path is not a directory (or not a file, for a file check). |
| SystemUtils.CheckFolderEmpty | llm/utils/system_utils.py:76-77 | NotADirectoryError when the path is a regular file, FileNotFoundError when it does not exist. Otherwise true exactly when nothing lies below it. |
| SystemUtils.RelativeFilesMembers | llm/utils/system_utils.py:105-112 | A name is listed exactly when `<dir>/<name>` is a file. The listing is no longer than the file list. |
| SystemUtils.RelativeFilesAppend | llm/utils/system_utils.py:105-112 | Listing follows file order: listing concatenated files concatenates the listings. |
| SystemUtils.RelativeFilesNone | llm/utils/system_utils.py:105-112 | A directory with no files below it lists nothing. |
| SystemUtils.RelativeFilesPrefixed | llm/utils/system_utils.py:105-112 | Files written below a directory are listed back under their relative names, in order. |
| SystemUtils.ListedFiles | llm/utils/system_utils.py:96-112 | `x` is listed for a directory exactly when `<dir>/x` is a regular file. |
| SystemUtils.ListingExcludesDirectories | llm/utils/system_utils.py:105-112 | A listed name never denotes a directory. |
| Host.FileSystem.RmDir | llm/utils/shell_utils.py:30-40 | An existing directory is removed with everything below it, and nothing else changes. A missing directory changes nothing. |
| Host.FileSystem.MakeDirs | llm/utils/system_utils.py:55-63 | The directory and all of its ancestors exist afterwards. Files are unchanged. |
| Host.FileSystem.MoveFile | llm/utils/shell_utils.py:43-51 | Afterwards the source is gone and the destination exists. Directories are unchanged. |
| Host.FileSystem.CopyFile | llm/utils/tsutils.py:136 | Afterwards the destination exists, and the source is kept. |
| Hub.ListRepoFiles | llm/download.py:209-215 | Listing a repository at a revision succeeds exactly when that commit exists. |
| Hub.KeptFiles | llm/generate.py:217-223 | A repository file is downloaded exactly when no ignore pattern matches it. |
| Hub.KeptFilesDistinct | llm/generate.py:217-223 | The downloaded files are distinct when the repository's files are. |
| Hub.SnapshotDownload | llm/download.py:340-347 | Unknown commit ⇒ HfHubHTTPError with files unchanged. Otherwise every non-ignored repository file is added under the local directory. Directories are unchanged. |
| GenerateData.MarUtils.constructor | llm/utils/generate_data_model.py:12-27 | All four paths start empty. |
| GenerateData.RepoInfo.constructor | llm/utils/generate_data_model.py:30-43 | The repository id and version start empty, and the token starts as the empty string. |
| GenerateData.GenerateDataModel.constructor | llm/utils/generate_data_model.py:67-74 | Binds the shared class-level objects and applies `set_values` with the repository id copied (see Findings). `is_custom_model` is false, and the archive name is left as it was. |
| GenerateData.GenerateDataModel.AsWritten | llm/utils/generate_data_model.py:67-74 | The constructor as written: the same fields are set, but the repository id is left as it was. |
| GenerateData.GenerateDataModel.SetValuesAsWritten | llm/utils/generate_data_model.py:84-93 | Copies name, skip-download flag, debug, token, version, handler, model path and output path from the arguments. Leaves the repository id, archive name and custom flag unchanged. |
| GenerateData.GenerateDataModel.SetValues | llm/utils/generate_data_model.py:84-93 | The corrected `set_values`: the same copies, and the repository id from `--repo_id` as well (see Findings). |
| GenerateData.GenerateDataModel.CheckIfMarExists | llm/utils/generate_data_model.py:100-109 | Exits with 1 exactly when `<mar_output>/<mar_name>.mar` already exists. |
| GenerateData.SecondInstanceOverwritesFirst | llm/utils/generate_data_model.py:63-64 | Two data models share `mar_utils` and `repo_info`: the first one sees the second one's paths, version and token, and, with the corrected constructor that copies it, the second one's repository id. |
| Generate.StarredExcept | llm/generate.py:53-63 | Every preferred weight format other than the chosen one appears as a `*<ext>` pattern, and the chosen one does not. |
| Generate.FirstPresent | llm/generate.py:53-63 | None exactly when no preferred format is among the repository's extensions. Otherwise it is the earliest preferred format present. |
| Generate.GetIgnorePatternList | llm/generate.py:40-63 | The loop returns the ignore list that the reference definition gives for the repository's extensions. |
| Generate.IgnoreListKeepsFirstPreferred | llm/generate.py:53-63 | The first preferred format present is never ignored. Every other preferred format and every other-format extension is ignored. |
| Generate.IgnoreListEmptyWithoutPreferred | llm/generate.py:53-63 | With no preferred format present, nothing is ignored. |
| Generate.IgnoreListPrefersSafetensors | llm/generate.py:26 | A repository that has safetensors weights downloads those and ignores the other formats. |
| Generate.ArchiveOutsideStaging | llm/generate.py:93-98 | The archive's destination never lies inside the staging directory. |
| Generate.CreateTmpModelStore | llm/generate.py:78-82 | Creates `<mar_output>/tmp_<mar_name>_<last five characters of the uuid>` and its ancestors, and leaves files unchanged. |
| Generate.MoveMar | llm/generate.py:93-98 | Moves `<model_name>.mar` from the staging directory to `<mar_output>/<mar_name>.mar`. A missing archive leaves files unchanged. |
| Generate.Resolve | llm/generate.py:113-192 | The model is custom exactly when it is not in the catalog, and the archive name is `get_mar_name` of the resolved version. Catalog model: the entry supplies the repo_id, and the version and handler when none is given; a missing repo_id, a missing version or a missing handler exits with 1; a failure of the token check, or of the commit check after a passing token check, is caught when it is a KeyError or ValueError. Custom model: skip-download raises NotADirectoryError or FileNotFoundError for a model path that is not a directory, exits with 1 on an empty one, and defaults the version to `1.0`; download exits with 1 without a repo_id, and a token or commit failure escapes uncaught. The handler defaults to `handler.py` in the script directory. The resolution succeeds exactly when the catalog entry is complete and both checks pass (catalog model), the model folder exists and is non-empty (custom, skip-download), or a repo_id is given and both checks pass (custom download). |
| Generate.ReadConfigForDownload | llm/generate.py:101-192 | The data model's fields are set to what the resolution gives, and the same failures are reported. |
| Generate.RunDownload | llm/generate.py:206-225 | A missing model directory raises FileNotFoundError, and a non-empty one exits with 1. Otherwise the repository files kept by the ignore list are downloaded into it, or the hub's HTTP error is raised for an unknown commit. Directories are unchanged. |
| Generate.CreateMar | llm/generate.py:238-261 | Succeeds exactly when the model folder is non-empty, the handler exists and the archiver succeeds. On success the archive is in the store and the staging directory is gone. A missing or empty model folder fails before anything changes. Once staging has begun, a missing handler or a failing archiver exits with 1 with files unchanged, and the staging directory `tmp_<mar_name>_<uuid5>` is left behind. |
| Generate.DownloadAndBuild | llm/generate.py:282-284 | Skipping the download, it succeeds exactly when the model folder is non-empty, the handler exists and the archiver succeeds. Otherwise a non-empty model folder exits with 1 and an unknown commit raises the hub's HTTP error, both leaving files unchanged; after a download it succeeds exactly when something was downloaded below the model folder, the handler exists or was downloaded, and the archiver succeeds. On success the archive is in the store. When staging begins but the archive is not built, the result is exit 1 and the staging directory is left behind. |
| Generate.RunSteps | llm/generate.py:276-285 | Every exit of `run_script` after the data model is built: a failed resolution is passed on with files and directories unchanged; a missing model path or output directory exits with 1; an existing `<mar_output>/<mar_name>.mar` exits with 1 before anything is written; the download failures follow. It returns True exactly when the resolution succeeds and the success condition of the build holds, and then the archive exists. When staging begins (`StagingStarts`) but the run does not succeed, it exits with 1 and the staging directory is left behind. |
| Generate.RunScript | llm/generate.py:264-285 | The same exit paths stated on the command line: a failed resolution is returned as it is; a missing model path or output directory, or an existing archive, exits with 1 and leaves files unchanged; a non-empty model folder before a download exits with 1; an unknown commit raises the hub's HTTP error. True exactly when the resolution succeeds, both directories exist, the archive does not, the archiver succeeds, and either the download is skipped with a non-empty model folder and an existing handler, or an empty model folder receives files and the handler exists or is downloaded. Then `<mar_output>/<mar_name>.mar` exists. When staging begins but the run does not succeed, it exits with 1 and `<mar_output>/tmp_<mar_name>_<uuid5>` is left behind. |
| Generate.RunScriptAsWritten | llm/generate.py:264-285 | `run_script` with `set_values` as written: the resolution sees the repository id the shared object held before, so a custom download with an empty one exits with 1 whatever `--repo_id` says. |
| Generate.CustomDownloadAsWrittenExits | llm/generate.py:157-168 | In a fresh process, every custom model download exits with 1 as written. |
| Generate.CustomDownloadResolvesWithRepoId | llm/generate.py:157-174 | A custom download resolves once the repository id reaches the data model, and fails with exit 1 when it does not. |
| Download.DownloadDataModel.constructor | llm/download.py:74-91 | The model starts with the given shared objects, an empty model name and false flags. |
| Download.GetIgnorePatternList | llm/download.py:125-137 | One pattern per ignored extension: pattern i is `*` followed by extension i. |
| Download.IgnorePatternsAgreeWithFilter | llm/download.py:168-171 | For a non-empty extension list, a file name matches one of the `*<ext>` globs exactly when it matches the joined regex, i.e. ends with one of the extensions. |
| Download.CountIsMultiplicity | llm/download.py:152 | The counter of a list is its multiset of elements. |
| Download.CompareListsCountsEqual | llm/download.py:152 | Two lists compare equal exactly when each element occurs the same number of times in both. |
| Download.CompareListsIgnoresOrder | llm/download.py:152 | Any permutation of a list compares equal to it. |
| Download.FilterFilesByExtension | llm/download.py:168-173 | Keeps exactly the names that end with none of the extensions. Each kept name keeps its multiplicity, and the result is no longer than the input. |
| Download.FilterWithoutExtensionsIsEmpty | llm/download.py:168-173 | With no extensions, the joined pattern is the empty regex. It matches every name, so nothing is kept. |
| Download.KeptFilesIsFilter | llm/download.py:340-347 | The files the hub download keeps are the files the local filter keeps. |
| Download.CheckIfMarExists | llm/download.py:184-193 | Exit 1 exactly when the archive already exists in the output directory. |
| Download.CheckIfModelFilesExist | llm/download.py:209-217 | An unknown commit raises the hub's HTTP error. Otherwise the check returns a verdict: the local listing compared, as a multiset, with the filtered repository files. |
| Download.LocalIgnoredFileFailsCheck | llm/download.py:209-217 | The local listing is not filtered, so a local file with an ignored extension makes the check false. |
| Download.DownloadedFilesPassCheck | llm/download.py:209-217 | After the hub download into a directory with no files, the local listing equals the filtered repository files, and the check returns true. |
| Download.DownloadedListing | llm/download.py:209-217 | The same fact over a file list: the kept repository files, written below a directory that holds nothing, list back as the filtered repository listing in order (for a listing without repeats). |
| Download.NotStagingName | llm/download.py:247-252 | The archive's file name is never the staging directory's name. |
| Download.ArchiveOutsideStaging | llm/download.py:247-252 | The archive's destination never lies inside the staging directory. |
| Download.CreateTmpModelStore | llm/download.py:232-236 | Removes any earlier staging directory with its contents, then recreates it and its ancestors. |
| Download.MoveMar | llm/download.py:247-252 | Moves `<model_name>.mar` from the staging directory to `<mar_output>/<mar_name>.mar`. A missing archive leaves files unchanged. |
| Download.Resolve | llm/download.py:267-317 | An unknown model is exit 1. The catalog's version is used when none is given. A meta-llama repository without a token is exit 1. A revision whose commit is unknown is exit 1. The handler comes from the catalog. Every failure is exit 1. It succeeds exactly when the model is in the catalog with a `repo_id`, a version is given or listed, the token rule passes, the commit exists and a handler is given or listed. |
| Download.MetaLlamaNeedsToken | llm/download.py:280-289 | A catalog repository whose id starts with `meta-llama` exits with 1 when no token is given (`None`). An empty token string passes this check. |
| Download.ReadConfigForDownload | llm/download.py:255-317 | The data model's fields are set to what the resolution gives, and the same failures are reported. |
| Download.SetValues | llm/download.py:104-122 | Copies the arguments, resolves the catalog, and names the archive `get_mar_name(model_name, version, False)`. |
| Download.RunDownload | llm/download.py:331-349 | A missing model directory raises FileNotFoundError, and a non-empty one exits with 1; either way files are unchanged. Otherwise the kept repository files are downloaded into it. An unknown commit raises the hub's HTTP error. Directories are unchanged. |
| Download.CreateMarAsWritten | llm/download.py:362-381 | As written, it never succeeds. When the model files match, the call to `generate_mars` raises TypeError. |
| Download.CreateMar | llm/download.py:352-385 | Corrected call. It succeeds exactly when the model files match, the handler is still a file after the staging directory is emptied, and the archiver succeeds. On success the archive is in the store and the staging directory is gone. A failed or negative file check changes nothing. After a positive check, any other outcome exits with 1; the staging directory `tmp_<mar_name>` is left behind, emptied of what it held before. |
| Download.ProduceMar | llm/download.py:398-404 | The tail of `run_script`, with every exit in order. A missing model directory, a missing output store, an existing archive, or a non-empty model directory before a download exits with 1 and changes nothing. An unknown revision raises HfHubHTTPError and changes nothing. Files that do not match the repository, with or without the download, exit with 1 and keep what was downloaded. Once staging has begun, a failure leaves the staging directory behind. It succeeds exactly when staging begins, the handler survives it and the archiver succeeds (`RunSucceeds`). It does succeed for an empty model directory, a known commit with distinct files, an existing handler outside the staging directory and a successful archiver. |
| Download.DownloadAndBuild | llm/download.py:402-404 | Download unless skipped, then `create_mar`, once both directories exist and the archive does not. It succeeds exactly when `RunSucceeds` holds. It states the non-empty directory, unknown revision, file mismatch and staging-leftover exits. |
| Download.EmptyDownloadStages | llm/download.py:398-404 | With both directories present and no archive, a download into an empty model directory of a known commit with distinct files reaches the staging step. |
| Download.RunScript | llm/download.py:388-404 | Corrected run, with every exit stated over the command line. Resolution failures are reported as they are and change nothing. A missing model directory or output store, an existing archive, or a non-empty model directory before a download exits with 1 and changes nothing. Files that do not match the repository exit with 1 before staging. Once staging has begun, a failure leaves `<mar_output>/tmp_<mar_name>` behind. It succeeds exactly when the resolution succeeds and `RunSucceeds` holds. On success the archive `<mar_output>/<model>_<7 characters of the revision>.mar` exists. A complete set of working inputs gives success. |
| Download.RunScriptAsWritten | llm/download.py:388-404 | As written, the script never succeeds. Resolution failures are reported as they are. |
| Download.RunTwice | llm/download.py:397-404 | A second run with the same arguments after a successful one exits with 1, because the archive exists. |
| InferenceData.TorchserveStartData.constructor | llm/utils/inference_data_model.py:11-27 | All start paths are empty. |
| InferenceData.RunParams.constructor | llm/torchserve_run.py:174-229 | The command-line arguments are the given ones. The model starts as a catalog model with no archive path. |
| InferenceData.LogFileParts | llm/utils/inference_data_model.py:83-85 | The console log is `ts_console.log` in `<gen_folder>/logs`. |
| InferenceData.InferenceDataModel.constructor | llm/utils/inference_data_model.py:51-58 | Binds the shared start data and copies model name, input path, generated folder, archive path and version from the arguments. |
| InferenceData.InferenceDataModel.SetDataModel | llm/utils/inference_data_model.py:68-72 | Sets model name, input path, generated folder, archive path and repository version from the arguments. |
| InferenceData.InferenceDataModel.PrepareSettings | llm/utils/inference_data_model.py:74-92 | Sets the log file, log config, config file and model store. Points `LOG_LOCATION` and `METRICS_LOCATION` at the log file's directory, and leaves other variables unchanged. Creates that directory and its ancestors. |
| InferenceData.InferenceDataModel.FillStartData | llm/utils/inference_data_model.py:83-88 | The start data's four paths are the log file, the log config, the config file and the model store. |
| InferenceData.ExportLogDir | llm/utils/inference_data_model.py:89-92 | Both log variables name the log directory, and the directory exists afterwards. |
| InferenceData.SecondModelSharesStartData | llm/utils/inference_data_model.py:49 | Two inference models share one start data object, so the second model's settings are what both see. |
| TsUtils.TorchserveCommand | llm/utils/tsutils.py:21-25 | The command starts with `torchserve`. It carries `.exe` exactly on Windows. |
| TsUtils.RedirectTarget | llm/utils/tsutils.py:56-57 | An absolute log file is used as it is. The redirect target always ends with the log file. |
| TsUtils.LogFileRedirectsToItself | llm/utils/tsutils.py:55-57 | The console log file is absolute, because the script directory is; so the server's output is appended to the log file itself. |
| TsUtils.StartOptionsOrdered | llm/utils/tsutils.py:48-57 | Start options come in the order of the source: `--ncs`, `--ts-config`, `--log-config`, then the console redirect. |
| TsUtils.StartOptionsPresence | llm/utils/tsutils.py:48-57 | `--ncs` appears exactly when requested. Each of the config, log-config and redirect options appears exactly when its path is non-empty. |
| TsUtils.StartOptionsCarry | llm/utils/tsutils.py:46-57 | Each start option carries its own path. |
| TsUtils.RenderOptionsAppend | llm/utils/tsutils.py:46-57 | Rendering the start options distributes over concatenation. |
| TsUtils.GenerateTsStartCmd | llm/utils/tsutils.py:34-60 | The start command begins with `torchserve --start --model-store=<store>`. |
| TsUtils.RenderStartOptions | llm/utils/tsutils.py:48-57 | The rendered options are exactly the source's conditional appends, in order: ` --ncs`, ` --ts-config=<file>`, ` --log-config <file>`, ` >> <log>`. |
| TsUtils.StartCmdRendersOptions | llm/utils/tsutils.py:46-60 | The start command is the head, then the rendered options, then the console redirect. |
| TsUtils.StartTorchserve | llm/utils/tsutils.py:83-93 | The command run is the generated start command. It reports a start exactly when the status is 0. The server is running afterwards if it already was or it started. |
| TsUtils.StopTorchserve | llm/utils/tsutils.py:106-119 | Reports a stop exactly when the server was running and the stop status is 0. A reported stop leaves the server down; otherwise its state is kept. |
| TsUtils.GetParamsForRegistration | llm/utils/tsutils.py:214-235 | An unknown model gives no values. A known model without `registration_params` raises KeyError. Otherwise each value is present exactly when its key is. |
| TsUtils.OrDefault | llm/utils/tsutils.py:150-158 | A missing or zero setting falls back to the default. A non-zero setting is kept. |
| TsUtils.SnapshotFor | llm/utils/tsutils.py:141-158 | Minimum and maximum workers are equal, and every value is non-zero. Configured non-zero values are kept. An unset or zero value becomes 1 for the workers, the batch size and the batch delay, and 120 for the response timeout. The archive entry is the store path's base name. |
| TsUtils.UnknownModelSnapshotDefaults | llm/utils/tsutils.py:141-158 | A model missing from the catalog is registered with the defaults. |
| TsUtils.SnapshotLine | llm/utils/tsutils.py:150-159 | The appended line starts with a newline and `model_snapshot={"name":"startup.cfg","modelCount":1,`, and closes the JSON object with `}}}}`. |
| TsUtils.SetConfigProperties | llm/utils/tsutils.py:131-163 | A missing template config is exit 1, with nothing copied. Otherwise the config is copied to `<gen>/config.properties`. A registration lookup failure (KeyError) is reported. On success the config path points at the copy, and the returned line is the model's snapshot line. The other start paths are unchanged. |
| TsUtils.ApplyParamsSpec | llm/utils/tsutils.py:185-198 | Each listed generation parameter is set to its catalog value when present and removed when absent. |
| TsUtils.ModelParamsEnv | llm/utils/tsutils.py:185-198 | An unknown model leaves the environment unchanged. A model without `model_params` removes all four variables. Otherwise each variable is set exactly when its parameter is present, to that parameter's value. Other variables are unchanged. |
| TsUtils.ApplyGenerationParams | llm/utils/tsutils.py:185-198 | The loop leaves the environment that the reference definition gives. |
| TsUtils.SetModelParams | llm/utils/tsutils.py:166-198 | The environment afterwards is the one the reference definition gives for the catalog entry. |
| TsUtils.RunHealthCheck | llm/utils/tsutils.py:322-328 | Healthy exactly when every worker reports READY. |
| InferenceUtils.StartTsServer | llm/utils/inference_utils.py:37-40 | Succeeds exactly when the start status is 0. Otherwise it reports the error and exits with 1. |
| InferenceUtils.MaxProbes | llm/utils/inference_utils.py:54-58 | The number of probes is the timeout divided by 15, rounded up. It is zero exactly when the timeout is not positive. |
| InferenceUtils.DefaultTimeoutProbes | llm/utils/inference_utils.py:43 | The default timeout of 1200 seconds allows 80 probes. |
| InferenceUtils.TsHealthCheck | llm/utils/inference_utils.py:54-71 | Probes at most MaxProbes times, and every probe before the last was retried. Success exactly when the last probe is healthy. Exit 1 when all probes were retried. An uncaught exception propagates. |
| InferenceUtils.IsJsonContentType | llm/utils/inference_utils.py:86-91 | An input is JSON exactly when its path is `json` or ends in `.json`. |
| InferenceUtils.JsonSuffix | llm/utils/inference_utils.py:86-91 | Any name ending in `.json` is sent as JSON. |
| InferenceUtils.ExecuteInferenceOnInputs | llm/utils/inference_utils.py:83-101 | Answers the inputs in order and stops at the first one that fails. Success exactly when every input was answered. A failed answer is exit 1, after stopping the server; an exception propagates as itself. |
| InferenceUtils.InferOnInputFolder | llm/utils/inference_utils.py:144-161 | No input folder means no inputs and success. Otherwise the inputs are the folder's files, prefixed with the folder, in listing order. Success exactly when every input was answered. A caught KeyError or request error, or a failed answer, is exit 1; any other exception propagates. |
| InferenceUtils.ConfigureAndStart | llm/utils/inference_utils.py:139-141 | A missing config file is exit 1, and the server is not started. A catalog entry without registration parameters propagates KeyError, and the server is not started. For a model whose registration parameters can be read, success comes exactly when the start status is 0. Success leaves the config at `<gen>/config.properties` and the server running. |
| InferenceUtils.StartServing | llm/utils/inference_utils.py:138-141 | Prepares the settings (model store, log file, log variables and log directory), then configures and starts the server. A missing template config is exit 1. A registration KeyError propagates. For a readable registration, success comes exactly when the start status is 0. |
| InferenceUtils.AwaitAndInfer | llm/utils/inference_utils.py:142-161 | When every health probe is retried, the result is exit 1 and no inference runs. Success, or any input sent, means a probe within the timeout found every worker ready after the earlier ones asked to retry. Conversely, once such a probe exists, the inputs are exactly the files of the input folder, and the run succeeds exactly when each gets a 200 answer. On success the server's state is unchanged. |
| InferenceUtils.HealthyNotRetried | llm/utils/inference_utils.py:43-71 | When a healthy probe lies within the timeout, a health check that has stopped without passing cannot have used up its probes and cannot have stopped on an uncaught exception; so it passes. |
| InferenceUtils.GetInference | llm/utils/inference_utils.py:126-161 | Composes settings, config, start, health check and inference. A missing template config is exit 1. A registration KeyError propagates with no inputs sent. A failed start, for a readable registration, is exit 1 with no inputs sent. Success requires start status 0, a running server, the generated config file, a healthy probe within the timeout after only retries, and an answer to every input. Conversely, with the template present, a readable registration, start status 0 and a healthy probe, every file of the input folder is sent for, and the run succeeds exactly when each gets a 200 answer. |
| TorchserveRun.GenDir | llm/torchserve_run.py:120-122 | The generated folder is `utils/<gen_folder_name>` next to the script, and is never the empty path. |
| TorchserveRun.GenLogsDir | llm/torchserve_run.py:166 | The logs directory is `logs` in the generated folder, and lies within it. |
| TorchserveRun.InferenceVersion | llm/torchserve_run.py:53-58 | A catalog entry without `repo_version` raises KeyError, even when a version was given. Otherwise a given version is kept, and the catalog's version is used when none is given. |
| TorchserveRun.ReadConfigForInference | llm/torchserve_run.py:36-59 | The model is custom exactly when it is not in the catalog. The version is the resolved one. |
| TorchserveRun.MarNameNoSeparator | llm/torchserve_run.py:79-80 | An archive name never contains `/`. |
| TorchserveRun.MarFilepathParts | llm/torchserve_run.py:79-80 | The archive path is `<model_store>/<mar_name>.mar`: its directory is the store and its base name is `<mar_name>.mar`. |
| TorchserveRun.LogsWithinGen | llm/torchserve_run.py:162-170 | The logs directory lies within the generated folder. |
| TorchserveRun.Cleanup | llm/torchserve_run.py:153-170 | Without the stop flag, nothing changes. With it, the server is stopped (it stays up only if it ran and the stop command failed) and the logs directory is removed with its files. With the cleanup flag too, the whole generated folder is removed. Files outside the generated folder are kept, and no file is created. |
| TorchserveRun.RunInferenceWithMar | llm/torchserve_run.py:83-93 | Builds the inference data model and runs the inference: the model store is the archive's directory and the log variables name the logs directory. A missing template config is exit 1, and a registration KeyError propagates. Success means the server was started and is running, and every input file in the data folder was answered. With the template present, a readable registration, start status 0 and a healthy probe, the run succeeds exactly when every input file of the data folder gets a 200 answer. |
| TorchserveRun.InputChecks | llm/torchserve_run.py:106-117 | Passes exactly when the store directory exists, the archive exists, and the data directory exists if one was given. |
| TorchserveRun.RunInference | llm/torchserve_run.py:96-125 | Sets the archive path when the store exists. A failed path check is exit 1 with files, directories and environment unchanged; a failed precision setting is reported the same way. Success means the generated folder exists, the environment holds the model's generation parameters and the log locations, and the server is running. |
| TorchserveRun.ModelConfigOutsideGen | llm/torchserve_run.py:19 | The model catalog file never lies inside the generated folder, so cleanup keeps it. |
| TorchserveRun.StopThenRun | llm/torchserve_run.py:136-143 | The body of the `try`. It stops any running server first. A missing `model_config.json` is exit 1. A catalog entry without a version raises KeyError. On success the version is resolved, the archive path is `set_mar_filepath` of it, and the server is running. |
| TorchserveRun.TorchserveRunMain | llm/torchserve_run.py:128-150 | Cleanup always runs afterwards (the `finally`). With the stop flag, the logs directory is gone and the server is down unless its stop failed; with the cleanup flag too, the generated folder is gone. Without the stop flag, a successful run leaves the server running. On success the custom flag and archive path are those of the resolution. |
| Handler.IdOf | llm/handler.py:156-158 | A V2 request's id is its non-empty `id` field. A request without one gets the empty id. |
| Handler.RowText | llm/handler.py:160-167 | An input row gives the first element of its data. Missing data is TypeError, and an empty list is IndexError. |
| Handler.RowTexts | llm/handler.py:153-167 | A V2 request contributes one text per input, in order. The first malformed input fails the request. |
| Handler.Contribution | llm/handler.py:144-176 | A raw request contributes its body. A V2 request contributes its rows' texts. A dictionary without inputs contributes nothing. |
| Handler.PreprocessRecords | llm/handler.py:144-176 | Request i is recorded as raw or V2 exactly when it is one. A V2 request records its number of inputs and its id. |
| Handler.ToJson | llm/handler.py:271-284 | An output is named `explain` exactly when `explain` is `"True"`, and `predict` otherwise. It has shape `[-1]`, type `BYTES` and the text as its data. |
| Handler.BatchToJson | llm/handler.py:262-269 | One output per generated text, in order, each converted by `_to_json`. |
| Handler.BatchToJsonTexts | llm/handler.py:262-269 | The output at position i carries generated text i. |
| Handler.RawHoldsIndex | llm/handler.py:232-240 | A raw request answers with the current text and does not advance the index. |
| Handler.FirstRawAnswersAllRaw | llm/handler.py:232-240 | When request 0 is raw, every generated result is returned unchanged as a passthrough, in order, including the results of later V2 requests. |
| Handler.OneGroup | llm/handler.py:242-258 | Folding a V2 request's n results closes that request. It emits one response with the request's id, name, version and the n outputs, resets its count and moves to the next request. |
| Handler.Groups | llm/handler.py:232-260 | When the result groups fit the recorded counts, postprocess emits one V2 response per group, in order. |
| Handler.BatchFits | llm/handler.py:144-176 | For a batch of V2 requests, groups sized by each request's inputs fit the counts that preprocess recorded. |
| Handler.BatchResponses | llm/handler.py:242-258 | One response per request. Response i carries request i's id and exactly group i's texts. |
| Handler.V2BatchRegrouped | llm/handler.py:224-260 | For a V2-only batch, postprocess over the flattened groups gives one response per request. Each has the request's id and exactly that request's group of results. |
| Handler.FlatIsFlatten | llm/handler.py:144-176 | The flat input list is the concatenation of each request's contribution. |
| Handler.V2EchoRoundTrip | llm/handler.py:136-260 | When the model echoes its inputs, preprocess followed by postprocess answers each V2 request with its own id and its own input texts. |
| Handler.RowTextsFailPersists | llm/handler.py:153-167 | A malformed V2 input fails the whole request, whatever follows it. |
| Handler.FlatFailPersists | llm/handler.py:144-176 | A failed request fails the whole batch, whatever follows it. |
| Handler.LLMHandler.Preprocess | llm/handler.py:136-183 | Returns the flat input texts of the batch, or the batch's first failure. Records each request's kind, input count and ids. |
| Handler.LLMHandler.ReadRows | llm/handler.py:153-167 | The loop over a V2 request's inputs gives the same texts as the reference definition. |
| Handler.LLMHandler.Postprocess | llm/handler.py:224-260 | The loop's responses and the remaining counts are those of the reference fold over the recorded requests. Kinds and ids are unchanged. |
| Handler.InferenceParams | llm/handler.py:198-215 | The parameter dictionary holds `max_new_tokens` from the environment (default 200). It holds each of temperature, repetition penalty and top_p exactly when its variable is non-empty. The pad and end tokens are the tokenizer's end token, sampling is on, and there are no other keys. |
| Handler.CatalogParamsReachGenerate | llm/handler.py:198-215 | After `set_model_params`, each float parameter reaches generation exactly when the catalog gives a non-empty value, and with that value. `max_new_tokens` is the catalog's value or 200. |
| Handler.NoModelParamsDefaults | llm/handler.py:198-215 | A catalog entry without `model_params` gives generation only `max_new_tokens` = 200. |

## Left out

- The Hugging Face hub is a listing of repository files per commit: `Hub` and `Hub.SnapshotDownload`. Network access, tokens and caching are not modelled; a token is only checked for presence.
- HTTP requests (the ping, the prediction requests, the worker status) are parameters. The same goes for `os.system`, `subprocess` and `time.sleep`, whose exit statuses and answers the caller supplies.
- The `os.chdir` into the directory of the archiver configuration (llm/utils/marsgen.py:62) is not modelled: the model has no working directory, and every path it uses is already complete.
- Reading `model_config.json` is not modelled: the catalog is a parameter. Its existence check in the download and generate scripts is not modelled either.
- `is_gpu_instance`, the `torch.cuda` prints and the debug `curl` and `print` statements are not modelled, since they only produce output.
- `initialize`, the tokenizer, the model's forward pass and `get_env_value` (float parsing) in the handler are not modelled. `inference` is the parameter-collection step only, and the generated texts are a parameter.
- Handler.LLMHandler.Preprocess: request rows are strings. The decoding of `bytes`/`bytearray` payloads is not modelled.
- Handler.LLMHandler.Postprocess: the manifest's model name and version are plain strings.
- `copy_file`, which llm/utils/tsutils.py:18 imports from llm/utils/shell_utils.py although that file does not define it, is not part of this model; it is modelled as Host.FileSystem.CopyFile.
- `set_model_precision`, `get_repo_file_extensions`, `validate_hf_token` and `validate_commit_info` come from code that is not part of this model. They are parameters: a status, an extension list and hub lookups.
- TsUtils.SetConfigProperties: the contents of `config.properties` are not modelled. Only the appended snapshot line is returned.
- `PathJoin` always joins with `/`. Where the source joins a directory with a path that may be absolute (`generate_ts_start_cmd`), TsUtils.RedirectTarget models Python's rule that an absolute second argument replaces the first.
- `Dirname` keeps everything before the last `/`. For a path directly below the root (`/x.mar`) it gives the empty path, where `os.path.dirname` gives `/`; it also keeps a doubled separator that Python strips. The model never takes the directory of such paths.
- The script directory (`os.path.dirname(__file__)`) is the fixed absolute path `/nai-llm/llm`. Only its being absolute matters to the model.
- `Host.Under` with the empty path as the directory holds only for absolute paths. `os.path.isdir("")` is false, and a `FileSystem` is not expected to list the empty path as a directory.
- Hub.SnapshotDownload adds the downloaded files but not the parent directories of nested files, which `snapshot_download` creates. Directories are unchanged after a download.
- `rglob` returns files in listing order, which is the order of `FileSystem.files`. The real order is unspecified.
- GenerateData.GenerateDataModel.SetValues: the command line defines `--skip_download` while `set_values` reads `no_download`. The model reads a `noDownload` argument and does not model the attribute error.
- Generate.CreateMar and Download.CreateMar follow the source, not an all-or-nothing staging: when the archiver fails or the handler is missing, `generate_mars` exits (llm/utils/marsgen.py:97-103) before `rm_dir` runs, so the staging directory stays in the output store (llm/generate.py:243-259, llm/download.py:367-381). The model states this leftover and does not model a cleanup.
- Download.RunScript returns a `Status`; the script itself returns `None`.
- The download script's own `MarUtils` and `RepoInfo` dataclasses have the same fields as those in `generate_data_model.py`. The model uses the `GenerateData` classes for both.
- `error_msg_print` is modelled as a stop of the server (`TsUtils.StopTorchserve`). Its prints are not modelled.
- `validate_inference_model` is inlined for the one model being served.
- `run_inference_text_input` and `run_inference_json_input` are not modelled separately: file reading and the request are folded into the `respond` parameter.
- Fields of the data models after an exit are not stated.
- All stops share one `stopStatus` parameter.
- `rm_file` in `shell_utils.py` is not modelled, because the core never calls it.
- InferenceUtils.TsHealthCheck: the 15-second sleeps between probes are not modelled, only their count.
- MarsGen.ExtraFilesRoundTrip holds only for paths without commas, since the source's manifest cannot express such paths.
- Host.FileSystem.RmDir: a path that is a file rather than a directory is left alone. `shutil.rmtree` would raise on it.

## Findings

| source | as written | input that shows it | evidently intended | confidence | as-written member | corrected member |
|---|---|---|---|---|---|---|
| llm/utils/generate_data_model.py:84-93 | `set_values` never copies `params.repo_id`, although llm/generate.py:298-304 defines `--repo_id`, so `repo_info.repo_id` stays empty. | A parameter namespace built the way llm/tests/test_download.py:80-90 builds one, for a custom model (not in the catalog), with `no_download=False` and `repo_id="<org>/<repo>"`: `run_script` exits with 1 at llm/generate.py:157-168. (From the command line the run stops earlier, see the `--skip_download` line under Left out.) | `set_values` copies `repo_id`, so the custom download reaches the token and commit checks and the download. | not executed | Generate.CustomDownloadAsWrittenExits | Generate.RunScript |
| llm/download.py:371-376 | `create_mar` calls `generate_mars` with the keyword `dl_model=`, but `generate_mars` (llm/utils/marsgen.py:40-45) names that parameter `gen_model`, so Python raises TypeError. | Any run whose local model files match the repository, e.g. a catalog model at a valid revision right after its download. | Pass the data model as `gen_model`, so that the archive is built and moved into the store. | not executed | Download.CreateMarAsWritten | Download.CreateMar |
