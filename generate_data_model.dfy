/** llm/utils/generate_data_model.py: the state the generate script carries
    from step to step. MarUtils and RepoInfo are records whose fields the
    script assigns; GenerateDataModel holds one of each as a CLASS attribute,
    so every instance shares the same two objects. */
module GenerateData {
  import opened Common
  import opened Host
  import opened MarsGen

  /** Where the archive is built and from what. */
  class MarUtils {
    var marOutput: Path
    var marName: string
    var modelPath: Path
    var handlerPath: Path

    constructor ()
      ensures marOutput == "" && marName == "" && modelPath == "" && handlerPath == ""
    {
      marOutput, marName, modelPath, handlerPath := "", "", "", "";
    }
  }

  /** The Hugging Face repository coordinates. A token left out on the
      command line is `None`. */
  class RepoInfo {
    var repoId: string
    var repoVersion: string
    var hfToken: Option<string>

    constructor ()
      ensures repoId == "" && repoVersion == "" && hfToken == Some("")
    {
      repoId, repoVersion, hfToken := "", "", Some("");
    }
  }

  /** The parsed command line (argparse.Namespace). A revision left out is
      `None` on the command line; only its truthiness is ever used, so it is
      the empty string here. */
  datatype Params = Params(
    modelName: string,
    noDownload: bool,
    debug: bool,
    hfToken: Option<string>,
    repoVersion: string,
    handlerPath: Path,
    modelPath: Path,
    marOutput: Path,
    repoId: string)

  class GenerateDataModel {
    var modelName: string
    var skipDownload: bool
    var isCustomModel: bool
    var debug: bool
    /** The class-level objects: every instance is built over the same two. */
    const marUtils: MarUtils
    const repoInfo: RepoInfo

    /** __init__ calls set_values; `mu` and `ri` are the class attributes.
        This constructor also copies the repository id given on the command
        line, which the custom download path needs. */
    constructor (params: Params, mu: MarUtils, ri: RepoInfo)
      modifies mu, ri
      ensures marUtils == mu && repoInfo == ri
      ensures modelName == params.modelName && skipDownload == params.noDownload
      ensures debug == params.debug && !isCustomModel
      ensures ri.hfToken == params.hfToken && ri.repoVersion == params.repoVersion
      ensures ri.repoId == params.repoId
      ensures mu.handlerPath == params.handlerPath && mu.modelPath == params.modelPath
      ensures mu.marOutput == params.marOutput && mu.marName == old(mu.marName)
    {
      marUtils, repoInfo := mu, ri;
      modelName, skipDownload, isCustomModel, debug := "", false, false, false;
      new;
      SetValues(params);
    }

    /** __init__ as written: set_values leaves the repository id as it was. */
    constructor AsWritten(params: Params, mu: MarUtils, ri: RepoInfo)
      modifies mu, ri
      ensures marUtils == mu && repoInfo == ri
      ensures modelName == params.modelName && skipDownload == params.noDownload
      ensures debug == params.debug && !isCustomModel
      ensures ri.hfToken == params.hfToken && ri.repoVersion == params.repoVersion
      ensures ri.repoId == old(ri.repoId)
      ensures mu.handlerPath == params.handlerPath && mu.modelPath == params.modelPath
      ensures mu.marOutput == params.marOutput && mu.marName == old(mu.marName)
    {
      marUtils, repoInfo := mu, ri;
      modelName, skipDownload, isCustomModel, debug := "", false, false, false;
      new;
      SetValuesAsWritten(params);
    }

    /** set_values as written: copies the command line into the instance and
        into the shared objects. The repository id, the archive name and the
        custom flag are not touched; the skip flag is read from
        `no_download`. */
    method SetValuesAsWritten(params: Params)
      modifies this, marUtils, repoInfo
      ensures modelName == params.modelName && skipDownload == params.noDownload
      ensures debug == params.debug && isCustomModel == old(isCustomModel)
      ensures repoInfo.hfToken == params.hfToken && repoInfo.repoVersion == params.repoVersion
      ensures repoInfo.repoId == old(repoInfo.repoId)
      ensures marUtils.handlerPath == params.handlerPath && marUtils.modelPath == params.modelPath
      ensures marUtils.marOutput == params.marOutput && marUtils.marName == old(marUtils.marName)
    {
      modelName := params.modelName;
      skipDownload := params.noDownload;
      debug := params.debug;
      repoInfo.hfToken := params.hfToken;
      repoInfo.repoVersion := params.repoVersion;
      marUtils.handlerPath := params.handlerPath;
      marUtils.modelPath := params.modelPath;
      marUtils.marOutput := params.marOutput;
    }

    /** set_values with the repository id copied as well. */
    method SetValues(params: Params)
      modifies this, marUtils, repoInfo
      ensures modelName == params.modelName && skipDownload == params.noDownload
      ensures debug == params.debug && isCustomModel == old(isCustomModel)
      ensures repoInfo.hfToken == params.hfToken && repoInfo.repoVersion == params.repoVersion
      ensures repoInfo.repoId == params.repoId
      ensures marUtils.handlerPath == params.handlerPath && marUtils.modelPath == params.modelPath
      ensures marUtils.marOutput == params.marOutput && marUtils.marName == old(marUtils.marName)
    {
      SetValuesAsWritten(params);
      repoInfo.repoId := params.repoId;
    }

    /** check_if_mar_exists: exit 1 exactly when the archive is already in
        the output store; nothing else happens. */
    method CheckIfMarExists(fs: FileSystem) returns (st: Status)
      ensures st == Ok || st == ExitOne
      ensures st == ExitOne <==> fs.Exists(MarPath(marUtils.marOutput, marUtils.marName))
    {
      if fs.Exists(MarPath(marUtils.marOutput, marUtils.marName)) {
        st := ExitOne;
      } else {
        st := Ok;
      }
    }
  }

  /** Because the nested objects are class attributes, building a second
      model overwrites the repository and archive settings the first one
      sees, while its own instance fields stay as they were. */
  method SecondInstanceOverwritesFirst(p1: Params, p2: Params)
    returns (g1: GenerateDataModel, g2: GenerateDataModel)
    ensures g1.marUtils == g2.marUtils && g1.repoInfo == g2.repoInfo
    ensures g1.modelName == p1.modelName && g2.modelName == p2.modelName
    ensures g1.marUtils.modelPath == p2.modelPath && g1.marUtils.marOutput == p2.marOutput
    ensures g1.marUtils.handlerPath == p2.handlerPath
    ensures g1.repoInfo.repoVersion == p2.repoVersion && g1.repoInfo.hfToken == p2.hfToken
    ensures g1.repoInfo.repoId == p2.repoId
  {
    var mu := new MarUtils();
    var ri := new RepoInfo();
    g1 := new GenerateDataModel(p1, mu, ri);
    g2 := new GenerateDataModel(p2, mu, ri);
  }
}
