/** llm/utils/marsgen.py: the archive naming policy, the torch-model-archiver
    command line, and generate_mars, which runs the archiver into a store. */
module MarsGen {
  import opened Common
  import opened Host
  import opened SystemUtils

  /** Number of characters of repo_version kept in an archive name. */
  const MarNameLen: nat := 7

  /** get_mar_name: a custom model is named by its bare model name; a catalog
      model by "<model_name>_<first 7 characters of repo_version>". */
  function GetMarName(modelName: string, repoVersion: string, isCustomModel: bool): (r: string)
    ensures isCustomModel ==> r == modelName
    ensures !isCustomModel ==>
      && StartsWith(r, modelName + "_")
      && |r| == |modelName| + 1 + Min(MarNameLen, |repoVersion|)
      && StartsWith(repoVersion, r[|modelName| + 1..])
  {
    if isCustomModel then modelName
    else
      var r := modelName + "_" + Take(repoVersion, MarNameLen);
      assert r[..|modelName| + 1] == modelName + "_";
      assert r[|modelName| + 1..] == Take(repoVersion, MarNameLen);
      r
  }

  /** Two revisions of one catalog model share an archive name exactly when
      their first seven characters agree: collisions are accepted. */
  lemma MarNameCollision(modelName: string, v1: string, v2: string)
    ensures GetMarName(modelName, v1, false) == GetMarName(modelName, v2, false)
        <==> Take(v1, MarNameLen) == Take(v2, MarNameLen)
  {
    var p := modelName + "_";
    var r1, r2 := GetMarName(modelName, v1, false), GetMarName(modelName, v2, false);
    assert r1[|p|..] == Take(v1, MarNameLen);
    assert r2[|p|..] == Take(v2, MarNameLen);
  }

  /** The custom flag changes the shape of the name: never the same name. */
  lemma MarNameCustomDiffers(modelName: string, repoVersion: string)
    ensures GetMarName(modelName, repoVersion, true) != GetMarName(modelName, repoVersion, false)
  {
  }

  /** Where the archive named `marName` sits in the output store `marOutput`. */
  function MarPath(marOutput: Path, marName: string): Path
  {
    PathJoin(marOutput, marName + ".mar")
  }

  /** The arguments dictionary handed to the command builder. */
  datatype ArchiverArgs = ArchiverArgs(
    modelName: string, version: string, handler: string, extraFiles: string, exportPath: string)

  /** One option of the archiver command line. */
  datatype ArchiverOption =
    | ModelNameOpt(value: string)
    | VersionOpt(value: string)
    | HandlerOpt(value: string)
    | ExtraFilesOpt(value: string)
    | ExportPathOpt(value: string)
  {
    /** Position of the option's flag in the builder. */
    function Rank(): nat
    {
      match this
      case ModelNameOpt(_) => 0
      case VersionOpt(_) => 1
      case HandlerOpt(_) => 2
      case ExtraFilesOpt(_) => 3
      case ExportPathOpt(_) => 4
    }

    function Render(): string
    {
      match this
      case ModelNameOpt(v) => " --model-name " + v
      case VersionOpt(v) => " --version " + v
      case HandlerOpt(v) => " --handler " + v
      case ExtraFilesOpt(v) => " --extra-files \"" + v + "\""
      case ExportPathOpt(v) => " --export-path " + v
    }
  }

  /** The argument the builder reads for the flag of the given rank. */
  function ArgOfRank(a: ArchiverArgs, k: nat): string
  {
    if k == 0 then a.modelName
    else if k == 1 then a.version
    else if k == 2 then a.handler
    else if k == 3 then a.extraFiles
    else a.exportPath
  }

  function OptionOfRank(k: nat, v: string): (o: ArchiverOption)
    requires k < 5
    ensures o.Rank() == k && o.value == v
  {
    if k == 0 then ModelNameOpt(v)
    else if k == 1 then VersionOpt(v)
    else if k == 2 then HandlerOpt(v)
    else if k == 3 then ExtraFilesOpt(v)
    else ExportPathOpt(v)
  }

  /** The option of rank `k`, emitted only when its argument is non-empty. */
  function OptionIf(k: nat, v: string): seq<ArchiverOption>
    requires k < 5
  {
    if v != "" then [OptionOfRank(k, v)] else []
  }

  /** One conditional append of model_archiver_command_builder: the flag of
      rank `k` with its argument, when that argument is non-empty. */
  function AddOption(c: string, a: ArchiverArgs, k: nat): string
    requires k < 5
  {
    if ArgOfRank(a, k) != "" then c + OptionOfRank(k, ArgOfRank(a, k)).Render() else c
  }

  /** model_archiver_command_builder: the archiver, the five conditional
      appends in the builder's order, then --force. */
  function ModelArchiverCommand(a: ArchiverArgs): string
  {
    var c := "torch-model-archiver";
    var c := AddOption(c, a, 0);
    var c := AddOption(c, a, 1);
    var c := AddOption(c, a, 2);
    var c := AddOption(c, a, 3);
    var c := AddOption(c, a, 4);
    c + " --force"
  }

  /** The options of rank `k` and above that the builder emits, in order. */
  function OptionsFrom(a: ArchiverArgs, k: nat): seq<ArchiverOption>
    requires k <= 5
    decreases 5 - k
  {
    if k == 5 then [] else OptionIf(k, ArgOfRank(a, k)) + OptionsFrom(a, k + 1)
  }

  /** From rank `k` on, every option emitted has a rank of at least `k` and
      carries the argument of its rank, which is not empty. */
  lemma {:induction false} OptionsFromCarry(a: ArchiverArgs, k: nat)
    requires k <= 5
    ensures forall o :: o in OptionsFrom(a, k) ==>
      k <= o.Rank() < 5 && o.value == ArgOfRank(a, o.Rank()) && o.value != ""
    decreases 5 - k
  {
    if k < 5 {
      OptionsFromCarry(a, k + 1);
    }
  }

  /** From rank `k` on, the options come in increasing rank. */
  lemma {:induction false} OptionsFromOrdered(a: ArchiverArgs, k: nat)
    requires k <= 5
    ensures var opts := OptionsFrom(a, k);
      forall i, j :: 0 <= i < j < |opts| ==> opts[i].Rank() < opts[j].Rank()
    decreases 5 - k
  {
    if k < 5 {
      OptionsFromOrdered(a, k + 1);
      OptionsFromCarry(a, k + 1);
      var head, rest := OptionIf(k, ArgOfRank(a, k)), OptionsFrom(a, k + 1);
      var opts := head + rest;
      assert OptionsFrom(a, k) == opts;
      forall i, j | 0 <= i < j < |opts|
        ensures opts[i].Rank() < opts[j].Rank()
      {
        if i < |head| {
          assert opts[j] in rest;
        } else {
          assert opts[i] == rest[i - |head|] && opts[j] == rest[j - |head|];
        }
      }
    }
  }

  /** From rank `k` on, the option of each rank is emitted exactly when its
      argument is non-empty. */
  lemma {:induction false} OptionsFromPresence(a: ArchiverArgs, k: nat)
    requires k <= 5
    ensures forall r :: k <= r < 5 ==>
      (OptionOfRank(r, ArgOfRank(a, r)) in OptionsFrom(a, k) <==> ArgOfRank(a, r) != "")
    decreases 5 - k
  {
    if k < 5 {
      OptionsFromPresence(a, k + 1);
      OptionsFromCarry(a, k + 1);
      var head, rest := OptionIf(k, ArgOfRank(a, k)), OptionsFrom(a, k + 1);
      assert OptionsFrom(a, k) == head + rest;
      forall r | k <= r < 5
        ensures OptionOfRank(r, ArgOfRank(a, r)) in head + rest <==> ArgOfRank(a, r) != ""
      {
        if r > k {
          assert OptionOfRank(r, ArgOfRank(a, r)) !in head;
        } else {
          assert OptionOfRank(r, ArgOfRank(a, r)) !in rest;
        }
      }
    }
  }

  /** The options the builder emits; OptionsFromCarry, OptionsFromOrdered and
      OptionsFromPresence at rank 0 describe them. */
  function ArchiverOptions(a: ArchiverArgs): seq<ArchiverOption>
  {
    OptionsFrom(a, 0)
  }

  function RenderAll(opts: seq<ArchiverOption>): string
  {
    if opts == [] then "" else opts[0].Render() + RenderAll(opts[1..])
  }

  lemma {:induction false} RenderAllAppend(xs: seq<ArchiverOption>, ys: seq<ArchiverOption>)
    ensures RenderAll(xs + ys) == RenderAll(xs) + RenderAll(ys)
  {
    if xs == [] {
      assert xs + ys == ys;
    } else {
      assert (xs + ys)[0] == xs[0];
      assert (xs + ys)[1..] == xs[1..] + ys;
      RenderAllAppend(xs[1..], ys);
    }
  }

  lemma RenderOne(o: ArchiverOption)
    ensures RenderAll([o]) == o.Render()
  {
    assert [o][1..] == [];
  }

  /** Each conditional append renders the option of its rank, if emitted. */
  lemma {:induction false} RenderStep(c: string, a: ArchiverArgs, k: nat)
    requires k < 5
    ensures c + RenderAll(OptionsFrom(a, k)) == AddOption(c, a, k) + RenderAll(OptionsFrom(a, k + 1))
  {
    var v := ArgOfRank(a, k);
    var rest := OptionsFrom(a, k + 1);
    if v != "" {
      var o := OptionOfRank(k, v);
      assert OptionsFrom(a, k) == [o] + rest;
      RenderAllAppend([o], rest);
      RenderOne(o);
      assert c + (o.Render() + RenderAll(rest)) == c + o.Render() + RenderAll(rest);
    } else {
      assert OptionsFrom(a, k) == rest;
    }
  }

  /** The command is "torch-model-archiver", then the rendered options in
      order, then " --force". */
  lemma CommandRendersOptions(a: ArchiverArgs)
    ensures ModelArchiverCommand(a) ==
      "torch-model-archiver" + RenderAll(ArchiverOptions(a)) + " --force"
  {
    var c0 := "torch-model-archiver";
    var c1 := AddOption(c0, a, 0);
    var c2 := AddOption(c1, a, 1);
    var c3 := AddOption(c2, a, 2);
    var c4 := AddOption(c3, a, 3);
    var c5 := AddOption(c4, a, 4);
    RenderStep(c0, a, 0);
    RenderStep(c1, a, 1);
    RenderStep(c2, a, 2);
    RenderStep(c3, a, 3);
    RenderStep(c4, a, 4);
    assert c5 + RenderAll(OptionsFrom(a, 5)) == c5;
    assert ModelArchiverCommand(a) == c5 + " --force";
  }

  /** The command always starts with the archiver and ends with --force. */
  lemma CommandFrame(a: ArchiverArgs)
    ensures StartsWith(ModelArchiverCommand(a), "torch-model-archiver")
    ensures EndsWith(ModelArchiverCommand(a), " --force")
  {
    CommandRendersOptions(a);
    var head, mid := "torch-model-archiver", RenderAll(ArchiverOptions(a));
    ConcatAffixes(head, mid + " --force");
    ConcatAffixes(head + mid, " --force");
  }

  /** The extra-files manifest: the files of the model directory, each joined
      onto model_path, comma-joined in listing order. */
  function ExtraFiles(modelPath: Path, relFiles: seq<Path>): string
  {
    Join(",", Prefixed(modelPath, relFiles))
  }

  /** The manifest lists each file once, in order: splitting it at the commas
      recovers the prefixed paths, as long as no path holds a comma. */
  lemma ExtraFilesRoundTrip(modelPath: Path, relFiles: seq<Path>)
    requires relFiles != []
    requires ',' !in modelPath && '/' != ','
    requires forall i :: 0 <= i < |relFiles| ==> ',' !in relFiles[i]
    ensures Split(ExtraFiles(modelPath, relFiles), ',') == Prefixed(modelPath, relFiles)
  {
    var ps := Prefixed(modelPath, relFiles);
    forall i | 0 <= i < |ps| ensures ',' !in ps[i] {
      assert ps[i] == PathJoin(modelPath, relFiles[i]);
    }
    SplitJoin(ps, ',');
  }

  /** The arguments generate_mars assembles: the bare model name (not the
      archive name), the revision, the handler, the manifest of every file
      below model_path, and the staging directory as export path. */
  function MarsArgs(fs: FileSystem, modelName: string, repoVersion: string, handlerPath: Path,
                    modelPath: Path, modelStoreDir: Path): (a: ArchiverArgs)
    reads fs
    ensures a.modelName == modelName && a.version == repoVersion
    ensures a.handler == handlerPath && a.exportPath == modelStoreDir
    ensures a.extraFiles == ExtraFiles(modelPath, GetAllFilesInDirectory(fs, modelPath))
  {
    ArchiverArgs(modelName, repoVersion, handlerPath,
                 ExtraFiles(modelPath, GetAllFilesInDirectory(fs, modelPath)), modelStoreDir)
  }

  /** generate_mars. The archiver run is abstract: `archiverSucceeds` is
      whether it exits with status 0, and on success it leaves
      "<model_name>.mar" in the export directory. */
  method GenerateMars(fs: FileSystem, modelName: string, repoVersion: string, handlerPath: Path,
                      modelPath: Path, modelStoreDir: Path, archiverSucceeds: bool)
    returns (cmd: string, st: Status)
    modifies fs
    ensures fs.dirs == old(fs.dirs)
    ensures !old(fs.IsFile(handlerPath)) ==> st == ExitOne && fs.files == old(fs.files)
    ensures old(fs.IsFile(handlerPath)) && !old(fs.IsDir(modelStoreDir)) ==>
      st == ExitOne && fs.files == old(fs.files)
    ensures old(fs.IsFile(handlerPath)) && old(fs.IsDir(modelStoreDir)) ==>
      && cmd == ModelArchiverCommand(old(MarsArgs(fs, modelName, repoVersion, handlerPath, modelPath, modelStoreDir)))
      && (archiverSucceeds ==>
            st == Ok && fs.files == AppendNew(old(fs.files), [PathJoin(modelStoreDir, modelName + ".mar")]))
      && (!archiverSucceeds ==> st == ExitOne && fs.files == old(fs.files))
  {
    cmd := "";
    st := CheckPathExists(fs, handlerPath, false);
    if st != Ok {
      return;
    }
    var extraFiles := ExtraFiles(modelPath, GetAllFilesInDirectory(fs, modelPath));
    st := CheckPathExists(fs, modelStoreDir, true);
    if st != Ok {
      return;
    }
    var args := ArchiverArgs(modelName, repoVersion, handlerPath, extraFiles, modelStoreDir);
    cmd := ModelArchiverCommand(args);
    if archiverSucceeds {
      fs.WriteFile(PathJoin(modelStoreDir, modelName + ".mar"));
    } else {
      st := ExitOne;
    }
  }
}
