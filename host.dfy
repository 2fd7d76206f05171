/** The parts of the host the scripts change in place: the filesystem (as
    seen through os.path, os.listdir, os.makedirs and the shutil wrappers of
    the shell utilities) and the process environment (os.environ). */
module Host {
  import opened Common

  /** `p` is `root` itself or lies somewhere below it. */
  predicate Within(p: Path, root: Path)
  {
    p == root || StartsWith(p, root + "/")
  }

  /** `p` lies strictly below `dir`. */
  predicate Under(p: Path, dir: Path)
  {
    StartsWith(p, dir + "/")
  }

  /** The listing without the paths inside `root`, in order. */
  function Outside(files: seq<Path>, root: Path): (r: seq<Path>)
    ensures forall p :: p in r <==> p in files && !Within(p, root)
    ensures |r| <= |files|
  {
    if files == [] then []
    else if Within(files[0], root) then Outside(files[1..], root)
    else [files[0]] + Outside(files[1..], root)
  }

  /** The listing with every occurrence of `p` removed. */
  function Without(files: seq<Path>, p: Path): (r: seq<Path>)
    ensures forall q :: q in r <==> q in files && q != p
  {
    if files == [] then []
    else if files[0] == p then Without(files[1..], p)
    else [files[0]] + Without(files[1..], p)
  }

  /** The listing after writing each of `ps` in turn: a path not yet there
      is added at the end, one already there stays where it is. */
  function AppendNew(files: seq<Path>, ps: seq<Path>): (r: seq<Path>)
    ensures forall q :: q in r <==> q in files || q in ps
    decreases |ps|
  {
    if ps == [] then files
    else AppendNew(if ps[0] in files then files else files + [ps[0]], ps[1..])
  }

  /** Writing paths that are all new and pairwise different appends them. */
  lemma {:induction false} AppendNewFresh(files: seq<Path>, ps: seq<Path>)
    requires Distinct(ps)
    requires forall i :: 0 <= i < |ps| ==> ps[i] !in files
    ensures AppendNew(files, ps) == files + ps
    decreases |ps|
  {
    if ps != [] {
      forall i | 0 <= i < |ps[1..]| ensures ps[1..][i] !in files + [ps[0]] {
        assert ps[1..][i] == ps[i + 1];
      }
      AppendNewFresh(files + [ps[0]], ps[1..]);
      assert files + [ps[0]] + ps[1..] == files + ps;
    }
  }

  /** `p` and every directory above it, as os.makedirs creates them. */
  function Lineage(p: Path): (r: set<Path>)
    ensures p != "" ==> p in r
    ensures forall d :: d in r ==> |d| <= |p|
    decreases |p|
  {
    if p == "" then {} else {p} + Lineage(Dirname(p))
  }

  class FileSystem {
    /** Regular files, in the order a directory walk reports them. */
    var files: seq<Path>
    var dirs: set<Path>

    constructor (files0: seq<Path>, dirs0: set<Path>)
      ensures files == files0 && dirs == dirs0
    {
      files := files0;
      dirs := dirs0;
    }

    /** os.path.isfile */
    predicate IsFile(p: Path)
      reads this
    {
      p in files
    }

    /** os.path.isdir */
    predicate IsDir(p: Path)
      reads this
    {
      p in dirs
    }

    /** os.path.exists */
    predicate Exists(p: Path)
      reads this
    {
      p in files || p in dirs
    }

    /** rm_dir: delete the directory `p` with everything below it, if it exists. */
    method RmDir(p: Path)
      modifies this
      ensures old(p in dirs) ==> files == Outside(old(files), p)
      ensures old(p in dirs) ==> dirs == set d | d in old(dirs) && !Within(d, p)
      ensures old(p !in dirs) ==> files == old(files) && dirs == old(dirs)
    {
      if p in dirs {
        files := Outside(files, p);
        dirs := set d | d in dirs && !Within(d, p);
      }
    }

    /** os.makedirs(p, exist_ok=True) */
    method MakeDirs(p: Path)
      modifies this
      ensures files == old(files)
      ensures dirs == old(dirs) + Lineage(p)
    {
      dirs := dirs + Lineage(p);
    }

    /** Create or overwrite the regular file `p` (its contents are not modelled). */
    method WriteFile(p: Path)
      modifies this
      ensures files == AppendNew(old(files), [p])
      ensures dirs == old(dirs)
    {
      files := AppendNew(files, [p]);
    }

    /** Write each of `ps` in turn. */
    method WriteFiles(ps: seq<Path>)
      modifies this
      ensures files == AppendNew(old(files), ps)
      ensures dirs == old(dirs)
    {
      var i := 0;
      while i < |ps|
        invariant 0 <= i <= |ps|
        invariant AppendNew(files, ps[i..]) == AppendNew(old(files), ps)
        invariant dirs == old(dirs)
      {
        assert ps[i..][1..] == ps[i + 1..];
        WriteFile(ps[i]);
        i := i + 1;
      }
    }

    /** mv_file (shutil.move of a regular file onto a file path). */
    method MoveFile(src: Path, dst: Path)
      modifies this
      ensures files == AppendNew(Without(old(files), src), [dst])
      ensures dirs == old(dirs)
    {
      files := AppendNew(Without(files, src), [dst]);
    }

    /** copy_file (shutil.copy onto a file path): `dst` now exists. */
    method CopyFile(src: Path, dst: Path)
      modifies this
      ensures files == AppendNew(old(files), [dst])
      ensures dirs == old(dirs)
    {
      WriteFile(dst);
    }
  }

  /** os.environ */
  class Environment {
    var vars: map<string, string>

    constructor (vars0: map<string, string>)
      ensures vars == vars0
    {
      vars := vars0;
    }

    /** `os.environ.get(k)` is truthy: set and not empty. */
    predicate IsSetNonEmpty(k: string)
      reads this
    {
      k in vars && vars[k] != ""
    }
  }
}
