/** llm/utils/system_utils.py: path checks, the empty-folder test, the
    prefix stripper and the recursive file listing, over the Host filesystem. */
module SystemUtils {
  import opened Common
  import opened Host

  /** remove_suffix_if_starts_with: despite its name it strips a PREFIX. */
  function RemoveSuffixIfStartsWith(s: string, suffix: string): (r: string)
    ensures StartsWith(s, suffix) ==> suffix + r == s
    ensures !StartsWith(s, suffix) ==> r == s
    ensures |r| <= |s|
  {
    if StartsWith(s, suffix) then
      assert s == s[..|suffix|] + s[|suffix|..];
      s[|suffix|..]
    else s
  }

  /** check_if_path_exists: exit 1 unless `p` is a regular file (isDir false)
      or a directory (isDir true). */
  function CheckPathExists(fs: FileSystem, p: Path, isDir: bool): (st: Status)
    reads fs
    ensures st == Ok || st == ExitOne
    ensures st == ExitOne <==> (if isDir then p !in fs.dirs else p !in fs.files)
  {
    if (!isDir && !fs.IsFile(p)) || (isDir && !fs.IsDir(p)) then ExitOne else Ok
  }

  /** No file and no directory lies below `dir`. */
  predicate NoEntriesBelow(fs: FileSystem, dir: Path)
    reads fs
  {
    && (forall i :: 0 <= i < |fs.files| ==> !Under(fs.files[i], dir))
    && (forall d :: d in fs.dirs ==> !Under(d, dir))
  }

  /** check_if_folder_empty: os.listdir raises NotADirectoryError on a
      regular file and FileNotFoundError on a path that does not exist. */
  function CheckFolderEmpty(fs: FileSystem, dir: Path): (r: Outcome<bool>)
    reads fs
    ensures dir !in fs.dirs && dir in fs.files ==> r == Failed(Raise("NotADirectoryError"))
    ensures dir !in fs.dirs && dir !in fs.files ==> r == Failed(Raise("FileNotFoundError"))
    ensures dir in fs.dirs ==> r == Done(NoEntriesBelow(fs, dir))
  {
    if fs.IsDir(dir) then Done(NoEntriesBelow(fs, dir))
    else if fs.IsFile(dir) then Failed(Raise("NotADirectoryError"))
    else Failed(Raise("FileNotFoundError"))
  }

  /** The relative paths of the files of `files` that lie below `dir`, in
      listing order (the comprehension over Path.rglob). */
  function RelativeFiles(files: seq<Path>, dir: Path): seq<Path>
  {
    if files == [] then []
    else
      var rest := RelativeFiles(files[1..], dir);
      if Under(files[0], dir) then [RemoveSuffixIfStartsWith(files[0], dir + "/")] + rest else rest
  }

  /** A name is listed exactly when the file `dir/name` is among `files`, and
      the listing is no longer than `files`. */
  lemma {:induction false} RelativeFilesMembers(files: seq<Path>, dir: Path)
    ensures forall x :: x in RelativeFiles(files, dir) <==> dir + "/" + x in files
    ensures |RelativeFiles(files, dir)| <= |files|
  {
    if files != [] {
      RelativeFilesMembers(files[1..], dir);
      assert forall x :: dir + "/" + x in files <==>
        (dir + "/" + x == files[0] || dir + "/" + x in files[1..]) by {
        assert files == [files[0]] + files[1..];
      }
      if Under(files[0], dir) {
        var x0 := RemoveSuffixIfStartsWith(files[0], dir + "/");
        assert dir + "/" + x0 == files[0];
        forall x | dir + "/" + x == files[0] ensures x == x0 {
          assert x == (dir + "/" + x)[|dir| + 1..];
          assert x0 == (dir + "/" + x0)[|dir| + 1..];
        }
      } else {
        forall x ensures dir + "/" + x != files[0] {
          assert (dir + "/" + x)[..|dir| + 1] == dir + "/";
        }
      }
    }
  }

  lemma {:induction false} RelativeFilesAppend(a: seq<Path>, b: seq<Path>, dir: Path)
    ensures RelativeFiles(a + b, dir) == RelativeFiles(a, dir) + RelativeFiles(b, dir)
  {
    if a != [] {
      assert (a + b)[0] == a[0];
      assert (a + b)[1..] == a[1..] + b;
      RelativeFilesAppend(a[1..], b, dir);
    } else {
      assert a + b == b;
    }
  }

  lemma {:induction false} RelativeFilesNone(files: seq<Path>, dir: Path)
    requires forall i :: 0 <= i < |files| ==> !Under(files[i], dir)
    ensures RelativeFiles(files, dir) == []
  {
    if files != [] {
      RelativeFilesNone(files[1..], dir);
    }
  }

  /** Listing names written below a directory gives the names back. */
  lemma {:induction false} RelativeFilesPrefixed(dir: Path, names: seq<Path>)
    requires dir != ""
    ensures RelativeFiles(Prefixed(dir, names), dir) == names
  {
    if names != [] {
      var ps := Prefixed(dir, names);
      assert ps[0] == dir + "/" + names[0];
      assert ps[0][..|dir| + 1] == dir + "/";
      assert ps[0][|dir| + 1..] == names[0];
      assert ps[1..] == Prefixed(dir, names[1..]);
      RelativeFilesPrefixed(dir, names[1..]);
    }
  }

  /** get_all_files_in_directory: every regular file at any depth below
      `dir`, as a path relative to `dir`; directories are not listed. */
  function GetAllFilesInDirectory(fs: FileSystem, dir: Path): seq<Path>
    reads fs
  {
    RelativeFiles(fs.files, dir)
  }

  /** The listing names exactly the regular files below `dir`. */
  lemma ListedFiles(fs: FileSystem, dir: Path)
    ensures forall x :: x in GetAllFilesInDirectory(fs, dir) <==> fs.IsFile(dir + "/" + x)
  {
    RelativeFilesMembers(fs.files, dir);
  }

  /** A listed name never names a directory, as long as no path is both a
      regular file and a directory. */
  lemma ListingExcludesDirectories(fs: FileSystem, dir: Path, x: Path)
    requires forall i :: 0 <= i < |fs.files| ==> fs.files[i] !in fs.dirs
    requires x in GetAllFilesInDirectory(fs, dir)
    ensures dir + "/" + x !in fs.dirs
  {
    ListedFiles(fs, dir);
    var i :| 0 <= i < |fs.files| && fs.files[i] == dir + "/" + x;
  }
}
