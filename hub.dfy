/** The Hugging Face Hub as the scripts see it: for each (repo_id, revision)
    that exists, the list of files in the repository at that revision.
    list_repo_commits succeeds exactly for the pairs listed; snapshot_download
    copies the listed files that no ignore pattern matches. Tokens and network
    failures are not modelled. */
module Hub {
  import opened Common
  import opened Host

  datatype Hub = Hub(listing: map<(string, string), seq<Path>>)

  predicate CommitExists(hub: Hub, repoId: string, revision: string)
  {
    (repoId, revision) in hub.listing
  }

  /** list_repo_files: HfHubHTTPError for an unknown repository or revision. */
  function ListRepoFiles(hub: Hub, repoId: string, revision: string): (r: Outcome<seq<Path>>)
    ensures r.Done? <==> CommitExists(hub, repoId, revision)
  {
    if CommitExists(hub, repoId, revision) then Done(hub.listing[(repoId, revision)])
    else Failed(Raise("HfHubHTTPError"))
  }

  /** fnmatch of a name against an ignore pattern of the form "*<suffix>"
      (the only form the scripts pass); any other pattern matches itself only. */
  predicate GlobMatches(pattern: string, name: string)
  {
    if |pattern| > 0 && pattern[0] == '*' then EndsWith(name, pattern[1..])
    else name == pattern
  }

  predicate Ignored(patterns: seq<string>, name: string)
  {
    exists i :: 0 <= i < |patterns| && GlobMatches(patterns[i], name)
  }

  /** The repository files that snapshot_download fetches, in listing order. */
  function KeptFiles(files: seq<Path>, patterns: seq<string>): (r: seq<Path>)
    ensures forall f :: f in r <==> f in files && !Ignored(patterns, f)
  {
    if files == [] then []
    else if Ignored(patterns, files[0]) then KeptFiles(files[1..], patterns)
    else [files[0]] + KeptFiles(files[1..], patterns)
  }

  /** Filtering a listing without repeats gives a listing without repeats. */
  lemma {:induction false} KeptFilesDistinct(files: seq<Path>, patterns: seq<string>)
    requires Distinct(files)
    ensures Distinct(KeptFiles(files, patterns))
  {
    if files != [] {
      assert files[0] !in files[1..];
      KeptFilesDistinct(files[1..], patterns);
    }
  }

  /** snapshot_download(repo_id, revision, local_dir, ignore_patterns). */
  method SnapshotDownload(fs: FileSystem, hub: Hub, repoId: string, revision: string,
                          localDir: Path, ignorePatterns: seq<string>)
    returns (st: Status)
    modifies fs
    ensures !CommitExists(hub, repoId, revision) ==>
      st == Fail(Raise("HfHubHTTPError")) && fs.files == old(fs.files)
    ensures CommitExists(hub, repoId, revision) ==>
      st == Ok &&
      fs.files == AppendNew(old(fs.files),
        Prefixed(localDir, KeptFiles(hub.listing[(repoId, revision)], ignorePatterns)))
    ensures fs.dirs == old(fs.dirs)
  {
    if !CommitExists(hub, repoId, revision) {
      return Fail(Raise("HfHubHTTPError"));
    }
    var kept := KeptFiles(hub.listing[(repoId, revision)], ignorePatterns);
    fs.WriteFiles(Prefixed(localDir, kept));
    st := Ok;
  }
}
