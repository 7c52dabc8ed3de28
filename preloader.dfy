/** The preloader (llm-preloader/main.py): derive a local name from a
    Hugging Face repository id, decide whether the id names a model or a
    dataset from two probes, and say where the download goes. The probes,
    the download and the dataset export are external calls: the probes'
    outcomes are inputs, and the download is the returned plan. */
module Preloader {
  import opened Wrappers
  import opened Text

  /** The repository's name: what follows the last '/' of its id, or the
      whole id when it has none. */
  function RepoName(repoId: string): (name: string)
    ensures '/' !in name
    ensures '/' !in repoId ==> name == repoId
    ensures '/' in repoId ==> exists k :: 0 <= k < |repoId| && repoId[k] == '/' && repoId == repoId[..k + 1] + name
  {
    var i := RFind(repoId, '/');
    if i != -1 then
      assert repoId == repoId[..i + 1] + repoId[i + 1..];
      repoId[i + 1..]
    else repoId
  }

  /** Namespaces do not matter: ids that end in the same '/'-free suffix get
      the same name, whatever owner precedes it. */
  lemma RepoNameIgnoresOwner(owner: string, suffix: string)
    requires '/' !in suffix
    ensures RepoName(owner + "/" + suffix) == suffix
  {
    var id := owner + "/" + suffix;
    assert id[|owner|] == '/';
    assert forall k :: |owner| < k < |id| ==> id[k] == suffix[k - |owner| - 1];
    assert id[|owner| + 1..] == suffix;
  }

  datatype RepoType = ModelRepo | DatasetRepo

  /** The two probes in their order: `repo_type` starts empty, a successful
      model probe sets it to model, then a successful dataset probe
      overwrites it with dataset. */
  method ResolveRepoType(modelProbeOk: bool, datasetProbeOk: bool) returns (repoType: Option<RepoType>)
    ensures repoType == None <==> !modelProbeOk && !datasetProbeOk
    ensures repoType == Some(DatasetRepo) <==> datasetProbeOk
    ensures repoType == Some(ModelRepo) <==> modelProbeOk && !datasetProbeOk
  {
    repoType := None;
    if modelProbeOk {
      repoType := Some(ModelRepo);
    }
    if datasetProbeOk {
      repoType := Some(DatasetRepo);
    }
  }

  const ModelsRoot := "/models/"
  const DataRoot := "/data/"

  /** Where a repository of the given type is stored. */
  function TargetDir(repoType: RepoType, name: string): (dir: string)
    ensures repoType == ModelRepo ==> dir == ModelsRoot + name
    ensures repoType == DatasetRepo ==> dir == DataRoot + name
  {
    match repoType
    case ModelRepo => ModelsRoot + name
    case DatasetRepo => DataRoot + name
  }

  /** Models and datasets never share a directory, and different names never
      share one either. */
  lemma TargetDirsDistinct(t: RepoType, name: string, t': RepoType, name': string)
    requires t != t' || name != name'
    ensures TargetDir(t, name) != TargetDir(t', name')
  {
    var d, d' := TargetDir(t, name), TargetDir(t', name');
    if t != t' {
      assert d[1] != d'[1];
    } else {
      var root := if t == ModelRepo then ModelsRoot else DataRoot;
      assert d[|root|..] == name && d'[|root|..] == name';
    }
  }

  const SplitPrefix := "/data_"
  const SplitSuffix := ".jsonl"

  /** The file one dataset split is written to. */
  function SplitFile(targetDir: string, split: string): (path: string)
    ensures |path| == |targetDir| + |SplitPrefix| + |split| + |SplitSuffix|
    ensures path[..|targetDir|] == targetDir
    ensures path[|targetDir| + |SplitPrefix|..|path| - |SplitSuffix|] == split
  {
    targetDir + SplitPrefix + split + SplitSuffix
  }

  /** What the preloader goes on to do. */
  datatype Plan =
    | Abort                                        // neither probe succeeded
    | DownloadModel(targetDir: string)             // snapshot into the directory
    | SaveDataset(targetDir: string, files: seq<string>)  // one export per split

  /** The whole script after the environment is read: name, type, then the
      model download or one export file per dataset split (`splits` are the
      loaded dataset's split names, in order). */
  method Preload(repoId: string, modelProbeOk: bool, datasetProbeOk: bool, splits: seq<string>)
    returns (plan: Plan)
    ensures plan.Abort? <==> !modelProbeOk && !datasetProbeOk
    ensures plan.DownloadModel? <==> modelProbeOk && !datasetProbeOk
    ensures plan.DownloadModel? ==> plan.targetDir == TargetDir(ModelRepo, RepoName(repoId))
    ensures plan.SaveDataset? <==> datasetProbeOk
    ensures plan.SaveDataset? ==>
      && plan.targetDir == TargetDir(DatasetRepo, RepoName(repoId))
      && |plan.files| == |splits|
      && forall k :: 0 <= k < |splits| ==> plan.files[k] == SplitFile(plan.targetDir, splits[k])
  {
    var name := RepoName(repoId);
    var repoType := ResolveRepoType(modelProbeOk, datasetProbeOk);
    if repoType == Some(ModelRepo) {
      plan := DownloadModel(TargetDir(ModelRepo, name));
    } else if repoType == Some(DatasetRepo) {
      var targetDir := TargetDir(DatasetRepo, name);
      var files: seq<string> := [];
      for k := 0 to |splits|
        invariant |files| == k
        invariant forall j :: 0 <= j < k ==> files[j] == SplitFile(targetDir, splits[j])
      {
        files := files + [SplitFile(targetDir, splits[k])];
      }
      plan := SaveDataset(targetDir, files);
    } else {
      plan := Abort;
    }
  }

  /** Distinct split names give distinct export files, so no split
      overwrites another. */
  lemma DatasetFilesDistinct(targetDir: string, splits: seq<string>, files: seq<string>)
    requires |files| == |splits|
    requires forall k :: 0 <= k < |splits| ==> files[k] == SplitFile(targetDir, splits[k])
    requires forall j, k :: 0 <= j < k < |splits| ==> splits[j] != splits[k]
    ensures forall j, k :: 0 <= j < k < |files| ==> files[j] != files[k]
  {
    forall j, k | 0 <= j < k < |files|
      ensures files[j] != files[k]
    {
      var lo := |targetDir| + |SplitPrefix|;
      assert files[j][lo..|files[j]| - |SplitSuffix|] == splits[j];
      assert files[k][lo..|files[k]| - |SplitSuffix|] == splits[k];
    }
  }
}
