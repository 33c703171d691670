/**
 * The model manager: the catalogue of downloadable recognition models,
 * the scan of the local models directory, and downloads with a progress
 * table that the progress endpoint reads.
 *
 * The file system is given as the directory listing (`DirEntry`), the
 * Hugging Face download as a function of the repository id and the target
 * directory (`fetch`).
 */
module Models {
  import opened Common

  datatype CatalogueEntry = CatalogueEntry(id: string, name: string, size: string, description: string)

  /** `MLX_ASR_MODELS`. */
  const Catalogue: seq<CatalogueEntry> := [
    CatalogueEntry("mlx-community/Fun-ASR-MLT-Nano-2512-4bit", "FunASR Nano 4bit", "~1.3GB",
                   "多语言语音识别模型 (4-bit 量化)"),
    CatalogueEntry("mlx-community/Fun-ASR-MLT-Nano-2512-8bit", "FunASR Nano 8bit", "~2.5GB",
                   "多语言语音识别模型 (8-bit 量化)"),
    CatalogueEntry("mlx-community/whisper-large-v3-mlx", "Whisper Large V3", "~3GB",
                   "OpenAI Whisper 大模型 MLX 版")
  ]

  /** `model_id.split("/")[-1]`: the text after the last '/'. */
  function LastSegment(id: string): string
    decreases |id|
  {
    if id == "" then ""
    else if id[|id| - 1] == '/' then ""
    else LastSegment(id[..|id| - 1]) + [id[|id| - 1]]
  }

  /**
   * The last segment is a '/'-free suffix of the id, preceded by a '/'
   * unless it is the whole id, and it is the whole id when there is no '/'.
   */
  lemma {:induction false} LastSegmentFacts(id: string)
    ensures '/' !in LastSegment(id)
    ensures |LastSegment(id)| <= |id| && id[|id| - |LastSegment(id)|..] == LastSegment(id)
    ensures |LastSegment(id)| < |id| ==> id[|id| - |LastSegment(id)| - 1] == '/'
    ensures '/' !in id ==> LastSegment(id) == id
    decreases |id|
  {
    if id != "" && id[|id| - 1] != '/' {
      var front := id[..|id| - 1];
      var c := id[|id| - 1];
      LastSegmentFacts(front);
      var r0 := LastSegment(front);
      var r := LastSegment(id);
      assert r == r0 + [c];
      assert id[|id| - |r|..] == front[|front| - |r0|..] + [c];
      if |r| < |id| {
        assert id[|id| - |r| - 1] == front[|front| - |r0| - 1];
      }
      if '/' !in id {
        forall k | 0 <= k < |front| ensures front[k] != '/' {
          assert id[k] in id;
        }
        assert front + [c] == id;
      }
    }
  }

  /** `os.path.join(dir, name)`. */
  function JoinPath(dir: string, name: string): string
  {
    if name != "" && name[0] == '/' then name
    else if dir == "" || dir[|dir| - 1] == '/' then dir + name
    else dir + "/" + name
  }

  lemma NoSlashFront(b: string)
    requires '/' !in b && b != ""
    ensures '/' !in b[..|b| - 1] && b[|b| - 1] != '/'
  {
    var front := b[..|b| - 1];
    assert b[|b| - 1] in b;
    forall k | 0 <= k < |front| ensures front[k] != '/' {
      assert b[k] in b;
    }
  }

  lemma {:induction false} LastSegmentAfterSlash(x: string, b: string)
    requires '/' !in b
    requires x == "" || x[|x| - 1] == '/'
    ensures LastSegment(x + b) == b
    decreases |b|
  {
    if b == "" {
      assert x + b == x;
    } else {
      var s := x + b;
      var front := b[..|b| - 1];
      NoSlashFront(b);
      assert s[..|s| - 1] == x + front;
      LastSegmentAfterSlash(x, front);
      assert front + [b[|b| - 1]] == b;
    }
  }

  /**
   * A model is downloaded into the directory named after the last segment
   * of its id, so the scan of the models directory later finds it under
   * exactly that name.
   */
  lemma DownloadDirIsListedName(dir: string, id: string)
    ensures LastSegment(JoinPath(dir, LastSegment(id))) == LastSegment(id)
  {
    var name := LastSegment(id);
    LastSegmentFacts(id);
    if dir == "" || dir[|dir| - 1] == '/' {
      LastSegmentAfterSlash(dir, name);
    } else {
      LastSegmentAfterSlash(dir + "/", name);
      assert dir + "/" + name == (dir + "/") + name;
    }
  }

  /** One entry of the models directory. */
  datatype DirEntry = DirEntry(name: string, isDir: bool, hasConfig: bool)

  datatype LocalModel = LocalModel(name: string, path: string)

  predicate IsModelDir(e: DirEntry)
  {
    e.isDir && e.hasConfig
  }

  /** The directories holding a config.json, in listing order. */
  function LocalModelsIn(dir: string, entries: seq<DirEntry>): (ms: seq<LocalModel>)
    ensures |ms| <= |entries|
    ensures forall m :: m in ms ==> exists e :: e in entries && IsModelDir(e) && m == LocalModel(e.name, JoinPath(dir, e.name))
    ensures forall e :: e in entries && IsModelDir(e) ==> LocalModel(e.name, JoinPath(dir, e.name)) in ms
  {
    if entries == [] then []
    else
      var front := entries[..|entries| - 1];
      var e := entries[|entries| - 1];
      assert forall x :: x in front ==> x in entries;
      assert forall x :: x in entries ==> x in front || x == e;
      LocalModelsIn(dir, front) + (if IsModelDir(e) then [LocalModel(e.name, JoinPath(dir, e.name))] else [])
  }

  /** `list_available_models`' flag: some model directory carries the id's last segment. */
  predicate IsDownloaded(entries: seq<DirEntry>, id: string)
  {
    exists e :: e in entries && IsModelDir(e) && e.name == LastSegment(id)
  }

  /** A name is among the scanned local models exactly when a model directory carries it. */
  lemma LocalNamesAreModelDirs(dir: string, entries: seq<DirEntry>, name: string)
    ensures name in (set m | m in LocalModelsIn(dir, entries) :: m.name)
        <==> exists e :: e in entries && IsModelDir(e) && e.name == name
  {
    var ms := LocalModelsIn(dir, entries);
    if exists e :: e in entries && IsModelDir(e) && e.name == name {
      var e :| e in entries && IsModelDir(e) && e.name == name;
      assert LocalModel(e.name, JoinPath(dir, e.name)) in ms;
    }
  }

  datatype AvailableModel = AvailableModel(entry: CatalogueEntry, downloaded: bool)

  /** What the progress table holds for one model id. */
  datatype Progress = Downloading(progress: nat) | Completed(progress: nat) | Failed(error: string)

  /** `download_model`'s reply. */
  datatype DownloadReply = Downloaded(path: string) | DownloadFailed(error: string)

  /**
   * `models_dir or os.getenv("ASR_MODELS_DIR", default_dir)`: a non-empty
   * argument wins; otherwise the environment variable whenever it is set,
   * even to the empty string; otherwise the directory beside the package.
   */
  function ChooseModelsDir(arg: Option<string>, env: Option<string>, defaultDir: string): (d: string)
    ensures arg.Some? && arg.value != "" ==> d == arg.value
    ensures (arg.None? || arg.value == "") && env.Some? ==> d == env.value
    ensures (arg.None? || arg.value == "") && env.None? ==> d == defaultDir
  {
    if arg.Some? && arg.value != "" then arg.value
    else if env.Some? then env.value
    else defaultDir
  }

  class ModelManager {
    const modelsDir: string
    /** `_download_progress`. */
    var progress: map<string, Progress>
    /** Every write to the progress table, oldest first, as a concurrent reader could see them. */
    ghost var writes: seq<(string, Progress)>

    /**
     * `__init__`: `modelsDir` is the argument (None or a string),
     * `envModelsDir` what ASR_MODELS_DIR holds if it is set, and
     * `defaultDir` the "models" directory beside the package.
     */
    constructor (modelsDir: Option<string>, envModelsDir: Option<string>, defaultDir: string)
      ensures this.modelsDir == ChooseModelsDir(modelsDir, envModelsDir, defaultDir)
      ensures progress == map[] && writes == []
    {
      this.modelsDir := ChooseModelsDir(modelsDir, envModelsDir, defaultDir);
      progress := map[];
      writes := [];
    }

    /** `list_local_models`: nothing when the directory is missing. */
    method ListLocalModels(dirExists: bool, entries: seq<DirEntry>) returns (models: seq<LocalModel>)
      ensures !dirExists ==> models == []
      ensures dirExists ==> models == LocalModelsIn(modelsDir, entries)
    {
      models := [];
      if !dirExists {
        return;
      }
      var i := 0;
      while i < |entries|
        invariant 0 <= i <= |entries|
        invariant models == LocalModelsIn(modelsDir, entries[..i])
      {
        var item := entries[i];
        assert entries[..i + 1][..i] == entries[..i];
        if item.isDir && item.hasConfig {
          models := models + [LocalModel(item.name, JoinPath(modelsDir, item.name))];
        }
        i := i + 1;
      }
      assert entries[..i] == entries;
    }

    /** `list_available_models`: the catalogue, in order, each flagged downloaded or not. */
    method ListAvailableModels(dirExists: bool, entries: seq<DirEntry>) returns (r: seq<AvailableModel>)
      ensures |r| == |Catalogue|
      ensures forall i :: 0 <= i < |r| ==> r[i].entry == Catalogue[i]
      ensures forall i :: 0 <= i < |r| ==>
        (r[i].downloaded <==> dirExists && IsDownloaded(entries, Catalogue[i].id))
    {
      var local := ListLocalModels(dirExists, entries);
      var names := set m | m in local :: m.name;
      r := [];
      var i := 0;
      while i < |Catalogue|
        invariant 0 <= i <= |Catalogue|
        invariant |r| == i
        invariant forall k :: 0 <= k < i ==> r[k].entry == Catalogue[k]
        invariant forall k :: 0 <= k < i ==>
          (r[k].downloaded <==> dirExists && IsDownloaded(entries, Catalogue[k].id))
      {
        var model := Catalogue[i];
        var modelName := LastSegment(model.id);
        var downloaded := modelName in names;
        LocalNamesAreModelDirs(modelsDir, entries, modelName);
        r := r + [AvailableModel(model, downloaded)];
        i := i + 1;
      }
    }

    /**
     * `download_model`: a missing download library fails before anything is
     * recorded; otherwise the table shows the download in progress, then
     * completed or failed, and the reply agrees with the final entry.
     */
    method DownloadModel(id: string, importError: Option<string>, fetch: (string, string) -> Result<string, string>)
      returns (reply: DownloadReply)
      modifies this
      ensures id in progress && progress == old(progress)[id := progress[id]]
      ensures reply.Downloaded? <==> progress[id].Completed?
      ensures importError.Some? ==>
        reply == DownloadFailed(importError.value) && progress[id] == Failed(importError.value)
        && writes == old(writes) + [(id, Failed(importError.value))]
      ensures importError.None? ==>
        var outcome := fetch(id, JoinPath(modelsDir, LastSegment(id)));
        (outcome.Ok? ==>
           (reply == Downloaded(outcome.value) && progress[id] == Completed(100)
            && writes == old(writes) + [(id, Downloading(0)), (id, Completed(100))]))
        && (outcome.Err? ==>
           (reply == DownloadFailed(outcome.error) && progress[id] == Failed(outcome.error)
            && writes == old(writes) + [(id, Downloading(0)), (id, Failed(outcome.error))]))
    {
      var before := progress;
      if importError.Some? {
        progress := before[id := Failed(importError.value)];
        writes := writes + [(id, Failed(importError.value))];
        return DownloadFailed(importError.value);
      }
      var modelName := LastSegment(id);
      var localDir := JoinPath(modelsDir, modelName);
      progress := before[id := Downloading(0)];
      var outcome := fetch(id, localDir);
      var final := if outcome.Ok? then Completed(100) else Failed(outcome.error);
      progress := before[id := final];
      writes := writes + [(id, Downloading(0)), (id, final)];
      reply := if outcome.Ok? then Downloaded(outcome.value) else DownloadFailed(outcome.error);
    }

    /** `get_download_progress`: None for an id no download has touched. */
    function GetDownloadProgress(id: string): (r: Option<Progress>)
      reads this
      ensures r.None? <==> id !in progress
      ensures r.Some? ==> r.value == progress[id]
    {
      if id in progress then Some(progress[id]) else None
    }
  }
}
