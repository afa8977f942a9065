// VoiceInk-ios/LocalModelManager.swift: the on-device models, where they are
// stored, and the per-model download bookkeeping. The file system is the set
// of paths that exist; the download itself is the completion it reports.
module LocalModels {
  import opened Base
  import opened Paths

  /** `WhisperModel`; `id` stands for the model's `UUID`. */
  datatype WhisperModel = WhisperModel(
    id: nat,
    name: string,
    displayName: string,
    downloadURL: string,
    filename: string,
    size: string,
    description: string)

  const BaseModel: WhisperModel := WhisperModel(
    0, "base", "Whisper Base Model",
    "https://huggingface.co/ggerganov/whisper.cpp/resolve/main/ggml-base.bin",
    "ggml-base.bin", "142 MB",
    "Multilingual model with good balance of speed and accuracy")

  const AvailableModels: seq<WhisperModel> := [BaseModel]

  function ModelsDirectory(documents: string): string {
    JoinPath(documents, "WhisperModels")
  }

  /** Where a model's file lives. */
  function FileURL(model: WhisperModel, documents: string): string {
    JoinPath(ModelsDirectory(documents), model.filename)
  }

  /** The base model's file is named by its `filename`. */
  lemma BaseModelFileName(documents: string)
    ensures LastPathComponent(FileURL(BaseModel, documents)) == "ggml-base.bin"
  {
    LastComponentOfJoin(ModelsDirectory(documents), BaseModel.filename);
  }

  predicate IsDownloaded(model: WhisperModel, documents: string, files: set<string>) {
    FileURL(model, documents) in files
  }

  /** `baseModelPath`: the base model's file when it is on disk. */
  function BaseModelPath(documents: string, files: set<string>): (r: Option<string>)
    ensures r.Some? <==> IsDownloaded(BaseModel, documents, files)
    ensures r.Some? ==> r.value == FileURL(BaseModel, documents) && r.value in files
  {
    if IsDownloaded(BaseModel, documents, files) then Some(FileURL(BaseModel, documents)) else None
  }

  /** `firstAvailableModel`: the first listed model that is on disk. */
  function FirstDownloaded(models: seq<WhisperModel>, documents: string, files: set<string>): (r: Option<WhisperModel>)
    ensures r.None? <==> forall i :: 0 <= i < |models| ==> !IsDownloaded(models[i], documents, files)
    ensures r.Some? ==> r.value in models && IsDownloaded(r.value, documents, files)
  {
    if models == [] then None
    else if IsDownloaded(models[0], documents, files) then Some(models[0])
    else
      var r := FirstDownloaded(models[1..], documents, files);
      assert forall i :: 1 <= i < |models| ==> models[i] == models[1..][i - 1];
      r
  }

  /** `hasAvailableModel`: some listed model is on disk. */
  predicate HasAvailableModel(documents: string, files: set<string>) {
    exists i :: 0 <= i < |AvailableModels| && IsDownloaded(AvailableModels[i], documents, files)
  }

  /** A model is available exactly when there is a first available one, and
      with the single listed model that is the base model's file. */
  lemma AvailabilityAgrees(documents: string, files: set<string>)
    ensures HasAvailableModel(documents, files) <==> FirstDownloaded(AvailableModels, documents, files).Some?
    ensures HasAvailableModel(documents, files) <==> BaseModelPath(documents, files).Some?
  {
    if BaseModelPath(documents, files).Some? {
      assert IsDownloaded(AvailableModels[0], documents, files);
    }
  }

  datatype ModelDownloadError = InvalidURL | DownloadFailed | FileSystemError

  /** What the download task reports when it finishes. */
  datatype Completion = Completion(
    error: Option<string>,          // the transport error's description
    status: Option<int>,            // the HTTP status, absent when not an HTTP reply
    temporaryURL: Option<string>)

  /** The message a completion leaves in `downloadError` before the file is
      moved: transport error, then a non-2xx status, then a missing file. */
  function CompletionFailure(c: Completion): (m: Option<string>)
    ensures c.error.Some? ==> m == Some("Download failed: " + c.error.value)
    ensures c.error.None? && !(c.status.Some? && 200 <= c.status.value <= 299) ==>
      m == Some("Server error during download")
    ensures c.error.None? && c.status.Some? && 200 <= c.status.value <= 299 && c.temporaryURL.None? ==>
      m == Some("No file received")
    ensures m.None? <==> c.error.None? && c.status.Some? && 200 <= c.status.value <= 299 && c.temporaryURL.Some?
  {
    if c.error.Some? then Some("Download failed: " + c.error.value)
    else if !(c.status.Some? && 200 <= c.status.value <= 299) then Some("Server error during download")
    else if c.temporaryURL.None? then Some("No file received")
    else None
  }

  /** A directory listing entry: its name and its size when known. */
  datatype Entry = Entry(name: string, fileSize: Option<nat>)

  /** `pathExtension == "bin"`: a name ending in ".bin" after at least one
      other character. */
  predicate IsBin(name: string) {
    |name| > 4 && name[|name| - 4..] == ".bin"
  }

  /** The number of model files and the sum of their known sizes. */
  function BinCount(entries: seq<Entry>): nat {
    if entries == [] then 0
    else BinCount(entries[..|entries| - 1]) + (if IsBin(entries[|entries| - 1].name) then 1 else 0)
  }

  function BinSize(entries: seq<Entry>): nat {
    if entries == [] then 0
    else
      var e := entries[|entries| - 1];
      BinSize(entries[..|entries| - 1]) + (if IsBin(e.name) && e.fileSize.Some? then e.fileSize.value else 0)
  }

  /** Entries that are not model files change neither figure, and the count
      never exceeds the listing. */
  lemma {:induction false} UsageIgnoresOtherFiles(entries: seq<Entry>, e: Entry)
    requires !IsBin(e.name)
    ensures BinCount(entries + [e]) == BinCount(entries) && BinSize(entries + [e]) == BinSize(entries)
  {
    assert (entries + [e])[..|entries + [e]| - 1] == entries;
  }

  lemma {:induction false} BinCountBounded(entries: seq<Entry>)
    ensures BinCount(entries) <= |entries|
  {
    if entries != [] {
      BinCountBounded(entries[..|entries| - 1]);
    }
  }

  /** The observable state of the manager. `files` stands for the paths that
      exist on disk; `downloadTasks` and `progressObservations` hold the ids
      with a live task or observer. */
  class LocalModelManager {
    var downloadProgress: map<nat, real>
    var isDownloading: map<nat, bool>
    var downloadError: Option<string>
    var downloadTasks: set<nat>
    var progressObservations: set<nat>
    var files: set<string>
    const documents: string

    constructor(documents: string, files: set<string>)
      ensures this.documents == documents && this.files == files
      ensures downloadProgress == map[] && isDownloading == map[] && downloadError.None?
      ensures downloadTasks == {} && progressObservations == {}
    {
      this.documents := documents;
      this.files := files;
      downloadProgress := map[];
      isDownloading := map[];
      downloadError := None;
      downloadTasks := {};
      progressObservations := {};
    }

    /** `isDownloading[model.id, default: false]`. */
    function Downloading(id: nat): (b: bool)
      reads this
      ensures b <==> id in isDownloading && isDownloading[id]
    {
      if id in isDownloading then isDownloading[id] else false
    }

    /** `downloadModel`: nothing happens while the same model is downloading;
        an unparsable URL throws; otherwise the download task and its progress observer are
        registered with progress 0 and the last error cleared. */
    method DownloadModel(model: WhisperModel, urlParses: bool) returns (r: Option<ModelDownloadError>)
      modifies this
      ensures old(Downloading(model.id)) ==> r.None? && unchanged(this)
      ensures !old(Downloading(model.id)) && !urlParses ==> r == Some(InvalidURL) && unchanged(this)
      ensures !old(Downloading(model.id)) && urlParses ==>
        && r.None?
        && isDownloading == old(isDownloading)[model.id := true]
        && downloadProgress == old(downloadProgress)[model.id := 0.0]
        && downloadError.None?
        && downloadTasks == old(downloadTasks) + {model.id}
        && progressObservations == old(progressObservations) + {model.id}
        && files == old(files)
    {
      if Downloading(model.id) {
        return None;
      }
      if !urlParses {
        return Some(InvalidURL);
      }
      isDownloading := isDownloading[model.id := true];
      downloadProgress := downloadProgress[model.id := 0.0];
      downloadError := None;
      downloadTasks := downloadTasks + {model.id};
      progressObservations := progressObservations + {model.id};
      r := None;
    }

    /** The progress observer's callback. */
    method ObserveProgress(id: nat, fractionCompleted: real)
      modifies this
      ensures downloadProgress == old(downloadProgress)[id := fractionCompleted]
      ensures isDownloading == old(isDownloading) && downloadError == old(downloadError)
      ensures downloadTasks == old(downloadTasks) && progressObservations == old(progressObservations)
      ensures files == old(files)
    {
      downloadProgress := downloadProgress[id := fractionCompleted];
    }

    /** `handleDownloadCompletion`. Saving first removes a file already at
        the model's final place (`removed` is whether that succeeded) and
        then moves the download there (`moved`); `saveError` is the text of
        whichever of the two threw. A failed move after a successful removal
        leaves the model with no file at all. Whatever the outcome, the
        deferred cleanup ends the download and drops its entries, so the 1.0
        written on success does not survive. */
    method HandleDownloadCompletion(model: WhisperModel, c: Completion, removed: bool, moved: bool, saveError: string)
      modifies this
      ensures isDownloading == old(isDownloading)[model.id := false]
      ensures model.id !in downloadProgress && downloadProgress == old(downloadProgress) - {model.id}
      ensures downloadTasks == old(downloadTasks) - {model.id}
      ensures progressObservations == old(progressObservations) - {model.id}
      ensures CompletionFailure(c).Some? ==> downloadError == CompletionFailure(c) && files == old(files)
      ensures CompletionFailure(c).None? && FileURL(model, documents) in old(files) && !removed ==>
        downloadError == Some("Failed to save model: " + saveError) && files == old(files)
      ensures CompletionFailure(c).None? && (FileURL(model, documents) !in old(files) || removed) && moved ==>
        downloadError == old(downloadError) && files == old(files) + {FileURL(model, documents)}
      ensures CompletionFailure(c).None? && (FileURL(model, documents) !in old(files) || removed) && !moved ==>
        downloadError == Some("Failed to save model: " + saveError) && files == old(files) - {FileURL(model, documents)}
    {
      var failure := CompletionFailure(c);
      var finalPath := FileURL(model, documents);
      if failure.Some? {
        downloadError := failure;
      } else if finalPath in files && !removed {
        downloadError := Some("Failed to save model: " + saveError);
      } else {
        files := files - {finalPath};
        if moved {
          files := files + {finalPath};
          downloadProgress := downloadProgress[model.id := 1.0];
        } else {
          downloadError := Some("Failed to save model: " + saveError);
        }
      }
      // the deferred cleanup
      isDownloading := isDownloading[model.id := false];
      downloadTasks := downloadTasks - {model.id};
      progressObservations := progressObservations - {model.id};
      downloadProgress := downloadProgress - {model.id};
    }

    /** `cancelDownload`. */
    method CancelDownload(model: WhisperModel)
      modifies this
      ensures isDownloading == old(isDownloading)[model.id := false]
      ensures downloadProgress == old(downloadProgress) - {model.id}
      ensures downloadTasks == old(downloadTasks) - {model.id}
      ensures progressObservations == old(progressObservations) - {model.id}
      ensures downloadError == old(downloadError) && files == old(files)
    {
      downloadTasks := downloadTasks - {model.id};
      progressObservations := progressObservations - {model.id};
      isDownloading := isDownloading[model.id := false];
      downloadProgress := downloadProgress - {model.id};
    }

    /** `deleteModel`: a model not on disk is left alone; otherwise the file
        is removed, or the removal's error (`removed` false) is thrown. */
    method DeleteModel(model: WhisperModel, removed: bool) returns (failed: bool)
      modifies this
      ensures !old(IsDownloaded(model, documents, files)) ==> !failed && files == old(files)
      ensures old(IsDownloaded(model, documents, files)) ==>
        (failed <==> !removed)
        && files == (if removed then old(files) - {FileURL(model, documents)} else old(files))
      ensures downloadProgress == old(downloadProgress) && isDownloading == old(isDownloading)
      ensures downloadError == old(downloadError)
      ensures downloadTasks == old(downloadTasks) && progressObservations == old(progressObservations)
    {
      if !IsDownloaded(model, documents, files) {
        return false;
      }
      if removed {
        files := files - {FileURL(model, documents)};
        failed := false;
      } else {
        failed := true;
      }
    }

    /** `getModelsDiskUsage` over the directory listing (`None` when it cannot
        be read, which gives zero for both). */
    method GetModelsDiskUsage(listing: Option<seq<Entry>>) returns (totalSize: nat, modelCount: nat)
      ensures listing.None? ==> totalSize == 0 && modelCount == 0
      ensures listing.Some? ==> totalSize == BinSize(listing.value) && modelCount == BinCount(listing.value)
    {
      totalSize, modelCount := 0, 0;
      if listing.None? {
        return;
      }
      var contents := listing.value;
      var i := 0;
      while i < |contents|
        invariant 0 <= i <= |contents|
        invariant totalSize == BinSize(contents[..i]) && modelCount == BinCount(contents[..i])
      {
        assert contents[..i + 1][..i] == contents[..i];
        if IsBin(contents[i].name) {
          modelCount := modelCount + 1;
          if contents[i].fileSize.Some? {
            totalSize := totalSize + contents[i].fileSize.value;
          }
        }
        i := i + 1;
      }
      assert contents[..|contents|] == contents;
    }
  }
}
