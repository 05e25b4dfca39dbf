/**
 * The upload card: a video file picked (or dropped) in the browser is checked
 * against the size limit, uploaded unless the same file was uploaded last
 * time, and its audio extracted on the server.
 */
module VideoUploader {
  import opened Common
  import opened ApiTypes
  import opened Text
  import opened ApiService

  /** The backend's upload limit: 50 MiB. */
  const MaxVideoBytes: nat := 50 * 1024 * 1024

  /** The message thrown when an upload answered without a usable file id. */
  const MissingFileId: string := "Failed to get a file ID for the video."

  /**
   * The reuse-or-upload decision: upload unless a file id is held and the
   * selected file carries the name recorded at the last upload.
   */
  predicate NeedsUpload(fileId: Option<string>, file: LocalFile, lastUploadedName: Option<string>) {
    !Present(fileId) || lastUploadedName != Some(file.name)
  }

  /**
   * The card's own bookkeeping: a held file id always belongs to the selected
   * file, whose name is the one recorded at the last upload.
   */
  predicate Consistent(selectedFile: Option<LocalFile>, fileId: Option<string>, lastUploadedName: Option<string>) {
    Present(fileId) ==> selectedFile.Some? && lastUploadedName == Some(selectedFile.value.name)
  }

  /**
   * While the bookkeeping is consistent the name comparison never decides
   * anything: the card uploads exactly when it holds no file id.
   */
  lemma NameCheckRedundant(selectedFile: Option<LocalFile>, fileId: Option<string>, lastUploadedName: Option<string>)
    requires Consistent(selectedFile, fileId, lastUploadedName) && selectedFile.Some?
    ensures NeedsUpload(fileId, selectedFile.value, lastUploadedName) <==> !Present(fileId)
  {
  }

  /** Another name stored by a different upload (or none at all) always forces a new upload. */
  lemma OtherNameForcesUpload(fileId: Option<string>, file: LocalFile, lastUploadedName: Option<string>)
    requires lastUploadedName != Some(file.name)
    ensures NeedsUpload(fileId, file, lastUploadedName)
  {
  }

  /** `name.split('.')`, the last part popped, the rest joined with '.', then `_audio.<format>`. */
  function AudioDownloadName(fileName: string, audioFormat: string): (name: string)
    ensures name == BeforeLastDot(fileName) + "_audio." + audioFormat
    ensures |name| == |BeforeLastDot(fileName)| + 7 + |audioFormat|
  {
    BeforeLastDot(fileName) + "_audio." + audioFormat
  }

  /** `clip.mp4` downloads as `clip_audio.<format>`; only the last extension goes. */
  lemma AudioNameOfFile(base: string, ext: string, audioFormat: string)
    requires '.' !in ext
    ensures AudioDownloadName(base + "." + ext, audioFormat) == base + "_audio." + audioFormat
  {
    BeforeLastDotOfJoin(base, ext);
  }

  /** A name without any '.' loses all of itself: the download is `_audio.<format>`. */
  lemma AudioNameWithoutDot(fileName: string, audioFormat: string)
    requires '.' !in fileName
    ensures AudioDownloadName(fileName, audioFormat) == "_audio." + audioFormat
  {
  }

  class Uploader {
    var selectedFile: Option<LocalFile>
    var audioFormat: string
    var isUploading: bool
    var isExtracting: bool
    var uploadProgress: int
    var uploadedVideoFileId: Option<string>
    var extractedAudioUuid: Option<string>
    /** `localStorage['lastUploadedFileName_videoUploader']`; `None` when never written. */
    var lastUploadedName: Option<string>

    /** A fresh card; `storedName` is what the browser's storage already holds. */
    constructor (storedName: Option<string>)
      ensures selectedFile == None && audioFormat == "mp3"
      ensures !isUploading && !isExtracting && uploadProgress == 0
      ensures uploadedVideoFileId == None && extractedAudioUuid == None
      ensures lastUploadedName == storedName
      ensures Valid()
    {
      selectedFile, audioFormat := None, "mp3";
      isUploading, isExtracting, uploadProgress := false, false, 0;
      uploadedVideoFileId, extractedAudioUuid := None, None;
      lastUploadedName := storedName;
    }

    predicate Valid()
      reads this
    {
      Consistent(selectedFile, uploadedVideoFileId, lastUploadedName)
    }

    predicate IsProcessing()
      reads this
    {
      isUploading || isExtracting
    }

    /** The format selector's `onValueChange`. */
    method SetAudioFormat(format: string)
      modifies this`audioFormat
      ensures audioFormat == format
    {
      audioFormat := format;
    }

    /**
     * `handleFileChange` and `handleDrop`: the first of `files` is taken, if
     * any. A file over the limit clears the selection and the uploaded id (the
     * extracted audio stays); an accepted file clears the uploaded id and the
     * extracted audio.
     */
    method SelectFile(files: seq<LocalFile>) returns (refusal: Option<Refusal>)
      modifies this`selectedFile, this`uploadedVideoFileId, this`extractedAudioUuid
      ensures files == [] ==> refusal == None && unchanged(this)
      ensures files != [] && files[0].size > MaxVideoBytes ==>
                && refusal == Some(FileTooLarge)
                && selectedFile == None && uploadedVideoFileId == None
                && extractedAudioUuid == old(extractedAudioUuid)
      ensures files != [] && files[0].size <= MaxVideoBytes ==>
                && refusal == None
                && selectedFile == Some(files[0]) && uploadedVideoFileId == None && extractedAudioUuid == None
      ensures files != [] ==> Valid()
      ensures old(Valid()) ==> Valid()
    {
      if files == [] {
        return None;
      }
      var file := files[0];
      if file.size > MaxVideoBytes {
        selectedFile, uploadedVideoFileId := None, None;
        return Some(FileTooLarge);
      }
      selectedFile := Some(file);
      uploadedVideoFileId, extractedAudioUuid := None, None;
      refusal := None;
    }

    /**
     * `handleExtractAudioProcess`. The awaited calls are given by their settled
     * outcomes (`upload` for /uploadfile/, `extract` for /extract-audio/), and
     * `uploadPercents` by the values the upload's progress callback reports.
     * `calls` lists the wrapper calls made, in order; `progressTrace` every value
     * given to the progress bar, in order.
     */
    method ExtractAudioProcess(upload: Result<UploadFileResponse, TransportError>, uploadPercents: seq<int>,
                               extract: Result<ExtractAudioResponse, TransportError>)
      returns (outcome: JobOutcome, calls: seq<ApiCall>, progressTrace: seq<int>)
      modifies this`isUploading, this`isExtracting, this`uploadProgress,
               this`uploadedVideoFileId, this`extractedAudioUuid, this`lastUploadedName
      // Nothing selected: refused, no call, no change.
      ensures old(selectedFile).None? ==>
                outcome == Refused(NoFileSelected) && calls == [] && progressTrace == [] && unchanged(this)
      // Every started run: both flags end false, the bar starts at 0, and the card stays consistent.
      ensures old(selectedFile).Some? ==>
                && !isUploading && !isExtracting
                && |progressTrace| >= 1 && progressTrace[0] == 0
                && uploadProgress == progressTrace[|progressTrace| - 1]
      ensures old(Valid()) ==> Valid()
      // The upload happens exactly when it is needed, and it comes first.
      ensures old(selectedFile).Some? ==>
                (NeedsUpload(old(uploadedVideoFileId), old(selectedFile).value, old(lastUploadedName))
                 <==> (calls != [] && calls[0] == UploadFile(old(selectedFile).value)))
      // A failed upload: its message, the id dropped, no extraction, the stored name kept.
      ensures old(selectedFile).Some? && NeedsUpload(old(uploadedVideoFileId), old(selectedFile).value, old(lastUploadedName))
              && upload.Failure? ==>
                && outcome == Failed(ErrorMessage(UploadFileResult(upload).error))
                && calls == [UploadFile(old(selectedFile).value)]
                && progressTrace == [0] + uploadPercents
                && uploadedVideoFileId == None && extractedAudioUuid == None
                && lastUploadedName == old(lastUploadedName)
      // A successful upload records the file's name and takes the returned id.
      ensures old(selectedFile).Some? && NeedsUpload(old(uploadedVideoFileId), old(selectedFile).value, old(lastUploadedName))
              && upload.Success? ==>
                && lastUploadedName == Some(old(selectedFile).value.name)
                && progressTrace == [0] + uploadPercents + [100]
                && ExtractionRan(UploadedId(upload), [UploadFile(old(selectedFile).value)], extract, outcome, calls)
      // A reused upload keeps the id and the stored name.
      ensures old(selectedFile).Some? && !NeedsUpload(old(uploadedVideoFileId), old(selectedFile).value, old(lastUploadedName)) ==>
                && lastUploadedName == old(lastUploadedName)
                && progressTrace == [0, 100]
                && ExtractionRan(old(uploadedVideoFileId), [], extract, outcome, calls)
    {
      if selectedFile.None? {
        return Refused(NoFileSelected), [], [];
      }
      var file := selectedFile.value;
      isUploading, isExtracting := true, false;
      uploadProgress := 0;
      progressTrace := [uploadProgress];
      extractedAudioUuid := None;
      var current := uploadedVideoFileId;
      calls := [];

      if NeedsUpload(current, file, lastUploadedName) {
        var uploadTrace;
        current, uploadTrace := UploadStep(file, upload, uploadPercents);
        calls := [UploadFile(file)];
        progressTrace := progressTrace + uploadTrace;
        if upload.Failure? {
          outcome := Failed(ErrorMessage(UploadFileResult(upload).error));
          uploadedVideoFileId := None;
          isUploading, isExtracting := false, false;
          return;
        }
      } else {
        uploadProgress := 100;
        progressTrace := progressTrace + [uploadProgress];
      }

      var extractCalls;
      outcome, extractCalls := ExtractStep(current, extract);
      calls := calls + extractCalls;
    }

    /**
     * Step 1 of `handleExtractAudioProcess` when an upload is needed: the bar
     * follows the upload's progress callback, and a successful upload stores its
     * id and the file's name and sets the bar to 100.
     */
    method UploadStep(file: LocalFile, upload: Result<UploadFileResponse, TransportError>, uploadPercents: seq<int>)
      returns (fileId: Option<string>, progressTrace: seq<int>)
      modifies this`uploadProgress, this`uploadedVideoFileId, this`lastUploadedName
      ensures upload.Failure? ==>
                && progressTrace == uploadPercents
                && uploadedVideoFileId == old(uploadedVideoFileId) && lastUploadedName == old(lastUploadedName)
                && (uploadPercents == [] ==> uploadProgress == old(uploadProgress))
                && (uploadPercents != [] ==> uploadProgress == uploadPercents[|uploadPercents| - 1])
      ensures upload.Success? ==>
                && fileId == UploadedId(upload)
                && progressTrace == uploadPercents + [100] && uploadProgress == 100
                && uploadedVideoFileId == fileId && lastUploadedName == Some(file.name)
    {
      progressTrace := uploadPercents;
      if uploadPercents != [] {
        uploadProgress := uploadPercents[|uploadPercents| - 1];
      }
      var response := UploadFileResult(upload);
      if response.Failure? {
        return None, progressTrace;
      }
      fileId := Some(response.value.fileId);
      uploadedVideoFileId := fileId;
      lastUploadedName := Some(file.name);
      uploadProgress := 100;
      progressTrace := progressTrace + [uploadProgress];
    }

    /**
     * Step 2 of `handleExtractAudioProcess` and its `catch`/`finally`: without a
     * usable id the run fails with `MissingFileId`; otherwise the audio is
     * extracted from that id. Any failure drops the uploaded id.
     */
    method ExtractStep(fileId: Option<string>, extract: Result<ExtractAudioResponse, TransportError>)
      returns (outcome: JobOutcome, calls: seq<ApiCall>)
      modifies this`isUploading, this`isExtracting, this`uploadedVideoFileId, this`extractedAudioUuid
      ensures !isUploading && !isExtracting
      ensures !Present(fileId) ==>
                && outcome == Failed(MissingFileId) && calls == []
                && uploadedVideoFileId == None && extractedAudioUuid == old(extractedAudioUuid)
      ensures Present(fileId) ==> calls == [ExtractAudio(ExtractAudioRequest(fileId.value))]
      ensures Present(fileId) && extract.Success? ==>
                && outcome == Succeeded
                && uploadedVideoFileId == old(uploadedVideoFileId)
                && extractedAudioUuid == Some(extract.value.audioFileUuid)
      ensures Present(fileId) && extract.Failure? ==>
                && outcome == Failed(ErrorMessage(ExtractAudioResult(extract).error))
                && uploadedVideoFileId == None && extractedAudioUuid == old(extractedAudioUuid)
    {
      if !Present(fileId) {
        outcome, calls := Failed(MissingFileId), [];
        uploadedVideoFileId := None;
        isUploading, isExtracting := false, false;
        return;
      }
      isUploading, isExtracting := false, true;
      calls := [ExtractAudio(ExtractAudioRequest(fileId.value))];
      var audio := ExtractAudioResult(extract);
      if audio.Failure? {
        outcome := Failed(ErrorMessage(audio.error));
        uploadedVideoFileId := None;
      } else {
        extractedAudioUuid := Some(audio.value.audioFileUuid);
        outcome := Succeeded;
      }
      isUploading, isExtracting := false, false;
    }

    /**
     * What the extraction half of a run leaves behind, after `before` calls,
     * when it starts from `fileId`: a missing id fails with `MissingFileId`; a
     * present one is what /extract-audio/ is asked for, and any failure drops
     * the uploaded id.
     */
    ghost predicate ExtractionRan(fileId: Option<string>, before: seq<ApiCall>,
                                  extract: Result<ExtractAudioResponse, TransportError>,
                                  outcome: JobOutcome, calls: seq<ApiCall>)
      reads this
    {
      && (!Present(fileId) ==>
            outcome == Failed(MissingFileId) && calls == before && uploadedVideoFileId == None && extractedAudioUuid == None)
      && (Present(fileId) ==> calls == before + [ExtractAudio(ExtractAudioRequest(fileId.value))])
      && (Present(fileId) && extract.Success? ==>
            outcome == Succeeded && uploadedVideoFileId == fileId && extractedAudioUuid == Some(extract.value.audioFileUuid))
      && (Present(fileId) && extract.Failure? ==>
            outcome == Failed(ErrorMessage(ExtractAudioResult(extract).error))
            && uploadedVideoFileId == None && extractedAudioUuid == None)
    }

    /**
     * `handleDownloadExtractedAudio`: a link only when an audio uuid and a
     * selected file are both held, named after the file.
     */
    function DownloadExtractedAudio(base: string): (link: Option<DownloadLink>)
      reads this
      ensures link.Some? <==> Present(extractedAudioUuid) && selectedFile.Some?
      ensures link.Some? ==>
                && FileUuidOfUrl(base, link.value.href) == extractedAudioUuid
                && link.value.filename == AudioDownloadName(selectedFile.value.name, audioFormat)
    {
      if Present(extractedAudioUuid) && selectedFile.Some? then
        Some(DownloadResultFile(base, extractedAudioUuid.value, Some(AudioDownloadName(selectedFile.value.name, audioFormat))))
      else None
    }
  }

  /** The id a successful upload answers with. */
  function UploadedId(upload: Result<UploadFileResponse, TransportError>): (fileId: Option<string>)
    ensures upload.Success? ==> fileId == Some(upload.value.fileId)
    ensures upload.Failure? ==> fileId == None
  {
    if upload.Success? then Some(upload.value.fileId) else None
  }
}
