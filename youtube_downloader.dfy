/**
 * The YouTube card: a link recogniser, and a two-step job that has the backend
 * fetch the video and then extract its audio, with both results offered for
 * download.
 */
module YouTubeDownloader {
  import opened Common
  import opened ApiTypes
  import opened Text
  import opened ApiService

  // ---------------------------------------------------------------------------
  // Link recogniser:
  // ^https?://(www\.)?youtube\.com/(watch\?v=|shorts/)[a-zA-Z0-9_-]{11}(?:[&?].*)?$

  /** What may follow the id: nothing, or `&`/`?` and then anything on one line. */
  predicate ValidTail(t: string) {
    t == [] || ((t[0] == '&' || t[0] == '?') && forall i :: 1 <= i < |t| ==> !IsLineTerminator(t[i]))
  }

  /** The rest of the link after `watch?v=` or `shorts/`. */
  predicate MatchesAfterKind(s: string) {
    |s| >= 11 && AllSlugChars(s[..11]) && ValidTail(s[11..])
  }

  /** The rest of the link after `youtube.com/`. */
  predicate MatchesAfterHost(s: string) {
    if StartsWith(s, "watch?v=") then MatchesAfterKind(s[8..])
    else StartsWith(s, "shorts/") && MatchesAfterKind(s[7..])
  }

  /** The rest of the link after the scheme. */
  predicate MatchesAfterScheme(s: string) {
    var h := if StartsWith(s, "www.") then s[4..] else s;
    StartsWith(h, "youtube.com/") && MatchesAfterHost(h[12..])
  }

  /** `validateYouTubeUrl`. */
  predicate ValidateYouTubeUrl(url: string) {
    if StartsWith(url, "https://") then MatchesAfterScheme(url[8..])
    else StartsWith(url, "http://") && MatchesAfterScheme(url[7..])
  }

  // The links the pattern describes, built from their parts.

  datatype LinkKind = Watch | Shorts

  datatype YouTubeLink = YouTubeLink(scheme: Scheme, www: bool, kind: LinkKind, videoId: string, tail: string)

  function KindText(kind: LinkKind): string {
    match kind
    case Watch => "watch?v="
    case Shorts => "shorts/"
  }

  function WwwText(www: bool): string {
    if www then "www." else ""
  }

  function Render(u: YouTubeLink): string {
    SchemeText(u.scheme) + (WwwText(u.www) + ("youtube.com/" + (KindText(u.kind) + (u.videoId + u.tail))))
  }

  /** An 11-character id and a tail the pattern allows. */
  predicate WellFormed(u: YouTubeLink) {
    |u.videoId| == 11 && AllSlugChars(u.videoId) && ValidTail(u.tail)
  }

  lemma AfterKindOf(videoId: string, tail: string)
    requires |videoId| == 11
    ensures MatchesAfterKind(videoId + tail) <==> AllSlugChars(videoId) && ValidTail(tail)
  {
    assert (videoId + tail)[..11] == videoId;
    assert (videoId + tail)[11..] == tail;
  }

  lemma AfterHostOf(kind: LinkKind, rest: string)
    ensures MatchesAfterHost(KindText(kind) + rest) <==> MatchesAfterKind(rest)
  {
    var s := KindText(kind) + rest;
    assert s[..|KindText(kind)|] == KindText(kind);
    assert s[|KindText(kind)|..] == rest;
    if kind == Shorts {
      assert s[0] == 's';
    }
  }

  lemma AfterSchemeOf(www: bool, rest: string)
    ensures MatchesAfterScheme(WwwText(www) + ("youtube.com/" + rest)) <==> MatchesAfterHost(rest)
  {
    var h := "youtube.com/" + rest;
    var s := WwwText(www) + h;
    assert h[..12] == "youtube.com/" && h[12..] == rest;
    if www {
      assert s[..4] == "www." && s[4..] == h;
    } else {
      assert s == h && s[0] == 'y';
      if StartsWith(s, "www.") { StartsWithAt(s, "www.", 0); }
    }
  }

  lemma SchemeOf(scheme: Scheme, rest: string)
    ensures ValidateYouTubeUrl(SchemeText(scheme) + rest) <==> MatchesAfterScheme(rest)
  {
    var t := SchemeText(scheme);
    var s := t + rest;
    assert s[..|t|] == t && s[|t|..] == rest;
    if scheme == Http && StartsWith(s, "https://") {
      StartsWithAt(s, "https://", 4);
    }
  }

  /** A rendered link passes the recogniser exactly when its id and tail do. */
  lemma {:induction false} RenderMatches(u: YouTubeLink)
    ensures ValidateYouTubeUrl(Render(u)) <==> MatchesAfterKind(u.videoId + u.tail)
  {
    var rest := u.videoId + u.tail;
    var afterHost := KindText(u.kind) + rest;
    var afterScheme := WwwText(u.www) + ("youtube.com/" + afterHost);
    assert Render(u) == SchemeText(u.scheme) + afterScheme;
    SchemeOf(u.scheme, afterScheme);
    AfterSchemeOf(u.www, afterHost);
    AfterHostOf(u.kind, rest);
  }

  /** Every well-formed link is accepted. */
  lemma RenderAccepted(u: YouTubeLink)
    requires WellFormed(u)
    ensures ValidateYouTubeUrl(Render(u))
  {
    RenderMatches(u);
    AfterKindOf(u.videoId, u.tail);
  }

  lemma AfterKindParts(s: string) returns (videoId: string, tail: string)
    requires MatchesAfterKind(s)
    ensures s == videoId + tail && |videoId| == 11 && AllSlugChars(videoId) && ValidTail(tail)
  {
    videoId, tail := s[..11], s[11..];
  }

  lemma AfterHostParts(s: string) returns (kind: LinkKind, rest: string)
    requires MatchesAfterHost(s)
    ensures s == KindText(kind) + rest && MatchesAfterKind(rest)
  {
    kind := if StartsWith(s, "watch?v=") then Watch else Shorts;
    rest := s[|KindText(kind)|..];
    assert s == s[..|KindText(kind)|] + rest;
  }

  lemma AfterSchemeParts(s: string) returns (www: bool, rest: string)
    requires MatchesAfterScheme(s)
    ensures s == WwwText(www) + ("youtube.com/" + rest) && MatchesAfterHost(rest)
  {
    www := StartsWith(s, "www.");
    var h := s[|WwwText(www)|..];
    assert s == WwwText(www) + h;
    rest := h[12..];
    assert h == h[..12] + rest;
  }

  lemma SchemeParts(url: string) returns (scheme: Scheme, rest: string)
    requires ValidateYouTubeUrl(url)
    ensures url == SchemeText(scheme) + rest && MatchesAfterScheme(rest)
  {
    scheme := if StartsWith(url, "https://") then Https else Http;
    rest := url[|SchemeText(scheme)|..];
    assert url == url[..|SchemeText(scheme)|] + rest;
  }

  /** Every accepted link is a well-formed one, rendered: its parts are read off as the pattern reads them. */
  lemma {:induction false} AcceptedIsWellFormed(url: string) returns (u: YouTubeLink)
    requires ValidateYouTubeUrl(url)
    ensures WellFormed(u) && Render(u) == url
  {
    var scheme, afterScheme := SchemeParts(url);
    var www, afterHost := AfterSchemeParts(afterScheme);
    var kind, afterKind := AfterHostParts(afterHost);
    var videoId, tail := AfterKindParts(afterKind);
    u := YouTubeLink(scheme, www, kind, videoId, tail);
  }

  /** The recogniser accepts exactly the well-formed links. */
  lemma ValidateYouTubeUrlIff(url: string)
    ensures ValidateYouTubeUrl(url) <==> exists u :: WellFormed(u) && Render(u) == url
  {
    if ValidateYouTubeUrl(url) {
      var u := AcceptedIsWellFormed(url);
    }
    if exists u :: WellFormed(u) && Render(u) == url {
      var u :| WellFormed(u) && Render(u) == url;
      RenderAccepted(u);
    }
  }

  /** An id of any other length than 11 (10, 12, ...) is refused. */
  lemma RejectsWrongIdLength(u: YouTubeLink)
    requires AllSlugChars(u.videoId) && |u.videoId| != 11 && ValidTail(u.tail)
    ensures !ValidateYouTubeUrl(Render(u))
  {
    RenderMatches(u);
    if |u.videoId| > 11 {
      IdTooLong(u.videoId, u.tail);
    } else {
      IdTooShort(u.videoId, u.tail);
    }
  }

  lemma IdTooLong(videoId: string, tail: string)
    requires AllSlugChars(videoId) && |videoId| > 11
    ensures !MatchesAfterKind(videoId + tail)
  {
    var d := videoId + tail;
    assert d[11..][0] == videoId[11];
    assert IsSlugChar(videoId[11]);
  }

  lemma IdTooShort(videoId: string, tail: string)
    requires |videoId| < 11 && ValidTail(tail)
    ensures !MatchesAfterKind(videoId + tail)
  {
    var d := videoId + tail;
    if |d| >= 11 {
      assert tail != [];
      assert d[..11][|videoId|] == tail[0];
    }
  }

  /** Without `http://` or `https://` nothing is accepted. */
  lemma RejectsMissingScheme(url: string)
    requires !StartsWith(url, "http://") && !StartsWith(url, "https://")
    ensures !ValidateYouTubeUrl(url)
  {
  }

  /** In particular a bare host, with or without `www.`, is refused. */
  lemma RejectsBareHost(rest: string)
    ensures !ValidateYouTubeUrl("youtube.com/" + rest)
    ensures !ValidateYouTubeUrl("www.youtube.com/" + rest)
  {
    var a := "youtube.com/" + rest;
    var b := "www.youtube.com/" + rest;
    assert a[0] == 'y' && b[0] == 'w';
    if StartsWith(a, "https://") { StartsWithAt(a, "https://", 0); }
    if StartsWith(a, "http://") { StartsWithAt(a, "http://", 0); }
    if StartsWith(b, "https://") { StartsWithAt(b, "https://", 0); }
    if StartsWith(b, "http://") { StartsWithAt(b, "http://", 0); }
    RejectsMissingScheme(a);
    RejectsMissingScheme(b);
  }

  /** The short-link host `youtu.be` is not accepted. */
  lemma RejectsShortHost(scheme: Scheme, rest: string)
    ensures !ValidateYouTubeUrl(SchemeText(scheme) + ("youtu.be/" + rest))
  {
    var after := "youtu.be/" + rest;
    SchemeOf(scheme, after);
    assert after[0] == 'y' && after[5] == '.';
    if StartsWith(after, "www.") { StartsWithAt(after, "www.", 0); }
    if StartsWith(after, "youtube.com/") { StartsWithAt(after, "youtube.com/", 5); }
  }

  // ---------------------------------------------------------------------------
  // File names derived from server paths

  /** The video's name: last segment of its server path, else `youtube_video_<id>.mp4`. */
  function VideoFileName(response: DownloadYouTubeResponse): (name: string)
    ensures name != ""
    ensures LastSegment(response.videoFilePath) != "" ==> name == LastSegment(response.videoFilePath)
    ensures LastSegment(response.videoFilePath) == "" ==> name == "youtube_video_" + response.fileId + ".mp4"
  {
    FileNameFromPath(response.videoFilePath, "youtube_video_" + response.fileId + ".mp4")
  }

  /** The audio's name: last segment of its server path, else `extracted_audio_<uuid>.mp3`. */
  function AudioFileName(response: ExtractAudioResponse): (name: string)
    ensures name != ""
    ensures LastSegment(response.audioFilePath) != "" ==> name == LastSegment(response.audioFilePath)
    ensures LastSegment(response.audioFilePath) == "" ==> name == "extracted_audio_" + response.audioFileUuid + ".mp3"
  {
    FileNameFromPath(response.audioFilePath, "extracted_audio_" + response.audioFileUuid + ".mp3")
  }

  // ---------------------------------------------------------------------------
  // The card's state and handlers

  class Downloader {
    var videoUrl: string
    var isDownloadingVideo: bool
    var isExtractingAudio: bool
    var progress: int
    var downloadedVideoFileId: Option<string>
    var downloadedVideoFilename: Option<string>
    var extractedAudioUuid: Option<string>
    var extractedAudioFilename: Option<string>

    constructor ()
      ensures videoUrl == "" && !isDownloadingVideo && !isExtractingAudio && progress == 0
      ensures downloadedVideoFileId == None && downloadedVideoFilename == None
      ensures extractedAudioUuid == None && extractedAudioFilename == None
    {
      videoUrl := "";
      isDownloadingVideo, isExtractingAudio := false, false;
      progress := 0;
      downloadedVideoFileId, downloadedVideoFilename := None, None;
      extractedAudioUuid, extractedAudioFilename := None, None;
    }

    predicate IsProcessing()
      reads this
    {
      isDownloadingVideo || isExtractingAudio
    }

    /** The URL field's `onChange`. */
    method SetVideoUrl(url: string)
      modifies this`videoUrl
      ensures videoUrl == url
    {
      videoUrl := url;
    }

    /**
     * `handleProcessYouTubeUrl`: the two awaited calls are given by their settled
     * outcomes, `download` for /download-youtube-video/ and `extract` for
     * /extract-audio/. `calls` lists the wrapper calls made, in order;
     * `progressTrace` lists every value given to the progress bar, in order.
     */
    method ProcessYouTubeUrl(download: Result<DownloadYouTubeResponse, TransportError>,
                             extract: Result<ExtractAudioResponse, TransportError>)
      returns (outcome: JobOutcome, calls: seq<ApiCall>, progressTrace: seq<int>)
      modifies this
      // The gate: an empty or invalid URL changes nothing and calls nothing.
      ensures old(videoUrl) == "" ==> outcome == Refused(UrlRequired)
      ensures old(videoUrl) != "" && !ValidateYouTubeUrl(old(videoUrl)) ==> outcome == Refused(InvalidUrl)
      ensures !ValidateYouTubeUrl(old(videoUrl)) ==> calls == [] && progressTrace == [] && unchanged(this)
      // A started job: the flags end false and the bar follows the two-step bands.
      ensures ValidateYouTubeUrl(old(videoUrl)) ==>
                && videoUrl == old(videoUrl) && !isDownloadingVideo && !isExtractingAudio
                && progressTrace == TwoStepProgress(download.Success?, download.Success? && extract.Success?)
                && progress == progressTrace[|progressTrace| - 1]
                && |calls| >= 1 && calls[0] == DownloadYouTubeVideo(DownloadYouTubeRequest(old(videoUrl)))
      // Step 1 fails: nothing of the previous job survives.
      ensures ValidateYouTubeUrl(old(videoUrl)) && download.Failure? ==>
                && outcome == Failed(ErrorMessage(DownloadYouTubeVideoResult(download).error))
                && |calls| == 1
                && downloadedVideoFileId == None && downloadedVideoFilename == None
                && extractedAudioUuid == None && extractedAudioFilename == None
      // Step 1 succeeds: the video is kept and its id is what step 2 extracts from.
      ensures ValidateYouTubeUrl(old(videoUrl)) && download.Success? ==>
                && downloadedVideoFileId == Some(download.value.fileId)
                && downloadedVideoFilename == Some(VideoFileName(download.value))
                && calls == [DownloadYouTubeVideo(DownloadYouTubeRequest(old(videoUrl))),
                             ExtractAudio(ExtractAudioRequest(download.value.fileId))]
      ensures ValidateYouTubeUrl(old(videoUrl)) && download.Success? && extract.Success? ==>
                && outcome == Succeeded
                && extractedAudioUuid == Some(extract.value.audioFileUuid)
                && extractedAudioFilename == Some(AudioFileName(extract.value))
      ensures ValidateYouTubeUrl(old(videoUrl)) && download.Success? && extract.Failure? ==>
                && outcome == Failed(ErrorMessage(ExtractAudioResult(extract).error))
                && extractedAudioUuid == None && extractedAudioFilename == None
    {
      if videoUrl == "" {
        return Refused(UrlRequired), [], [];
      }
      if !ValidateYouTubeUrl(videoUrl) {
        return Refused(InvalidUrl), [], [];
      }
      outcome, calls, progressTrace := RunJob(download, extract);
    }

    /** The body of `handleProcessYouTubeUrl` past its URL checks. */
    method RunJob(download: Result<DownloadYouTubeResponse, TransportError>,
                  extract: Result<ExtractAudioResponse, TransportError>)
      returns (outcome: JobOutcome, calls: seq<ApiCall>, progressTrace: seq<int>)
      modifies this`isDownloadingVideo, this`isExtractingAudio, this`progress,
               this`downloadedVideoFileId, this`downloadedVideoFilename,
               this`extractedAudioUuid, this`extractedAudioFilename
      ensures !isDownloadingVideo && !isExtractingAudio
      ensures progressTrace == TwoStepProgress(download.Success?, download.Success? && extract.Success?)
      ensures progress == progressTrace[|progressTrace| - 1]
      ensures |calls| >= 1 && calls[0] == DownloadYouTubeVideo(DownloadYouTubeRequest(videoUrl))
      ensures download.Failure? ==>
            && outcome == Failed(ErrorMessage(DownloadYouTubeVideoResult(download).error))
            && |calls| == 1
            && downloadedVideoFileId == None && downloadedVideoFilename == None
            && extractedAudioUuid == None && extractedAudioFilename == None
      ensures download.Success? ==>
            && downloadedVideoFileId == Some(download.value.fileId)
            && downloadedVideoFilename == Some(VideoFileName(download.value))
            && calls == [DownloadYouTubeVideo(DownloadYouTubeRequest(videoUrl)),
                         ExtractAudio(ExtractAudioRequest(download.value.fileId))]
      ensures download.Success? && extract.Success? ==>
            && outcome == Succeeded
            && extractedAudioUuid == Some(extract.value.audioFileUuid)
            && extractedAudioFilename == Some(AudioFileName(extract.value))
      ensures download.Success? && extract.Failure? ==>
            && outcome == Failed(ErrorMessage(ExtractAudioResult(extract).error))
            && extractedAudioUuid == None && extractedAudioFilename == None
    {
      calls := [DownloadYouTubeVideo(DownloadYouTubeRequest(videoUrl))];
      var video;
      video, progressTrace := DownloadStep(download);
      if video.Failure? {
        return Failed(ErrorMessage(video.error)), calls, progressTrace;
      }
      var extractTrace;
      outcome, extractTrace := ExtractStep(video.value.fileId, extract);
      calls := calls + [ExtractAudio(ExtractAudioRequest(video.value.fileId))];
      progressTrace := progressTrace + extractTrace;
    }

    /**
     * The reset at the start of `handleProcessYouTubeUrl` and its step 1: the
     * backend downloads the video. On failure the `finally` clears the flags.
     */
    method DownloadStep(download: Result<DownloadYouTubeResponse, TransportError>)
      returns (video: Result<DownloadYouTubeResponse, ThrownError>, progressTrace: seq<int>)
      modifies this`isDownloadingVideo, this`isExtractingAudio, this`progress,
               this`downloadedVideoFileId, this`downloadedVideoFilename,
               this`extractedAudioUuid, this`extractedAudioFilename
      ensures video == DownloadYouTubeVideoResult(download)
      ensures extractedAudioUuid == None && extractedAudioFilename == None
      ensures |progressTrace| >= 2 && progress == progressTrace[|progressTrace| - 1]
      ensures video.Failure? ==>
                && progressTrace == [0, 10] && !isDownloadingVideo && !isExtractingAudio
                && downloadedVideoFileId == None && downloadedVideoFilename == None
      ensures video.Success? ==>
                && progressTrace == [0, 10, 50]
                && downloadedVideoFileId == Some(video.value.fileId)
                && downloadedVideoFilename == Some(VideoFileName(video.value))
    {
      isDownloadingVideo, isExtractingAudio := true, false;
      progress := 0;
      progressTrace := [progress];
      downloadedVideoFileId, downloadedVideoFilename := None, None;
      extractedAudioUuid, extractedAudioFilename := None, None;

      progress := 10;
      progressTrace := progressTrace + [progress];
      video := DownloadYouTubeVideoResult(download);
      if video.Failure? {
        isDownloadingVideo, isExtractingAudio := false, false;
        return;
      }
      downloadedVideoFileId := Some(video.value.fileId);
      downloadedVideoFilename := Some(VideoFileName(video.value));
      progress := 50;
      progressTrace := progressTrace + [progress];
    }

    /**
     * Step 2 of `handleProcessYouTubeUrl` and its `finally`: extraction from the
     * video `fileId`, with the values it gives the progress bar.
     */
    method ExtractStep(fileId: string, extract: Result<ExtractAudioResponse, TransportError>)
      returns (outcome: JobOutcome, progressTrace: seq<int>)
      modifies this`isDownloadingVideo, this`isExtractingAudio, this`progress,
               this`extractedAudioUuid, this`extractedAudioFilename
      ensures !isDownloadingVideo && !isExtractingAudio
      ensures extract.Success? ==>
                && outcome == Succeeded && progressTrace == [60, 100]
                && extractedAudioUuid == Some(extract.value.audioFileUuid)
                && extractedAudioFilename == Some(AudioFileName(extract.value))
      ensures extract.Failure? ==>
                && outcome == Failed(ErrorMessage(ExtractAudioResult(extract).error)) && progressTrace == [60]
                && extractedAudioUuid == old(extractedAudioUuid)
                && extractedAudioFilename == old(extractedAudioFilename)
      ensures progress == progressTrace[|progressTrace| - 1]
    {
      isDownloadingVideo, isExtractingAudio := false, true;
      progress := 60;
      progressTrace := [progress];
      var audio := ExtractAudioResult(extract);
      if audio.Failure? {
        outcome := Failed(ErrorMessage(audio.error));
      } else {
        extractedAudioUuid := Some(audio.value.audioFileUuid);
        extractedAudioFilename := Some(AudioFileName(audio.value));
        progress := 100;
        progressTrace := progressTrace + [progress];
        outcome := Succeeded;
      }
      isDownloadingVideo, isExtractingAudio := false, false;
    }

    /** `handleDownloadAudio`: a link only when both the audio uuid and its name are set. */
    function AudioDownload(base: string): (link: Option<DownloadLink>)
      reads this
      ensures link.Some? <==> Present(extractedAudioUuid) && Present(extractedAudioFilename)
      ensures link.Some? ==> FileUuidOfUrl(base, link.value.href) == extractedAudioUuid
                             && link.value.filename == extractedAudioFilename.value
    {
      if Present(extractedAudioUuid) && Present(extractedAudioFilename) then
        Some(DownloadResultFile(base, extractedAudioUuid.value, extractedAudioFilename))
      else None
    }

    /** `handleDownloadVideoWithAudio`: a link only when both the video id and its name are set. */
    function VideoDownload(base: string): (link: Option<DownloadLink>)
      reads this
      ensures link.Some? <==> Present(downloadedVideoFileId) && Present(downloadedVideoFilename)
      ensures link.Some? ==> FileUuidOfUrl(base, link.value.href) == downloadedVideoFileId
                             && link.value.filename == downloadedVideoFilename.value
    {
      if Present(downloadedVideoFileId) && Present(downloadedVideoFilename) then
        Some(DownloadResultFile(base, downloadedVideoFileId.value, downloadedVideoFilename))
      else None
    }
  }
}
