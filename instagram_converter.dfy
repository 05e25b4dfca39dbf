/**
 * The Instagram card: a link recogniser, a local guess of the post's type from
 * its address, and the same download-then-extract job as the YouTube card,
 * run against the Instagram wrapper, which the backend does not implement yet.
 */
module InstagramConverter {
  import opened Common
  import opened ApiTypes
  import opened Text
  import opened ApiService

  // ---------------------------------------------------------------------------
  // Link recogniser:
  // ^(https?://)?(www\.)?instagram\.com/(p|reel|tv|stories)/[a-zA-Z0-9_-]+
  // There is no `$`: only a prefix of the address has to match.

  /** The rest of the link after the path kind and its '/': at least one slug character. */
  predicate MatchesAfterKind(s: string) {
    |s| >= 1 && IsSlugChar(s[0])
  }

  /** The rest of the link after `instagram.com/`. */
  predicate MatchesAfterHost(s: string) {
    if StartsWith(s, "p/") then MatchesAfterKind(s[2..])
    else if StartsWith(s, "reel/") then MatchesAfterKind(s[5..])
    else if StartsWith(s, "tv/") then MatchesAfterKind(s[3..])
    else StartsWith(s, "stories/") && MatchesAfterKind(s[8..])
  }

  /** The rest of the link after the optional scheme. */
  predicate MatchesAfterScheme(s: string) {
    var h := if StartsWith(s, "www.") then s[4..] else s;
    StartsWith(h, "instagram.com/") && MatchesAfterHost(h[14..])
  }

  /** `validateInstagramUrl`. */
  predicate ValidateInstagramUrl(url: string) {
    var rest :=
      if StartsWith(url, "https://") then url[8..]
      else if StartsWith(url, "http://") then url[7..]
      else url;
    MatchesAfterScheme(rest)
  }

  // The links the pattern describes, built from their parts.

  /** The path segment naming what is linked: `p`, `reel`, `tv` or `stories`. */
  datatype PathKind = PostPath | ReelPath | TvPath | StoriesPath

  /**
   * A link: optional scheme, optional `www.`, the path kind, the slug the pattern
   * reads and whatever follows it (the pattern does not look at it).
   */
  datatype InstagramLink = InstagramLink(scheme: Option<Scheme>, www: bool, kind: PathKind, slug: string, rest: string)

  function KindText(kind: PathKind): string {
    match kind
    case PostPath => "p/"
    case ReelPath => "reel/"
    case TvPath => "tv/"
    case StoriesPath => "stories/"
  }

  function SchemePrefix(scheme: Option<Scheme>): string {
    match scheme
    case None => ""
    case Some(s) => SchemeText(s)
  }

  function WwwText(www: bool): string {
    if www then "www." else ""
  }

  function Render(u: InstagramLink): string {
    SchemePrefix(u.scheme) + (WwwText(u.www) + ("instagram.com/" + (KindText(u.kind) + (u.slug + u.rest))))
  }

  /** A non-empty slug made of `[a-zA-Z0-9_-]`. */
  predicate WellFormed(u: InstagramLink) {
    u.slug != [] && AllSlugChars(u.slug)
  }

  lemma AfterHostOf(kind: PathKind, rest: string)
    ensures MatchesAfterHost(KindText(kind) + rest) <==> MatchesAfterKind(rest)
  {
    var k := KindText(kind);
    var s := k + rest;
    assert s[..|k|] == k && s[|k|..] == rest;
    if kind != PostPath && StartsWith(s, "p/") { StartsWithAt(s, "p/", 0); }
    if kind == TvPath && StartsWith(s, "reel/") { StartsWithAt(s, "reel/", 0); }
    if kind == StoriesPath {
      if StartsWith(s, "reel/") { StartsWithAt(s, "reel/", 0); }
      if StartsWith(s, "tv/") { StartsWithAt(s, "tv/", 0); }
    }
  }

  lemma AfterSchemeOf(www: bool, rest: string)
    ensures MatchesAfterScheme(WwwText(www) + ("instagram.com/" + rest)) <==> MatchesAfterHost(rest)
  {
    var h := "instagram.com/" + rest;
    var s := WwwText(www) + h;
    assert h[..14] == "instagram.com/" && h[14..] == rest;
    if www {
      assert s[..4] == "www." && s[4..] == h;
    } else {
      assert s == h && s[0] == 'i';
      if StartsWith(s, "www.") { StartsWithAt(s, "www.", 0); }
    }
  }

  /** Once the scheme (if any) is read off, the recogniser goes on with the rest. */
  lemma SchemeOf(scheme: Option<Scheme>, www: bool, rest: string)
    ensures ValidateInstagramUrl(SchemePrefix(scheme) + (WwwText(www) + ("instagram.com/" + rest)))
            <==> MatchesAfterScheme(WwwText(www) + ("instagram.com/" + rest))
  {
    var after := WwwText(www) + ("instagram.com/" + rest);
    var t := SchemePrefix(scheme);
    var s := t + after;
    assert s[..|t|] == t && s[|t|..] == after;
    if scheme == Some(Http) && StartsWith(s, "https://") {
      StartsWithAt(s, "https://", 4);
    }
    if scheme.None? {
      assert s == after;
      assert s[0] == 'w' || s[0] == 'i';
      if StartsWith(s, "https://") { StartsWithAt(s, "https://", 0); }
      if StartsWith(s, "http://") { StartsWithAt(s, "http://", 0); }
    }
  }

  /** A rendered link passes the recogniser exactly when its slug starts with a slug character. */
  lemma {:induction false} RenderMatches(u: InstagramLink)
    ensures ValidateInstagramUrl(Render(u)) <==> MatchesAfterKind(u.slug + u.rest)
  {
    var afterKind := u.slug + u.rest;
    var afterHost := KindText(u.kind) + afterKind;
    SchemeOf(u.scheme, u.www, afterHost);
    AfterSchemeOf(u.www, afterHost);
    AfterHostOf(u.kind, afterKind);
  }

  /** Every well-formed link is accepted, whatever follows its slug. */
  lemma RenderAccepted(u: InstagramLink)
    requires WellFormed(u)
    ensures ValidateInstagramUrl(Render(u))
  {
    RenderMatches(u);
    assert (u.slug + u.rest)[0] == u.slug[0];
  }

  lemma AfterHostParts(s: string) returns (kind: PathKind, rest: string)
    requires MatchesAfterHost(s)
    ensures s == KindText(kind) + rest && MatchesAfterKind(rest)
  {
    kind :=
      if StartsWith(s, "p/") then PostPath
      else if StartsWith(s, "reel/") then ReelPath
      else if StartsWith(s, "tv/") then TvPath
      else StoriesPath;
    rest := s[|KindText(kind)|..];
    assert s == s[..|KindText(kind)|] + rest;
  }

  lemma AfterSchemeParts(s: string) returns (www: bool, rest: string)
    requires MatchesAfterScheme(s)
    ensures s == WwwText(www) + ("instagram.com/" + rest) && MatchesAfterHost(rest)
  {
    www := StartsWith(s, "www.");
    var h := s[|WwwText(www)|..];
    assert s == WwwText(www) + h;
    rest := h[14..];
    assert h == h[..14] + rest;
  }

  lemma SchemeParts(url: string) returns (scheme: Option<Scheme>, rest: string)
    requires ValidateInstagramUrl(url)
    ensures url == SchemePrefix(scheme) + rest && MatchesAfterScheme(rest)
  {
    scheme :=
      if StartsWith(url, "https://") then Some(Https)
      else if StartsWith(url, "http://") then Some(Http)
      else None;
    rest := url[|SchemePrefix(scheme)|..];
    assert url == url[..|SchemePrefix(scheme)|] + rest;
  }

  /** Every accepted address is a well-formed link, rendered, with a one-character slug. */
  lemma {:induction false} AcceptedIsWellFormed(url: string) returns (u: InstagramLink)
    requires ValidateInstagramUrl(url)
    ensures WellFormed(u) && Render(u) == url
  {
    var scheme, afterScheme := SchemeParts(url);
    var www, afterHost := AfterSchemeParts(afterScheme);
    var kind, afterKind := AfterHostParts(afterHost);
    var slug, rest := afterKind[..1], afterKind[1..];
    assert afterKind == slug + rest;
    u := InstagramLink(scheme, www, kind, slug, rest);
  }

  /** The recogniser accepts exactly the well-formed links. */
  lemma ValidateInstagramUrlIff(url: string)
    ensures ValidateInstagramUrl(url) <==> exists u :: WellFormed(u) && Render(u) == url
  {
    if ValidateInstagramUrl(url) {
      var u := AcceptedIsWellFormed(url);
    }
    if exists u :: WellFormed(u) && Render(u) == url {
      var u :| WellFormed(u) && Render(u) == url;
      RenderAccepted(u);
    }
  }

  /** A link that stops right after the path kind (no slug) is refused. */
  lemma RejectsMissingSlug(scheme: Option<Scheme>, www: bool, kind: PathKind)
    ensures !ValidateInstagramUrl(Render(InstagramLink(scheme, www, kind, "", "")))
  {
    RenderMatches(InstagramLink(scheme, www, kind, "", ""));
  }

  /** A slug that starts with a character outside `[a-zA-Z0-9_-]` is refused. */
  lemma RejectsBadSlugStart(u: InstagramLink)
    requires u.slug != [] && !IsSlugChar(u.slug[0])
    ensures !ValidateInstagramUrl(Render(u))
  {
    RenderMatches(u);
    assert (u.slug + u.rest)[0] == u.slug[0];
  }

  // ---------------------------------------------------------------------------
  // Type guessed from the address

  /** What `handleFetchVideoInfo` calls the post. */
  datatype MediaType = Post | Reel | IGTV | Story

  function TypeName(t: MediaType): (name: string)
    ensures name != ""
  {
    match t
    case Post => "Post"
    case Reel => "Reel"
    case IGTV => "IGTV"
    case Story => "Story"
  }

  /** `/reel/` wins over `/tv/`, which wins over `/stories/`; anything else is a post. */
  function ClassifyInstagramType(url: string): (t: MediaType)
    ensures t == Reel <==> Contains(url, "/reel/")
    ensures t == IGTV <==> !Contains(url, "/reel/") && Contains(url, "/tv/")
    ensures t == Story <==> !Contains(url, "/reel/") && !Contains(url, "/tv/") && Contains(url, "/stories/")
  {
    if Contains(url, "/reel/") then Reel
    else if Contains(url, "/tv/") then IGTV
    else if Contains(url, "/stories/") then Story
    else Post
  }

  /**
   * The path kind decides the type unless a marker that is tested earlier shows
   * up elsewhere in the address: a `reel` link is always a Reel, a `tv` link an
   * IGTV unless `/reel/` appears, a `stories` link a Story unless `/reel/` or
   * `/tv/` appears.
   */
  lemma ClassifiedByPathKind(u: InstagramLink)
    ensures u.kind == ReelPath ==> ClassifyInstagramType(Render(u)) == Reel
    ensures u.kind == TvPath && !Contains(Render(u), "/reel/") ==> ClassifyInstagramType(Render(u)) == IGTV
    ensures u.kind == StoriesPath && !Contains(Render(u), "/reel/") && !Contains(Render(u), "/tv/") ==>
              ClassifyInstagramType(Render(u)) == Story
  {
    // The slash closing the host and the one closing the path kind enclose `/kind/`.
    var tail := u.slug + u.rest;
    var marker := "/" + KindText(u.kind);
    var head := SchemePrefix(u.scheme) + (WwwText(u.www) + "instagram.com");
    assert "instagram.com/" + (KindText(u.kind) + tail) == "instagram.com" + (marker + tail);
    assert WwwText(u.www) + ("instagram.com" + (marker + tail)) == (WwwText(u.www) + "instagram.com") + (marker + tail);
    assert Render(u) == head + (marker + tail);
    ContainsInfix(head, marker, tail);
    assert head + marker + tail == head + (marker + tail);
    match u.kind
    case ReelPath => assert marker == "/reel/";
    case TvPath => assert marker == "/tv/";
    case StoriesPath => assert marker == "/stories/";
    case PostPath =>
  }

  /** The title the card shows after "fetching" the info. */
  function InfoTitle(t: MediaType): (title: string)
    ensures title == "Instagram " + TypeName(t)
  {
    "Instagram " + TypeName(t)
  }

  /** Different types are never shown under the same title. */
  lemma InfoTitleInjective(a: MediaType, b: MediaType)
    requires a != b
    ensures InfoTitle(a) != InfoTitle(b)
  {
    // The four names already differ in their first letter.
    assert InfoTitle(a)[10] == TypeName(a)[0];
    assert InfoTitle(b)[10] == TypeName(b)[0];
  }

  /** What `fetchedVideoInfo` holds: a title and, after a fetch, the guessed type. */
  datatype VideoInfo = VideoInfo(title: string, mediaType: Option<MediaType>)

  // ---------------------------------------------------------------------------
  // Name of the audio file offered for download

  /** `title.replace(/\.[^/.]+$/, "") || "instagram_video"`. */
  function AudioBaseName(title: string): (name: string)
    ensures name != ""
    ensures StripExtension(title) != "" ==> name == StripExtension(title)
    ensures StripExtension(title) == "" ==> name == "instagram_video"
  {
    var stripped := StripExtension(title);
    if stripped != "" then stripped else "instagram_video"
  }

  /** `${baseName}_audio.${audioFormat}`. */
  function AudioDownloadName(title: string, audioFormat: string): (name: string)
    ensures |name| > 7
    ensures name == AudioBaseName(title) + "_audio." + audioFormat
  {
    AudioBaseName(title) + "_audio." + audioFormat
  }

  /** A title `base.ext` (base non-empty) names the audio `base_audio.<format>`. */
  lemma AudioNameOfTitle(base: string, ext: string, audioFormat: string)
    requires base != [] && ext != []
    requires forall i :: 0 <= i < |ext| ==> ext[i] != '/' && ext[i] != '.'
    ensures AudioDownloadName(base + "." + ext, audioFormat) == base + "_audio." + audioFormat
  {
    StripExtensionOfJoin(base, ext);
  }

  /** A title that is only `.ext` strips to nothing and falls back to `instagram_video`. */
  lemma AudioNameOfBareExtension(ext: string, audioFormat: string)
    requires ext != []
    requires forall i :: 0 <= i < |ext| ==> ext[i] != '/' && ext[i] != '.'
    ensures AudioDownloadName("." + ext, audioFormat) == "instagram_video_audio." + audioFormat
  {
    StripExtensionOfJoin("", ext);
    assert "" + "." + ext == "." + ext;
  }

  // ---------------------------------------------------------------------------
  // The card's state and handlers

  class Converter {
    var videoUrl: string
    var audioFormat: string
    var isFetchingInfo: bool
    var isDownloadingVideo: bool
    var isExtractingAudio: bool
    var progress: int
    var downloadedVideoFileId: Option<string>
    var extractedAudioUuid: Option<string>
    var fetchedVideoInfo: Option<VideoInfo>

    constructor ()
      ensures videoUrl == "" && audioFormat == "mp3"
      ensures !isFetchingInfo && !isDownloadingVideo && !isExtractingAudio && progress == 0
      ensures downloadedVideoFileId == None && extractedAudioUuid == None && fetchedVideoInfo == None
    {
      videoUrl, audioFormat := "", "mp3";
      isFetchingInfo, isDownloadingVideo, isExtractingAudio := false, false, false;
      progress := 0;
      downloadedVideoFileId, extractedAudioUuid, fetchedVideoInfo := None, None, None;
    }

    predicate IsProcessing()
      reads this
    {
      isFetchingInfo || isDownloadingVideo || isExtractingAudio
    }

    /** The URL field's `onChange`. */
    method SetVideoUrl(url: string)
      modifies this`videoUrl
      ensures videoUrl == url
    {
      videoUrl := url;
    }

    /** The format selector's `onValueChange`. */
    method SetAudioFormat(format: string)
      modifies this`audioFormat
      ensures audioFormat == format
    {
      audioFormat := format;
    }

    /**
     * `handleFetchVideoInfo`: no request is sent; the type is guessed from the
     * address and the results of any previous job are dropped.
     */
    method FetchVideoInfo() returns (outcome: JobOutcome)
      modifies this`isFetchingInfo, this`fetchedVideoInfo, this`downloadedVideoFileId, this`extractedAudioUuid
      ensures !ValidateInstagramUrl(old(videoUrl)) ==> outcome == Refused(InvalidUrl) && unchanged(this)
      ensures ValidateInstagramUrl(old(videoUrl)) ==>
                && outcome == Succeeded
                && !isFetchingInfo
                && downloadedVideoFileId == None && extractedAudioUuid == None
                && fetchedVideoInfo == Some(VideoInfo(InfoTitle(ClassifyInstagramType(videoUrl)),
                                                      Some(ClassifyInstagramType(videoUrl))))
    {
      // An empty address never passes the recogniser, so `!videoUrl` needs no test of its own.
      if videoUrl == "" || !ValidateInstagramUrl(videoUrl) {
        return Refused(InvalidUrl);
      }
      isFetchingInfo := true;
      fetchedVideoInfo := None;
      downloadedVideoFileId, extractedAudioUuid := None, None;
      var t := ClassifyInstagramType(videoUrl);
      fetchedVideoInfo := Some(VideoInfo(InfoTitle(t), Some(t)));
      outcome := Succeeded;
      isFetchingInfo := false;
    }

    /**
     * `handleDownloadAndExtractAudio` as the card ships it: step 1 goes to the
     * Instagram placeholder, so a valid address always ends in the placeholder's
     * message, with progress at 10 and no extraction requested.
     */
    method DownloadAndExtractAudio(extract: Result<ExtractAudioResponse, TransportError>)
      returns (outcome: JobOutcome, calls: seq<ApiCall>, progressTrace: seq<int>)
      modifies this`isDownloadingVideo, this`isExtractingAudio, this`progress,
               this`downloadedVideoFileId, this`extractedAudioUuid, this`fetchedVideoInfo
      ensures !ValidateInstagramUrl(old(videoUrl)) ==>
                outcome == Refused(InvalidUrl) && calls == [] && progressTrace == [] && unchanged(this)
      ensures ValidateInstagramUrl(old(videoUrl)) ==>
                && outcome == Failed(InstagramNotImplemented)
                && calls == [DownloadInstagramVideo(DownloadInstagramRequest(old(videoUrl)))]
                && progressTrace == [0, 10] && progress == 10
                && !isDownloadingVideo && !isExtractingAudio
                && downloadedVideoFileId == None && extractedAudioUuid == None && fetchedVideoInfo == None
    {
      if videoUrl == "" || !ValidateInstagramUrl(videoUrl) {
        return Refused(InvalidUrl), [], [];
      }
      var download := DownloadInstagramVideoResult(DownloadInstagramRequest(videoUrl));
      outcome, calls, progressTrace := RunJob(download, extract);
    }

    /**
     * The body of `handleDownloadAndExtractAudio` past its URL check, for a
     * given settled outcome `download` of the Instagram wrapper.
     */
    method RunJob(download: Result<DownloadInstagramResponse, ThrownError>,
                  extract: Result<ExtractAudioResponse, TransportError>)
      returns (outcome: JobOutcome, calls: seq<ApiCall>, progressTrace: seq<int>)
      modifies this`isDownloadingVideo, this`isExtractingAudio, this`progress,
               this`downloadedVideoFileId, this`extractedAudioUuid, this`fetchedVideoInfo
      // Flags end false; the bar follows the two-step bands and ends where the job stopped.
      ensures !isDownloadingVideo && !isExtractingAudio
      ensures progressTrace == TwoStepProgress(download.Success?, download.Success? && extract.Success?)
      ensures progress == progressTrace[|progressTrace| - 1]
      ensures |calls| >= 1 && calls[0] == DownloadInstagramVideo(DownloadInstagramRequest(videoUrl))
      // Step 1 fails: nothing of the previous job survives.
      ensures download.Failure? ==>
                && outcome == Failed(ErrorMessage(download.error))
                && |calls| == 1
                && downloadedVideoFileId == None && extractedAudioUuid == None && fetchedVideoInfo == None
      // Step 1 succeeds: the id and the file's name are kept, and the id is what step 2 extracts from.
      ensures download.Success? ==>
                && downloadedVideoFileId == Some(download.value.fileId)
                && fetchedVideoInfo == Some(VideoInfo(FileNameFromPath(download.value.videoFilePath, "Instagram Video"), None))
                && calls == [DownloadInstagramVideo(DownloadInstagramRequest(videoUrl)),
                             ExtractAudio(ExtractAudioRequest(download.value.fileId))]
      ensures download.Success? && extract.Success? ==>
                outcome == Succeeded && extractedAudioUuid == Some(extract.value.audioFileUuid)
      ensures download.Success? && extract.Failure? ==>
                outcome == Failed(ErrorMessage(ExtractAudioResult(extract).error)) && extractedAudioUuid == None
    {
      calls := [DownloadInstagramVideo(DownloadInstagramRequest(videoUrl))];
      progressTrace := DownloadStep(download);
      if download.Failure? {
        return Failed(ErrorMessage(download.error)), calls, progressTrace;
      }
      var extractTrace;
      outcome, extractTrace := ExtractStep(download.value.fileId, extract);
      calls := calls + [ExtractAudio(ExtractAudioRequest(download.value.fileId))];
      progressTrace := progressTrace + extractTrace;
    }

    /**
     * The reset at the start of `handleDownloadAndExtractAudio` and its step 1,
     * given what the Instagram wrapper settled to. On failure the `finally`
     * clears the flags.
     */
    method DownloadStep(download: Result<DownloadInstagramResponse, ThrownError>)
      returns (progressTrace: seq<int>)
      modifies this`isDownloadingVideo, this`isExtractingAudio, this`progress,
               this`downloadedVideoFileId, this`extractedAudioUuid, this`fetchedVideoInfo
      ensures extractedAudioUuid == None
      ensures |progressTrace| >= 2 && progress == progressTrace[|progressTrace| - 1]
      ensures download.Failure? ==>
                && progressTrace == [0, 10] && !isDownloadingVideo && !isExtractingAudio
                && downloadedVideoFileId == None && fetchedVideoInfo == None
      ensures download.Success? ==>
                && progressTrace == [0, 10, 50]
                && downloadedVideoFileId == Some(download.value.fileId)
                && fetchedVideoInfo == Some(VideoInfo(FileNameFromPath(download.value.videoFilePath, "Instagram Video"), None))
    {
      isDownloadingVideo, isExtractingAudio := true, false;
      progress := 0;
      progressTrace := [progress];
      downloadedVideoFileId, extractedAudioUuid, fetchedVideoInfo := None, None, None;

      progress := 10;
      progressTrace := progressTrace + [progress];
      if download.Failure? {
        isDownloadingVideo, isExtractingAudio := false, false;
        return;
      }
      var video := download.value;
      downloadedVideoFileId := Some(video.fileId);
      fetchedVideoInfo := Some(VideoInfo(FileNameFromPath(video.videoFilePath, "Instagram Video"), None));
      progress := 50;
      progressTrace := progressTrace + [progress];
    }

    /**
     * Step 2 of `handleDownloadAndExtractAudio` and its `finally`: extraction from
     * the video `fileId`, with the values it gives the progress bar.
     */
    method ExtractStep(fileId: string, extract: Result<ExtractAudioResponse, TransportError>)
      returns (outcome: JobOutcome, progressTrace: seq<int>)
      modifies this`isDownloadingVideo, this`isExtractingAudio, this`progress, this`extractedAudioUuid
      ensures !isDownloadingVideo && !isExtractingAudio
      ensures extract.Success? ==>
                && outcome == Succeeded && progressTrace == [60, 100]
                && extractedAudioUuid == Some(extract.value.audioFileUuid)
      ensures extract.Failure? ==>
                && outcome == Failed(ErrorMessage(ExtractAudioResult(extract).error)) && progressTrace == [60]
                && extractedAudioUuid == old(extractedAudioUuid)
      ensures progress == progressTrace[|progressTrace| - 1]
    {
      isDownloadingVideo, isExtractingAudio := false, true;
      progress := 60;
      progressTrace := [progress];
      var audio := ExtractAudioResult(extract);
      if audio.Failure? {
        outcome := Failed(ErrorMessage(audio.error));
      } else {
        extractedAudioUuid := Some(audio.value.audioFileUuid);
        progress := 100;
        progressTrace := progressTrace + [progress];
        outcome := Succeeded;
      }
      isDownloadingVideo, isExtractingAudio := false, false;
    }

    /**
     * `handleDownloadResult`: a link only when an audio uuid and some video info
     * are both held; the name is the info's title without its extension, with
     * `_audio.<format>` appended.
     */
    function DownloadResult(base: string): (link: Option<DownloadLink>)
      reads this
      ensures link.Some? <==> Present(extractedAudioUuid) && fetchedVideoInfo.Some?
      ensures link.Some? ==>
                && FileUuidOfUrl(base, link.value.href) == extractedAudioUuid
                && link.value.filename == AudioDownloadName(fetchedVideoInfo.value.title, audioFormat)
    {
      if Present(extractedAudioUuid) && fetchedVideoInfo.Some? then
        Some(DownloadResultFile(base, extractedAudioUuid.value,
                                Some(AudioDownloadName(fetchedVideoInfo.value.title, audioFormat))))
      else None
    }
  }
}
