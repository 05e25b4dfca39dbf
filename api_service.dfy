/**
 * The thin API client: base URL, the endpoint each wrapper posts to, the way each
 * wrapper turns a failed HTTP call into the value it throws, the Instagram
 * placeholder, and the download link built for a result file.
 *
 * The HTTP exchange itself is not modelled: every wrapper receives the settled
 * outcome of its call (`transport`) and returns what the wrapper resolves or
 * rejects with.
 */
module ApiService {
  import opened Common
  import opened ApiTypes

  const DefaultApiBaseUrl: string := "http://127.0.0.1:8000"

  /** `import.meta.env.VITE_API_BASE_URL || 'http://127.0.0.1:8000'`. */
  function ApiBaseUrl(env: Option<string>): (r: string)
    ensures r != ""
    ensures Present(env) ==> r == env.value
    ensures !Present(env) ==> r == DefaultApiBaseUrl
  {
    if Present(env) then env.value else DefaultApiBaseUrl
  }

  /** One invocation of an API wrapper, with what it was given. */
  datatype ApiCall =
    | UploadFile(file: LocalFile)
    | ExtractAudio(request: ExtractAudioRequest)
    | DownloadYouTubeVideo(youtube: DownloadYouTubeRequest)
    | DownloadInstagramVideo(instagram: DownloadInstagramRequest)
    | CreateVideoFromImages(create: CreateVideoRequest)

  /**
   * The path the wrapper posts to; `None` for the Instagram placeholder, which
   * sends nothing at all.
   */
  function Endpoint(call: ApiCall): (path: Option<string>)
    ensures path.None? <==> call.DownloadInstagramVideo?
    ensures path.Some? ==> |path.value| >= 2 && path.value[0] == '/' && path.value[|path.value| - 1] == '/'
  {
    match call
    case UploadFile(_) => Some("/uploadfile/")
    case ExtractAudio(_) => Some("/extract-audio/")
    case DownloadYouTubeVideo(_) => Some("/download-youtube-video/")
    case DownloadInstagramVideo(_) => None
    case CreateVideoFromImages(_) => Some("/create-video-from-images/")
  }

  /** Calls of two different wrappers never reach the same endpoint. */
  lemma EndpointsDistinct(a: ApiCall, b: ApiCall)
    requires Endpoint(a).Some? && Endpoint(a) == Endpoint(b)
    ensures a.UploadFile? == b.UploadFile? && a.ExtractAudio? == b.ExtractAudio?
    ensures a.DownloadYouTubeVideo? == b.DownloadYouTubeVideo? && a.CreateVideoFromImages? == b.CreateVideoFromImages?
  {
  }

  // ---------------------------------------------------------------------------
  // Error normalisation

  /**
   * The `try { return response.data } catch` shared by the wrappers: the resolved
   * value passes through; on failure the server's body is rethrown when there is
   * one, otherwise `new Error(error.message || fallback)`.
   */
  function Settle<T>(transport: Result<T, TransportError>, fallback: string): (r: Result<T, ThrownError>)
    ensures r.Success? <==> transport.Success?
    ensures transport.Success? ==> r.value == transport.value
    ensures transport.Failure? && transport.error.responseData.Some? ==>
              r.error == transport.error.responseData.value
    ensures transport.Failure? && transport.error.responseData.None? ==>
              r.error.detail.None? && r.error.message.Some? &&
              (transport.error.message != "" ==> r.error.message.value == transport.error.message) &&
              (transport.error.message == "" ==> r.error.message.value == fallback)
    ensures fallback != "" ==> Normalises(transport, r, fallback)
  {
    match transport
    case Success(v) => Success(v)
    case Failure(e) =>
      if e.responseData.Some? then Failure(e.responseData.value)
      else Failure(ThrownError(None, Some(if e.message != "" then e.message else fallback)))
  }

  /**
   * `r` is what a wrapper with this `fallback` settles to for `transport`: the
   * value passes through, a server body is rethrown as it is, and without a body
   * the user reads the transport's message, or the fallback when that is empty.
   */
  ghost predicate Normalises<T>(transport: Result<T, TransportError>, r: Result<T, ThrownError>, fallback: string) {
    && (r.Success? <==> transport.Success?)
    && (r.Success? && transport.Success? ==> r.value == transport.value)
    && (r.Failure? && transport.Failure? && transport.error.responseData.Some? ==>
          r.error == transport.error.responseData.value)
    && (r.Failure? && transport.Failure? && transport.error.responseData.None? ==>
          ErrorMessage(r.error) == if transport.error.message != "" then transport.error.message else fallback)
  }

  /** What a component shows: `error.detail || error.message || "An unknown error occurred."`. */
  function ErrorMessage(error: ThrownError): (text: string)
    ensures text != ""
    ensures Present(error.detail) ==> text == error.detail.value
    ensures !Present(error.detail) && Present(error.message) ==> text == error.message.value
    ensures !Present(error.detail) && !Present(error.message) ==> text == "An unknown error occurred."
  {
    if Present(error.detail) then error.detail.value
    else if Present(error.message) then error.message.value
    else "An unknown error occurred."
  }

  /** When the server answered with a body carrying `detail`, the user reads that detail. */
  lemma ServerDetailShown<T>(transport: Result<T, TransportError>, fallback: string)
    requires transport.Failure? && transport.error.responseData.Some?
    requires Present(transport.error.responseData.value.detail)
    ensures ErrorMessage(Settle(transport, fallback).error) == transport.error.responseData.value.detail.value
  {
  }

  const UploadFailed: string := "File upload failed"
  const ExtractionFailed: string := "Audio extraction failed"
  const YouTubeDownloadFailed: string := "YouTube download failed"
  const VideoCreationFailed: string := "Video creation failed"

  /** `uploadFile`: POST /uploadfile/ (multipart). */
  function UploadFileResult(transport: Result<UploadFileResponse, TransportError>): (r: Result<UploadFileResponse, ThrownError>)
    ensures Normalises(transport, r, UploadFailed)
  {
    Settle(transport, UploadFailed)
  }

  /** `extractAudio`: POST /extract-audio/. */
  function ExtractAudioResult(transport: Result<ExtractAudioResponse, TransportError>): (r: Result<ExtractAudioResponse, ThrownError>)
    ensures Normalises(transport, r, ExtractionFailed)
  {
    Settle(transport, ExtractionFailed)
  }

  /** `downloadYouTubeVideo`: POST /download-youtube-video/. */
  function DownloadYouTubeVideoResult(transport: Result<DownloadYouTubeResponse, TransportError>): (r: Result<DownloadYouTubeResponse, ThrownError>)
    ensures Normalises(transport, r, YouTubeDownloadFailed)
  {
    Settle(transport, YouTubeDownloadFailed)
  }

  /** `createVideoFromImages`: POST /create-video-from-images/. */
  function CreateVideoFromImagesResult(transport: Result<CreateVideoResponse, TransportError>): (r: Result<CreateVideoResponse, ThrownError>)
    ensures Normalises(transport, r, VideoCreationFailed)
  {
    Settle(transport, VideoCreationFailed)
  }

  const InstagramNotImplemented: string := "Instagram download feature not yet implemented on the backend."

  /**
   * `downloadInstagramVideo`: a placeholder that sends no request and always
   * rejects with a fixed `detail`, whatever URL it is given.
   */
  function DownloadInstagramVideoResult(request: DownloadInstagramRequest): (r: Result<DownloadInstagramResponse, ThrownError>)
    ensures r.Failure?
    ensures ErrorMessage(r.error) == InstagramNotImplemented
  {
    Failure(ThrownError(Some(InstagramNotImplemented), None))
  }

  // ---------------------------------------------------------------------------
  // Result download

  const DownloadResultPath: string := "/download-result/"

  /** `${API_BASE_URL}/download-result/${fileUuid}`. */
  function DownloadUrl(base: string, fileUuid: string): (url: string)
    ensures |url| == |base| + |DownloadResultPath| + |fileUuid|
    ensures url[..|base|] == base
    ensures url[|base|..|base| + |DownloadResultPath|] == DownloadResultPath
    ensures url[|base| + |DownloadResultPath|..] == fileUuid
  {
    base + DownloadResultPath + fileUuid
  }

  /** Reads the file identifier back out of a download URL built on `base`. */
  function FileUuidOfUrl(base: string, url: string): (id: Option<string>)
    ensures id.Some? ==> DownloadUrl(base, id.value) == url
  {
    var n := |base| + |DownloadResultPath|;
    if n <= |url| && url[..|base|] == base && url[|base|..n] == DownloadResultPath then
      assert url == url[..|base|] + url[|base|..n] + url[n..];
      Some(url[n..])
    else None
  }

  /** Every download URL names its file: the identifier is read back unchanged. */
  lemma DownloadUrlRoundTrip(base: string, fileUuid: string)
    ensures FileUuidOfUrl(base, DownloadUrl(base, fileUuid)) == Some(fileUuid)
  {
  }

  /** Two different files never share a download URL. */
  lemma DownloadUrlInjective(base: string, a: string, b: string)
    requires DownloadUrl(base, a) == DownloadUrl(base, b)
    ensures a == b
  {
    DownloadUrlRoundTrip(base, a);
    DownloadUrlRoundTrip(base, b);
  }

  /** `desiredFilename || `download_${fileUuid}``. */
  function DownloadFilename(fileUuid: string, desired: Option<string>): (name: string)
    ensures name != ""
    ensures Present(desired) ==> name == desired.value
    ensures !Present(desired) ==> name == "download_" + fileUuid
  {
    if Present(desired) then desired.value else "download_" + fileUuid
  }

  /** The anchor `downloadResultFile` clicks: where it points and the name it suggests. */
  datatype DownloadLink = DownloadLink(href: string, filename: string)

  /** `downloadResultFile(fileUuid, desiredFilename)`, without the DOM work. */
  function DownloadResultFile(base: string, fileUuid: string, desired: Option<string>): (link: DownloadLink)
    ensures FileUuidOfUrl(base, link.href) == Some(fileUuid)
    ensures link.filename != ""
    ensures Present(desired) ==> link.filename == desired.value
  {
    DownloadUrlRoundTrip(base, fileUuid);
    DownloadLink(DownloadUrl(base, fileUuid), DownloadFilename(fileUuid, desired))
  }
}
