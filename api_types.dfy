/**
 * The record shapes exchanged with the backend. Field names are the camel-case
 * forms of the JSON keys (`file_id` is `fileId`, and so on).
 */
module ApiTypes {
  import opened Common

  /** A file picked in the browser: only its name and its size in bytes matter here. */
  datatype LocalFile = LocalFile(name: string, size: nat)

  /** Answer of POST /uploadfile/. */
  datatype UploadFileResponse = UploadFileResponse(message: string, fileId: string, filePath: string, filename: string)

  /** Body of POST /extract-audio/. */
  datatype ExtractAudioRequest = ExtractAudioRequest(fileId: string)

  /** Answer of POST /extract-audio/. */
  datatype ExtractAudioResponse = ExtractAudioResponse(message: string, audioFileUuid: string, audioFilePath: string)

  /** Body of POST /download-youtube-video/. */
  datatype DownloadYouTubeRequest = DownloadYouTubeRequest(youtubeUrl: string)

  /** Answer of POST /download-youtube-video/. */
  datatype DownloadYouTubeResponse = DownloadYouTubeResponse(message: string, fileId: string, videoFilePath: string)

  /** Body of the (unimplemented) Instagram download request. */
  datatype DownloadInstagramRequest = DownloadInstagramRequest(instagramUrl: string)

  /** Answer the Instagram download would give once the backend has it. */
  datatype DownloadInstagramResponse = DownloadInstagramResponse(message: string, fileId: string, videoFilePath: string)

  datatype TextStyle = Minimal | MemeStyle | Dynamic | Retro
  datatype TextPosition = Top | Center | Bottom

  /** The three accepted aspect ratios: 16:9, 9:16 and 1:1. */
  datatype AspectRatio = Landscape | Portrait | Square

  /** One text overlay; `imageIndex == None` is `null` (the text spans every image). */
  datatype TextOverlayData = TextOverlayData(
    text: string,
    style: Option<TextStyle>,
    imageIndex: Option<int>,
    position: Option<TextPosition>)

  /**
   * Body of POST /create-video-from-images/. Every optional key is an Option;
   * `texts == None` is the explicit `null`.
   */
  datatype CreateVideoRequest = CreateVideoRequest(
    imageFileIds: seq<string>,
    audioFileId: string,
    outputFilename: Option<string>,
    imageDisplayDuration: Option<real>,
    transitionDuration: Option<real>,
    musicSegmentStartTime: Option<real>,
    audioSegmentDurationFromMusic: Option<real>,
    fps: Option<int>,
    texts: Option<seq<TextOverlayData>>,
    videoAspectRatio: Option<AspectRatio>,
    enableImageAnimations: Option<bool>)

  /** Answer of POST /create-video-from-images/. */
  datatype CreateVideoResponse = CreateVideoResponse(message: string, videoFileUuid: string, videoFilePath: string)

  /**
   * What a component catches: either the server's JSON error body or an `Error`.
   * Only the two keys the components read are kept.
   */
  datatype ThrownError = ThrownError(detail: Option<string>, message: Option<string>)

  /**
   * How an HTTP call failed: the response body when the server answered with one
   * (`error.response?.data`), and the transport's own message (`error.message`).
   */
  datatype TransportError = TransportError(responseData: Option<ThrownError>, message: string)
}
