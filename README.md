# Audio/video converter front end, modelled in Dafny

The application is a React front end whose media work is all done by a remote
backend. It has four cards and one API client:

- **YouTube downloader.** It checks a YouTube link, has the backend fetch the
  video, then has it extract the audio. Both results are offered for download.
- **Instagram converter.** It checks an Instagram link and guesses the post's
  type from the address. It runs the same fetch-then-extract job, but against
  a placeholder that always rejects.
- **Video uploader.** It checks a picked video against 50 MiB and uploads it,
  unless the same file was the last one uploaded. It then extracts the audio
  and names the download `<base>_audio.<format>`.
- **Shorts editor.** It keeps an ordered list of up to five images, keyed by a
  client-side id and each uploaded on its own. It also keeps one background
  track. From these it builds the request that turns them into a short video.
- **API client.** It holds the base URL and the endpoint of each wrapper. It
  also fixes how a failed call becomes the error a card shows, and the link
  built to download a result.

Modules:

| file | module | what it holds |
|---|---|---|
| common.dfy | `Common` | `Option`, `Result`, JavaScript truthiness of a nullable string (`Present`), the progress banding of the two-step jobs, refusals and job outcomes |
| api_types.dfy | `ApiTypes` | the request and response records |
| text.dfy | `Text` | last path segment, split/pop/join base name, extension strip, `trim`, decimal rendering of a timestamp |
| api_service.dfy | `ApiService` | base URL, endpoints, error normalisation, the Instagram placeholder, download URL and file name |
| youtube_downloader.dfy | `YouTubeDownloader` | the link recogniser with its accept/reject proofs, and the `Downloader` class |
| instagram_converter.dfy | `InstagramConverter` | the link recogniser, the type guess, the audio name, and the `Converter` class |
| video_uploader.dfy | `VideoUploader` | the reuse-or-upload decision, the audio name, and the `Uploader` class |
| shorts_editor.dfy | `ShortsEditor` | the image list with its operations and invariants, the upload loops, the create-video request, and the `Editor` class |

### How effects appear

- No request is sent. A handler that awaits a backend call takes the settled
  outcome of that call as a parameter, of type `Result<Response,
  TransportError>`. That outcome goes through the wrapper's error
  normalisation (`ApiService.Settle`).
- A handler returns `calls`, the wrapper invocations it made in order, with
  their payloads. Some handlers also return `progressTrace`, every value they
  gave the progress bar in order.
- A card's React state is a Dafny class whose fields the methods update. Each
  toast becomes the handler's `outcome`: refused with a reason, failed with
  the message shown, or succeeded.

The contracts state the things the cards promise:

- A refused request changes nothing and calls nothing.
- Progress follows the 0, 10, 50, 60, 100 banding, never goes down, and
  reaches 100 exactly when both steps succeed.
- The id returned by step 1 is the id step 2 asks for.
- The contracts say what survives a failure.
- The image list keeps distinct ids, sizes within the limit and at most five
  entries.
- A callback changes only the entry carrying its id.
- Removal drops exactly that id and keeps the others in order.
- The create-video payload lists the usable images' backend ids in list order.
- Each link recogniser accepts exactly the links it is meant to.
- A download URL gives its file id back (a round trip).

Two behaviours of the code are modelled as written:

- The uploader names the audio of a file without any `.` as `_audio.<format>`
  (`VideoUploader.AudioNameWithoutDot`).
- The Shorts editor counts oversize images towards the five-image limit before
  it skips them.

## Model

| member | source | states |
|---|---|---|
| Common.TwoStepProgress | src/components/YouTubeDownloader.tsx:48-78 | the two-step bar starts 0, 10; never decreases; ends at 100 exactly when extraction ran; stops at 10 when the download failed |
| ApiService.ApiBaseUrl | src/api/apiService.ts:17 | the environment value when set and non-empty, else `http://127.0.0.1:8000`; never empty |
| ApiService.Endpoint | src/api/apiService.ts:33-99 | each wrapper posts to one fixed `/…/` path; only the Instagram placeholder sends nothing |
| ApiService.EndpointsDistinct | src/api/apiService.ts:33-99 | two wrappers never share an endpoint |
| ApiService.Settle | src/api/apiService.ts:39-43 | a resolved value passes through; a failure rethrows the server body when there is one, else an error carrying the transport message or, when that is empty, the wrapper's fallback |
| ApiService.ErrorMessage | src/components/YouTubeDownloader.tsx:83 | the text shown is `detail`, else `message`, else "An unknown error occurred."; never empty |
| ApiService.ServerDetailShown | src/api/apiService.ts:43 | when the server answered with a body carrying `detail`, that detail is what the user reads |
| ApiService.UploadFileResult | src/api/apiService.ts:29-45 | normalises the upload outcome with fallback "File upload failed" |
| ApiService.ExtractAudioResult | src/api/apiService.ts:48-58 | normalises the extraction outcome with fallback "Audio extraction failed" |
| ApiService.DownloadYouTubeVideoResult | src/api/apiService.ts:61-71 | normalises the YouTube download outcome with fallback "YouTube download failed" |
| ApiService.CreateVideoFromImagesResult | src/api/apiService.ts:97-107 | normalises the create-video outcome with fallback "Video creation failed" |
| ApiService.DownloadInstagramVideoResult | src/api/apiService.ts:74-82 | always rejects, whatever the request, and the user reads "Instagram download feature not yet implemented on the backend." |
| ApiService.DownloadUrl | src/api/apiService.ts:111 | the URL is the base, then `/download-result/`, then the uuid, piece by piece |
| ApiService.FileUuidOfUrl | src/api/apiService.ts:111 | any id read back from a URL rebuilds that same URL |
| ApiService.DownloadUrlRoundTrip | src/api/apiService.ts:111 | reading the id back from a download URL gives the uuid it was built from |
| ApiService.DownloadUrlInjective | src/api/apiService.ts:111 | two different files never share a download URL |
| ApiService.DownloadFilename | src/api/apiService.ts:114 | the desired name when non-empty, else `download_<uuid>`; never empty |
| ApiService.DownloadResultFile | src/api/apiService.ts:110-114 | the link points at the file's download URL and suggests a non-empty name, the desired one when given |
| Text.LastSegment | src/components/YouTubeDownloader.tsx:61 | the result holds no '/' and is preceded by a '/' in the path unless it is the whole path |
| Text.LastSegmentIsSuffix | src/components/YouTubeDownloader.tsx:61 | the last segment is the tail end of the path |
| Text.FileNameFromPath | src/components/YouTubeDownloader.tsx:61 | the last '/'-segment of the path when that is non-empty, the fallback otherwise; so never empty with a non-empty fallback, and free of '/' with a fallback free of '/' |
| Text.LastSegmentOfJoin | src/components/YouTubeDownloader.tsx:61 | the path `dir/name` yields `name` |
| Text.FileNameFromPathOfJoin | src/components/InstagramConverter.tsx:84 | a path ending in a non-empty name never falls back |
| Text.BeforeLastDot | src/components/VideoUploader.tsx:157-159 | the result is the prefix before the last '.', which has no '.' after it; empty when there is no '.' |
| Text.BeforeLastDotOfJoin | src/components/VideoUploader.tsx:157-159 | `base.ext` with a '.'-free extension gives back `base` |
| Text.TrailingPlainRun | src/components/InstagramConverter.tsx:111 | the longest suffix free of '/' and '.': every character in it is plain, and the one before it is not |
| Text.StripExtension | src/components/InstagramConverter.tsx:111 | the result is either the input or the input minus a final `.ext` whose ext is non-empty and holds no '/' or '.' |
| Text.StripExtensionOfJoin | src/components/InstagramConverter.tsx:111 | `base.ext` strips to exactly `base` |
| Text.StripExtensionWithoutDot | src/components/InstagramConverter.tsx:111 | a name without '.' is left alone |
| Text.TrimStart | src/components/ShortsEditor.tsx:185 | a suffix of the input that does not start with whitespace, and every character removed is whitespace or a line terminator |
| Text.TrimEnd | src/components/ShortsEditor.tsx:185 | a prefix of the input that does not end with whitespace, and every character removed is whitespace or a line terminator |
| Text.Trim | src/components/ShortsEditor.tsx:185 | `trim()` is no longer than its input and, when non-empty, neither starts nor ends with whitespace; that it is the input with only whitespace cut from both ends is `Text.TrimIsInfix` |
| Text.TrimStartEmptyIffBlank | src/components/ShortsEditor.tsx:185 | trimming the front leaves nothing exactly when the text is all whitespace |
| Text.TrimEndEmptyIffBlank | src/components/ShortsEditor.tsx:185 | trimming the back leaves nothing exactly when the text is all whitespace |
| Text.TrimEmptyIffBlank | src/components/ShortsEditor.tsx:185 | `trim()` is empty exactly when every character is whitespace or a line terminator |
| Text.TrimIsInfix | src/components/ShortsEditor.tsx:185 | `trim()` is the infix of the input that starts where the leading whitespace ends; every character cut before or after it is whitespace or a line terminator |
| Text.NatToDecimal | src/components/ShortsEditor.tsx:197 | non-empty decimal digits without a leading zero |
| Text.DecimalRoundTrip | src/components/ShortsEditor.tsx:197 | the rendered timestamp reads back as the same number |
| YouTubeDownloader.RenderMatches | src/components/YouTubeDownloader.tsx:32 | a link built from scheme, `www.`, host, kind, id and tail is accepted exactly when id and tail pass |
| YouTubeDownloader.RenderAccepted | src/components/YouTubeDownloader.tsx:32 | every link with an 11-character `[A-Za-z0-9_-]` id and a tail that is empty or `&`/`?` then one line is accepted |
| YouTubeDownloader.AcceptedIsWellFormed | src/components/YouTubeDownloader.tsx:31-34 | every accepted URL is such a link, rendered |
| YouTubeDownloader.ValidateYouTubeUrlIff | src/components/YouTubeDownloader.tsx:31-34 | the recogniser accepts exactly the well-formed links |
| YouTubeDownloader.RejectsWrongIdLength | src/components/YouTubeDownloader.tsx:32 | an id of any length other than 11 (10, 12, …) is refused |
| YouTubeDownloader.IdTooLong | src/components/YouTubeDownloader.tsx:32 | an id longer than 11 characters never matches, whatever follows |
| YouTubeDownloader.IdTooShort | src/components/YouTubeDownloader.tsx:32 | an id shorter than 11 characters never matches |
| YouTubeDownloader.RejectsMissingScheme | src/components/YouTubeDownloader.tsx:32 | any address that starts with neither `http://` nor `https://` is refused |
| YouTubeDownloader.RejectsBareHost | src/components/YouTubeDownloader.tsx:32 | in particular `youtube.com/…` and `www.youtube.com/…` without a scheme are refused |
| YouTubeDownloader.ValidateYouTubeUrl | src/components/YouTubeDownloader.tsx:30-33 | the anchored pattern: scheme, optional `www.`, `youtube.com/`, `watch?v=` or `shorts/`, an 11-character id, then nothing or a tail opened by `&` or `?`; its meaning is stated by `ValidateYouTubeUrlIff` |
| YouTubeDownloader.RejectsShortHost | src/components/YouTubeDownloader.tsx:32 | `youtu.be` links are refused |
| YouTubeDownloader.VideoFileName | src/components/YouTubeDownloader.tsx:61 | the last segment of the server path, else `youtube_video_<id>.mp4`; never empty |
| YouTubeDownloader.AudioFileName | src/components/YouTubeDownloader.tsx:75 | the last segment of the server path, else `extracted_audio_<uuid>.mp3`; never empty |
| YouTubeDownloader.Downloader.constructor | src/components/YouTubeDownloader.tsx:17-27 | empty URL, flags false, progress 0, no results |
| YouTubeDownloader.Downloader.SetVideoUrl | src/components/YouTubeDownloader.tsx:127 | the field takes the typed value |
| YouTubeDownloader.Downloader.ProcessYouTubeUrl | src/components/YouTubeDownloader.tsx:36-90 | an empty or invalid URL is refused with no change and no call; otherwise the results are reset; the bar follows the banding; extraction asks for step 1's file id; a failed download leaves no results; a failed extraction keeps the video and leaves no audio; flags end false |
| YouTubeDownloader.Downloader.RunJob | src/components/YouTubeDownloader.tsx:46-89 | the job past the URL checks, with the same outcome, call, progress and result guarantees |
| YouTubeDownloader.Downloader.DownloadStep | src/components/YouTubeDownloader.tsx:46-65 | the reset plus step 1: bar 0, 10 (then 50 on success); the video id and name are kept on success and cleared on failure |
| YouTubeDownloader.Downloader.ExtractStep | src/components/YouTubeDownloader.tsx:67-89 | step 2: bar 60 (then 100 on success); the audio uuid and name are set on success; flags end false |
| YouTubeDownloader.Downloader.AudioDownload | src/components/YouTubeDownloader.tsx:92-98 | a link exactly when both the audio uuid and its name are set, pointing at that uuid under that name |
| YouTubeDownloader.Downloader.VideoDownload | src/components/YouTubeDownloader.tsx:100-106 | a link exactly when both the video id and its name are set, pointing at that id under that name |
| InstagramConverter.RenderMatches | src/components/InstagramConverter.tsx:33 | a link built from optional scheme, `www.`, host, kind, slug and rest is accepted exactly when it continues with a slug character |
| InstagramConverter.RenderAccepted | src/components/InstagramConverter.tsx:33 | every link with a non-empty `[A-Za-z0-9_-]` slug is accepted, whatever trails it |
| InstagramConverter.AcceptedIsWellFormed | src/components/InstagramConverter.tsx:32-35 | every accepted address is such a link, rendered |
| InstagramConverter.ValidateInstagramUrlIff | src/components/InstagramConverter.tsx:32-35 | the recogniser accepts exactly the well-formed links, as a prefix match |
| InstagramConverter.ValidateInstagramUrl | src/components/InstagramConverter.tsx:32-34 | the unanchored-at-the-end pattern: optional scheme, optional `www.`, `instagram.com/`, one of `p`, `reel`, `tv`, `stories`, `/`, then at least one slug character; its meaning is stated by `ValidateInstagramUrlIff` |
| InstagramConverter.RejectsMissingSlug | src/components/InstagramConverter.tsx:33 | a link ending right after the kind is refused |
| InstagramConverter.RejectsBadSlugStart | src/components/InstagramConverter.tsx:33 | a slug that starts outside `[A-Za-z0-9_-]` is refused |
| InstagramConverter.TypeName | src/components/InstagramConverter.tsx:49-52 | every type has a non-empty name |
| InstagramConverter.ClassifiedByPathKind | src/components/InstagramConverter.tsx:49-52 | `/reel/` links are Reels; `/tv/` links are IGTV unless `/reel/` appears; `/stories/` links are Stories unless an earlier marker appears |
| InstagramConverter.ClassifyInstagramType | src/components/InstagramConverter.tsx:49-52 | Reel exactly when `/reel/` occurs; IGTV exactly when `/tv/` occurs and `/reel/` does not; Story exactly when `/stories/` occurs and neither earlier marker does; Post otherwise |
| InstagramConverter.InfoTitle | src/components/InstagramConverter.tsx:53 | the title is `Instagram <type>` |
| InstagramConverter.InfoTitleInjective | src/components/InstagramConverter.tsx:49-53 | different media types never share a title |
| InstagramConverter.AudioBaseName | src/components/InstagramConverter.tsx:111 | the stripped title, or `instagram_video` when that is empty; never empty |
| InstagramConverter.AudioDownloadName | src/components/InstagramConverter.tsx:111-112 | exactly `AudioBaseName(title)` + `_audio.` + the format, so longer than 7 characters |
| InstagramConverter.AudioNameOfTitle | src/components/InstagramConverter.tsx:111-112 | title `base.ext` downloads as `base_audio.<format>` |
| InstagramConverter.AudioNameOfBareExtension | src/components/InstagramConverter.tsx:111 | a title that is only `.ext` falls back to `instagram_video_audio.<format>` |
| InstagramConverter.Converter.constructor | src/components/InstagramConverter.tsx:18-28 | empty URL, format mp3, flags false, progress 0, no results |
| InstagramConverter.Converter.SetVideoUrl | src/components/InstagramConverter.tsx:138 | the field takes the typed value |
| InstagramConverter.Converter.SetAudioFormat | src/components/InstagramConverter.tsx:171 | the field takes the chosen format |
| InstagramConverter.Converter.FetchVideoInfo | src/components/InstagramConverter.tsx:38-60 | an invalid URL is refused with no change; otherwise the results are cleared and the info holds the guessed type and its title |
| InstagramConverter.Converter.DownloadAndExtractAudio | src/components/InstagramConverter.tsx:63-107 | invalid URLs are refused with no change; a valid one always fails with the placeholder's message, one call, bar 0, 10, flags false, nothing kept |
| InstagramConverter.Converter.RunJob | src/components/InstagramConverter.tsx:69-106 | for any step-1 outcome: banding, id hand-off to extraction, title from the server path, and what a failure leaves |
| InstagramConverter.Converter.DownloadStep | src/components/InstagramConverter.tsx:69-86 | the reset plus step 1: bar 0, 10 (then 50); id and info kept on success and cleared on failure |
| InstagramConverter.Converter.ExtractStep | src/components/InstagramConverter.tsx:88-106 | step 2: bar 60 (then 100); the audio uuid is set on success; flags end false |
| InstagramConverter.Converter.DownloadResult | src/components/InstagramConverter.tsx:109-116 | a link exactly when the audio uuid and the info are both held, named `<stripped title>_audio.<format>` |
| VideoUploader.NeedsUpload | src/components/VideoUploader.tsx:99 | the file is uploaded when no id is held or the stored name differs from the selected file's name |
| VideoUploader.NameCheckRedundant | src/components/VideoUploader.tsx:99 | while the card is consistent, it uploads exactly when it holds no file id |
| VideoUploader.OtherNameForcesUpload | src/components/VideoUploader.tsx:99 | a stored name other than the file's forces an upload |
| VideoUploader.AudioDownloadName | src/components/VideoUploader.tsx:157-160 | the name before the last '.', plus `_audio.<format>` |
| VideoUploader.AudioNameOfFile | src/components/VideoUploader.tsx:157-160 | `clip.mp4` downloads as `clip_audio.<format>` |
| VideoUploader.AudioNameWithoutDot | src/components/VideoUploader.tsx:157-160 | a name without '.' downloads as `_audio.<format>` |
| VideoUploader.UploadedId | src/components/VideoUploader.tsx:107 | the id of a successful upload; none for a failed one |
| VideoUploader.Uploader.constructor | src/components/VideoUploader.tsx:16-26 | nothing selected, format mp3, flags false, the stored name as found, consistent |
| VideoUploader.Uploader.SetAudioFormat | src/components/VideoUploader.tsx:221 | the field takes the chosen format |
| VideoUploader.Uploader.SelectFile | src/components/VideoUploader.tsx:31-76 | no file changes nothing; over 50 MiB clears the selection and the id but keeps the audio; otherwise selects the file and clears the id and the audio; consistency holds after |
| VideoUploader.Uploader.ExtractAudioProcess | src/components/VideoUploader.tsx:82-153 | no file is refused with no change; the upload happens exactly when needed and comes first; a failed upload drops the id and keeps the stored name; a successful one records the name; extraction uses the uploaded or reused id, and a missing id fails; flags end false; consistency kept |
| VideoUploader.Uploader.UploadStep | src/components/VideoUploader.tsx:99-111 | the bar follows the upload's reports, then 100 on success, when the id and the file's name are stored |
| VideoUploader.Uploader.ExtractStep | src/components/VideoUploader.tsx:117-152 | a missing id fails with "Failed to get a file ID for the video." and no call; otherwise one extraction from that id; any failure drops the id; flags end false |
| VideoUploader.Uploader.DownloadExtractedAudio | src/components/VideoUploader.tsx:155-164 | a link exactly when the audio uuid and a file are both held, named after the file |
| ShortsEditor.NewEntry | src/components/ShortsEditor.tsx:89 | a new entry carries its id, file and name, no backend id, progress 0, uploading |
| ShortsEditor.Admit | src/components/ShortsEditor.tsx:82-90 | never more entries than picked files |
| ShortsEditor.AdmitMembers | src/components/ShortsEditor.tsx:82-89 | every admitted entry is a new entry within 10 MiB carrying one of the drawn ids |
| ShortsEditor.AdmitConcat | src/components/ShortsEditor.tsx:82-90 | a batch admits what its halves admit, in order |
| ShortsEditor.AdmitOne | src/components/ShortsEditor.tsx:83-89 | one image is admitted exactly when it is at most 10 MiB |
| ShortsEditor.AdmitsEverySmallImage | src/components/ShortsEditor.tsx:82-90 | every image within the limit is admitted, whatever else the batch holds |
| ShortsEditor.AdmitsWholeSmallBatch | src/components/ShortsEditor.tsx:82-90 | a batch without oversize images is admitted whole |
| ShortsEditor.AdmitUniqueIds | src/components/ShortsEditor.tsx:87 | distinct drawn ids stay distinct among admitted entries |
| ShortsEditor.Apply | src/components/ShortsEditor.tsx:103-118 | progress sets only the percent; success sets the backend id, not uploading, 100; failure sets not uploading, -1 and keeps the backend id; id, file and name never change |
| ShortsEditor.UpdateEntry | src/components/ShortsEditor.tsx:103-117 | the list keeps its length |
| ShortsEditor.UpdateOnlyMatching | src/components/ShortsEditor.tsx:108-112 | only entries with the callback's id change, as the callback says; every entry keeps its id, file and place |
| ShortsEditor.UpdateMissingId | src/components/ShortsEditor.tsx:108-112 | an id no entry carries changes nothing |
| ShortsEditor.UpdateSole | src/components/ShortsEditor.tsx:108-112 | with that id held by one entry only, exactly that entry is rewritten, in place |
| ShortsEditor.UpdatesCommute | src/components/ShortsEditor.tsx:103-118 | callbacks for two different ids commute |
| ShortsEditor.UpdateKeepsInvariant | src/components/ShortsEditor.tsx:103-118 | updates keep ids unique and sizes within the limit |
| ShortsEditor.UploadUpdate | src/components/ShortsEditor.tsx:100-118 | an entry is marked uploaded, with the returned id, exactly when its upload succeeded |
| ShortsEditor.SucceededCount | src/components/ShortsEditor.tsx:113 | never more successes than uploads |
| ShortsEditor.NoSuccessIffAllFailed | src/components/ShortsEditor.tsx:122 | the count is zero exactly when every upload failed |
| ShortsEditor.WithoutId | src/components/ShortsEditor.tsx:133 | removal never lengthens the list |
| ShortsEditor.WithoutIdMembers | src/components/ShortsEditor.tsx:133 | what is left is exactly the entries with another id |
| ShortsEditor.WithoutIdConcat | src/components/ShortsEditor.tsx:133 | removal works piecewise, so the order of the rest is kept |
| ShortsEditor.WithoutMissingId | src/components/ShortsEditor.tsx:133 | removing an id nobody carries changes nothing |
| ShortsEditor.RemoveAt | src/components/ShortsEditor.tsx:133 | removing an id held by one entry drops exactly that entry, keeping the others' order |
| ShortsEditor.RemoveSole | src/components/ShortsEditor.tsx:133 | removing an entry whose id nobody else holds gives the entries before it followed by those after it |
| ShortsEditor.IdOnlyAt | src/components/ShortsEditor.tsx:133 | an id held only at one position occurs neither before nor after it |
| ShortsEditor.WithoutIdKeepsUniqueIds | src/components/ShortsEditor.tsx:133 | removal keeps ids unique |
| ShortsEditor.UsableEntries | src/components/ShortsEditor.tsx:171 | every picked entry has a backend id and no failure mark |
| ShortsEditor.UsableEntriesMembers | src/components/ShortsEditor.tsx:171 | the picked entries are exactly the usable entries of the list |
| ShortsEditor.UsableEntriesConcat | src/components/ShortsEditor.tsx:171 | picking works piecewise, so list order is kept |
| ShortsEditor.BackendIds | src/components/ShortsEditor.tsx:195 | one non-empty id per entry, each that entry's backend id, in order |
| ShortsEditor.OutputFilename | src/components/ShortsEditor.tsx:197 | `short_video_`, then digits that read back as the timestamp, then `.mp4` |
| ShortsEditor.BuildCreateVideoRequest | src/components/ShortsEditor.tsx:171-204 | refused without a usable image, then without an audio id, and built exactly when both are there; the image ids are the usable entries' backend ids in list order; the image display and transition durations as set, the music start and segment duration left unset; fps 24; the output name; texts are null exactly when the overlay text is blank, else one overlay with style and position and no image index; aspect ratio and animations as set |
| ShortsEditor.FailedEntryExcluded | src/components/ShortsEditor.tsx:171 | a failed upload never reaches the request, even with an id |
| ShortsEditor.CreatedVideoName | src/components/ShortsEditor.tsx:222 | `created_short_` + the first 8 characters of the uuid (all of it when shorter) + `.mp4` |
| ShortsEditor.CreatedVideoNamePrefix | src/components/ShortsEditor.tsx:222 | two uuids of at least 8 characters that give the same file name share their first 8 characters |
| ShortsEditor.AdmitBatch | src/components/ShortsEditor.tsx:81-90 | the loop builds exactly the admitted entries |
| ShortsEditor.Settled | src/components/ShortsEditor.tsx:98-119 | one settled entry per fresh entry |
| ShortsEditor.SettledUsable | src/components/ShortsEditor.tsx:107-118 | a fresh entry becomes usable exactly when its upload succeeded with a non-empty id |
| ShortsEditor.Usable | src/components/ShortsEditor.tsx:171 | an image counts for the video when it has a non-empty backend id and its upload did not fail (progress -1) |
| ShortsEditor.Editor.IsOverallProcessing | src/components/ShortsEditor.tsx:226-227 | the editor is busy while any image is uploading, the audio is uploading, or the video is being created; the three handlers below leave an idle editor idle |
| ShortsEditor.SettledNotUploading | src/components/ShortsEditor.tsx:98-119 | no settled entry is still uploading |
| ShortsEditor.SettledFinished | src/components/ShortsEditor.tsx:98-119 | once settled no fresh entry is uploading, and each keeps its id and file |
| ShortsEditor.PartlySettled | src/components/ShortsEditor.tsx:98-119 | the list part way through the loop keeps its length |
| ShortsEditor.SettleStep | src/components/ShortsEditor.tsx:108-118 | settling the k-th fresh entry by its id advances the list by exactly one entry |
| ShortsEditor.UploadCalls | src/components/ShortsEditor.tsx:98-100 | one upload call per fresh entry |
| ShortsEditor.SettleUpload | src/components/ShortsEditor.tsx:108-118 | one settled upload advances the loop's list by one entry |
| ShortsEditor.UploadCallsStep | src/components/ShortsEditor.tsx:98-100 | one more fresh entry adds its upload call at the end |
| ShortsEditor.UploadBatch | src/components/ShortsEditor.tsx:98-120 | uploads run one after another in list order; the list ends as the old entries followed by the settled fresh ones; successes are counted |
| ShortsEditor.AppendKeepsInvariant | src/components/ShortsEditor.tsx:96-119 | appending and settling a batch with fresh ids keeps ids unique and sizes within the limit |
| ShortsEditor.AppendUniqueIds | src/components/ShortsEditor.tsx:96 | two lists with unique ids and no shared id join into one with unique ids |
| ShortsEditor.SettlingKeepsInvariant | src/components/ShortsEditor.tsx:98-119 | settling keeps every id and file, so the invariant holds on |
| ShortsEditor.Editor.constructor | src/components/ShortsEditor.tsx:33-49 | empty list, no audio, default settings, flags false, valid |
| ShortsEditor.Editor.SetSettings | src/components/ShortsEditor.tsx:333-404 | the form fields take the given values |
| ShortsEditor.Editor.HandleImageFilesSelect | src/components/ShortsEditor.tsx:66-126 | no files changes nothing; a batch taking the list over five is refused whole with no change; otherwise the admitted entries are appended in order, uploaded one per call and settled, and the flag ends false; validity is kept; an editor idle before is idle after |
| ShortsEditor.Editor.ReportImageProgress | src/components/ShortsEditor.tsx:101-106 | only the entry with that id takes the percent; validity kept |
| ShortsEditor.Editor.RemoveImage | src/components/ShortsEditor.tsx:128-134 | the list becomes the list without that id; validity kept |
| ShortsEditor.Editor.HandleAudioFileSelect | src/components/ShortsEditor.tsx:136-168 | no file changes nothing; over 20 MiB is refused before any upload; otherwise one upload; success keeps the file and its id; failure clears both; the flag ends false; an editor idle before is idle after |
| ShortsEditor.Editor.CreateShortVideo | src/components/ShortsEditor.tsx:170-218 | refused with no change and no call unless the request can be built; otherwise sends exactly that request; the uuid is kept on success and cleared on failure; the flag ends false; an editor idle before is idle after |
| ShortsEditor.Editor.DownloadCreatedVideo | src/components/ShortsEditor.tsx:220-224 | a link exactly when a video uuid is held, pointing at it and named `created_short_<8 chars>.mp4` |
| ShortsEditor.UploadErrorText | src/components/ShortsEditor.tsx:161 | the error's `message`, else `Could not upload <name>.`; never empty |
| ShortsEditor.ServerDetailNotShown | src/components/ShortsEditor.tsx:161 | a server body with only `detail` is not shown; the text falls back to the file name |

## Left out

- HTTP, axios and the request bodies on the wire. Each call is the settled outcome given to the handler.
- The DOM work of `downloadResultFile`: creating, clicking and removing the anchor. The model returns the link's address and name.
- Toasts, JSX, icons, styling and console logging. A toast is the handler's `outcome`.
- src/pages/Index.tsx is not part of this model. It is static layout.
- backend_api/audio_extract.py is not part of this model. It runs on the server.
- `Math.round` of progress percentages. The upload's progress reports are given to the handler as integers. In the video upload at src/components/VideoUploader.tsx:103 the percentage is computed without checking that `progressEvent.total` is known (unlike src/components/ShortsEditor.tsx:101 and :152), so an unknown total puts `NaN` on the bar; integer reports cannot express that value.
- The Shorts editor's image progress callbacks arrive during an upload; they are the separate method `ReportImageProgress`. `UploadBatch` settles each upload in one step and does not replay them.
- ShortsEditor.BuildCreateVideoRequest: passes the two durations through as reals. `parseFloat(x.toFixed(1))` rounding to one decimal is floating point and is not modelled.
- `setTimeout` delays (the Instagram info step and the placeholder's 500 ms). Each handler runs as one sequential step.
- Async interleaving and React state batching are left out. A handler cannot run beside another one, and the list cannot change between a batch's append and its uploads.
- Object URLs, their revocation and the `useEffect` cleanup are browser resources and are not modelled.
- `localStorage` is the field `lastUploadedName`. The constructor takes what storage holds, and the model does not share it between cards or tabs.
- `uuidv4` and `Date.now` are inputs. The handler is given one id per picked file, and the model requires those ids to be distinct and unused in the list. Ids given for oversize files are ignored.
- The trim start/end fields of the uploader are not modelled. They are never sent.
- ShortsEditor.Editor.HandleImageFilesSelect: does not model the per-image and batch toasts. `successes` gives the count the batch toast shows.
- The durations' own `parseFloat(e.target.value) || 3.0` form parsing is left out. `SetSettings` takes the parsed values.
