/**
 * The Shorts editor: up to five uploaded images plus one background track are
 * turned into a short video by the backend. The image list is ordered and keyed
 * by a client-side id; every upload callback updates the entry with its id only.
 */
module ShortsEditor {
  import opened Common
  import opened ApiTypes
  import opened Text
  import opened ApiService

  const MaxImagesAllowed: nat := 5
  const MaxImageBytes: nat := 10 * 1024 * 1024
  const MaxAudioBytes: nat := 20 * 1024 * 1024

  /** The progress value that marks a failed image upload. */
  const FailedProgress: int := -1

  /** The `uuidv4()` drawn for a picked image. */
  type ClientId = string

  /** One picked image; the preview object URL is not modelled. */
  datatype ImageEntry = ImageEntry(
    clientId: ClientId,
    file: LocalFile,
    name: string,
    backendFileId: Option<string>,
    uploadProgress: int,
    isUploading: bool)

  /** The entry pushed for a picked image before its upload starts. */
  function NewEntry(file: LocalFile, clientId: ClientId): (e: ImageEntry)
    ensures e.clientId == clientId && e.file == file && e.name == file.name
    ensures e.backendFileId == None && e.uploadProgress == 0 && e.isUploading
  {
    ImageEntry(clientId, file, file.name, None, 0, true)
  }

  predicate UniqueIds(s: seq<ImageEntry>) {
    forall i, j :: 0 <= i < |s| && 0 <= j < |s| && i != j ==> s[i].clientId != s[j].clientId
  }

  predicate WithinImageLimit(s: seq<ImageEntry>) {
    forall e :: e in s ==> e.file.size <= MaxImageBytes
  }

  // ---------------------------------------------------------------------------
  // Admission of a batch

  /**
   * The entries a batch of picked images turns into, `freshIds[i]` being the
   * client id drawn for `files[i]`: the images in picking order, those over
   * 10 MiB skipped one by one.
   */
  function Admit(files: seq<LocalFile>, freshIds: seq<ClientId>): (entries: seq<ImageEntry>)
    requires |freshIds| == |files|
    ensures |entries| <= |files|
  {
    if files == [] then []
    else
      var n := |files| - 1;
      Admit(files[..n], freshIds[..n]) + (if files[n].size > MaxImageBytes then [] else [NewEntry(files[n], freshIds[n])])
  }

  /** Every admitted entry is a fresh entry, within the limit, carrying one of the drawn ids. */
  lemma {:induction false} AdmitMembers(files: seq<LocalFile>, freshIds: seq<ClientId>)
    requires |freshIds| == |files|
    ensures WithinImageLimit(Admit(files, freshIds))
    ensures forall e :: e in Admit(files, freshIds) ==> e.clientId in freshIds && e == NewEntry(e.file, e.clientId)
    decreases |files|
  {
    if files != [] {
      var n := |files| - 1;
      AdmitMembers(files[..n], freshIds[..n]);
      assert forall x :: x in freshIds[..n] ==> x in freshIds;
    }
  }

  /** Admission treats every image on its own: a batch admits what its halves admit, in order. */
  lemma {:induction false} AdmitConcat(f1: seq<LocalFile>, i1: seq<ClientId>, f2: seq<LocalFile>, i2: seq<ClientId>)
    requires |i1| == |f1| && |i2| == |f2|
    ensures Admit(f1 + f2, i1 + i2) == Admit(f1, i1) + Admit(f2, i2)
    decreases |f2|
  {
    if f2 == [] {
      assert f1 + f2 == f1 && i1 + i2 == i1;
    } else {
      var n := |f2| - 1;
      AdmitConcat(f1, i1, f2[..n], i2[..n]);
      assert (f1 + f2)[..|f1| + n] == f1 + f2[..n];
      assert (i1 + i2)[..|i1| + n] == i1 + i2[..n];
    }
  }

  /** A single image is admitted exactly when it is at most 10 MiB. */
  lemma AdmitOne(file: LocalFile, clientId: ClientId)
    ensures Admit([file], [clientId]) == if file.size > MaxImageBytes then [] else [NewEntry(file, clientId)]
  {
    assert [file][..0] == [] && [clientId][..0] == [];
  }

  /** Every image within the limit is admitted, whatever else the batch holds. */
  lemma AdmitsEverySmallImage(files: seq<LocalFile>, freshIds: seq<ClientId>, i: nat)
    requires |freshIds| == |files| && i < |files| && files[i].size <= MaxImageBytes
    ensures NewEntry(files[i], freshIds[i]) in Admit(files, freshIds)
  {
    assert files == files[..i] + [files[i]] + files[i + 1..];
    assert freshIds == freshIds[..i] + [freshIds[i]] + freshIds[i + 1..];
    AdmitConcat(files[..i], freshIds[..i], [files[i]], [freshIds[i]]);
    AdmitConcat(files[..i] + [files[i]], freshIds[..i] + [freshIds[i]], files[i + 1..], freshIds[i + 1..]);
    AdmitOne(files[i], freshIds[i]);
  }

  /** A batch with no image over the limit is admitted whole. */
  lemma {:induction false} AdmitsWholeSmallBatch(files: seq<LocalFile>, freshIds: seq<ClientId>)
    requires |freshIds| == |files|
    requires forall f :: f in files ==> f.size <= MaxImageBytes
    ensures |Admit(files, freshIds)| == |files|
    decreases |files|
  {
    if files != [] {
      var n := |files| - 1;
      assert files[n] in files;
      forall f | f in files[..n] ensures f.size <= MaxImageBytes {
        assert f in files;
      }
      AdmitsWholeSmallBatch(files[..n], freshIds[..n]);
    }
  }

  /** Distinct fresh ids stay distinct among the admitted entries. */
  lemma {:induction false} AdmitUniqueIds(files: seq<LocalFile>, freshIds: seq<ClientId>)
    requires |freshIds| == |files|
    requires forall i, j :: 0 <= i < j < |freshIds| ==> freshIds[i] != freshIds[j]
    ensures UniqueIds(Admit(files, freshIds))
    decreases |files|
  {
    if files != [] {
      var n := |files| - 1;
      AdmitUniqueIds(files[..n], freshIds[..n]);
      AdmitMembers(files[..n], freshIds[..n]);
      var front := Admit(files[..n], freshIds[..n]);
      forall e | e in front ensures e.clientId != freshIds[n] {
        var k :| 0 <= k < n && freshIds[..n][k] == e.clientId;
      }
    }
  }

  // ---------------------------------------------------------------------------
  // Per-entry updates

  /** What an upload callback does to one entry. */
  datatype EntryUpdate =
    | Progress(percent: int)
    | Uploaded(fileId: string)
    | UploadFailed

  /** The `{ ...img, ... }` spread of each callback. */
  function Apply(e: ImageEntry, u: EntryUpdate): (r: ImageEntry)
    ensures r.clientId == e.clientId && r.file == e.file && r.name == e.name
    ensures u.Progress? ==> r == e.(uploadProgress := u.percent)
    ensures u.Uploaded? ==> r.backendFileId == Some(u.fileId) && !r.isUploading && r.uploadProgress == 100
    ensures u.UploadFailed? ==> r.backendFileId == e.backendFileId && !r.isUploading && r.uploadProgress == FailedProgress
  {
    match u
    case Progress(p) => e.(uploadProgress := p)
    case Uploaded(id) => e.(backendFileId := Some(id), isUploading := false, uploadProgress := 100)
    case UploadFailed => e.(isUploading := false, uploadProgress := FailedProgress)
  }

  /** `prev.map(img => img.clientId === clientId ? update(img) : img)`. */
  function UpdateEntry(s: seq<ImageEntry>, clientId: ClientId, u: EntryUpdate): (r: seq<ImageEntry>)
    ensures |r| == |s|
  {
    seq(|s|, i requires 0 <= i < |s| => if s[i].clientId == clientId then Apply(s[i], u) else s[i])
  }

  /**
   * Only the entries with the callback's id change, each as the callback says;
   * every entry keeps its id, its file and its place.
   */
  lemma UpdateOnlyMatching(s: seq<ImageEntry>, clientId: ClientId, u: EntryUpdate)
    ensures forall i :: 0 <= i < |s| ==>
              && UpdateEntry(s, clientId, u)[i].clientId == s[i].clientId
              && UpdateEntry(s, clientId, u)[i].file == s[i].file
              && (s[i].clientId != clientId ==> UpdateEntry(s, clientId, u)[i] == s[i])
              && (s[i].clientId == clientId ==> UpdateEntry(s, clientId, u)[i] == Apply(s[i], u))
  {
  }

  /** An id no entry carries changes nothing. */
  lemma UpdateMissingId(s: seq<ImageEntry>, clientId: ClientId, u: EntryUpdate)
    requires forall e :: e in s ==> e.clientId != clientId
    ensures UpdateEntry(s, clientId, u) == s
  {
    forall i | 0 <= i < |s| ensures UpdateEntry(s, clientId, u)[i] == s[i] {
      assert s[i] in s;
    }
  }

  /**
   * When no other entry shares the id at `j` (as with unique ids), an update by
   * that id rewrites exactly the one entry at its position.
   */
  lemma UpdateSole(s: seq<ImageEntry>, j: nat, u: EntryUpdate)
    requires j < |s| && forall i :: 0 <= i < |s| && i != j ==> s[i].clientId != s[j].clientId
    ensures UpdateEntry(s, s[j].clientId, u) == s[j := Apply(s[j], u)]
  {
  }

  /**
   * Callbacks for two different entries commute, so interleaved upload
   * callbacks of different images leave the same list whatever their order.
   */
  lemma UpdatesCommute(s: seq<ImageEntry>, a: ClientId, u: EntryUpdate, b: ClientId, v: EntryUpdate)
    requires a != b
    ensures UpdateEntry(UpdateEntry(s, a, u), b, v) == UpdateEntry(UpdateEntry(s, b, v), a, u)
  {
  }

  /** Updates keep the list's ids, hence its uniqueness and its size bound. */
  lemma UpdateKeepsInvariant(s: seq<ImageEntry>, clientId: ClientId, u: EntryUpdate)
    requires UniqueIds(s) && WithinImageLimit(s)
    ensures UniqueIds(UpdateEntry(s, clientId, u)) && WithinImageLimit(UpdateEntry(s, clientId, u))
  {
    var r := UpdateEntry(s, clientId, u);
    UpdateOnlyMatching(s, clientId, u);
    forall e | e in r ensures e.file.size <= MaxImageBytes {
      var i :| 0 <= i < |r| && r[i] == e;
      assert s[i] in s;
    }
  }

  /** The update an upload's settled outcome makes to its entry. */
  function UploadUpdate(upload: Result<UploadFileResponse, TransportError>): (u: EntryUpdate)
    ensures upload.Success? <==> u.Uploaded?
    ensures upload.Success? ==> u == Uploaded(upload.value.fileId)
  {
    var r := UploadFileResult(upload);
    if r.Success? then Uploaded(r.value.fileId) else UploadFailed
  }

  /** How many of these uploads succeeded. */
  function SucceededCount(uploads: seq<Result<UploadFileResponse, TransportError>>): (n: nat)
    ensures n <= |uploads|
  {
    if uploads == [] then 0
    else
      var m := |uploads| - 1;
      SucceededCount(uploads[..m]) + (if uploads[m].Success? then 1 else 0)
  }

  /** The batch toast is skipped exactly when every upload of the batch failed. */
  lemma {:induction false} NoSuccessIffAllFailed(uploads: seq<Result<UploadFileResponse, TransportError>>)
    ensures SucceededCount(uploads) == 0 <==> forall k :: 0 <= k < |uploads| ==> uploads[k].Failure?
    decreases |uploads|
  {
    if uploads != [] {
      var m := |uploads| - 1;
      NoSuccessIffAllFailed(uploads[..m]);
      assert forall k :: 0 <= k < m ==> uploads[..m][k] == uploads[k];
    }
  }

  // ---------------------------------------------------------------------------
  // Removal

  /** `prev.filter(img => img.clientId !== clientId)`. */
  function WithoutId(s: seq<ImageEntry>, clientId: ClientId): (r: seq<ImageEntry>)
    ensures |r| <= |s|
  {
    if s == [] then []
    else if s[0].clientId == clientId then WithoutId(s[1..], clientId)
    else [s[0]] + WithoutId(s[1..], clientId)
  }

  /** What is left is exactly the entries with another id. */
  lemma {:induction false} WithoutIdMembers(s: seq<ImageEntry>, clientId: ClientId)
    ensures forall e :: e in WithoutId(s, clientId) <==> e in s && e.clientId != clientId
    decreases |s|
  {
    if s != [] {
      WithoutIdMembers(s[1..], clientId);
      assert s == [s[0]] + s[1..];
    }
  }

  /** Removal works piecewise, so the entries kept stay in their order. */
  lemma {:induction false} WithoutIdConcat(a: seq<ImageEntry>, b: seq<ImageEntry>, clientId: ClientId)
    ensures WithoutId(a + b, clientId) == WithoutId(a, clientId) + WithoutId(b, clientId)
    decreases |a|
  {
    if a == [] {
      assert a + b == b;
    } else {
      assert (a + b)[0] == a[0] && (a + b)[1..] == a[1..] + b;
      WithoutIdConcat(a[1..], b, clientId);
    }
  }

  /** Removing an id no entry carries leaves the list as it is. */
  lemma {:induction false} WithoutMissingId(s: seq<ImageEntry>, clientId: ClientId)
    requires forall e :: e in s ==> e.clientId != clientId
    ensures WithoutId(s, clientId) == s
    decreases |s|
  {
    if s != [] {
      assert s[0] in s;
      forall e | e in s[1..] ensures e.clientId != clientId {
        assert e in s;
      }
      WithoutMissingId(s[1..], clientId);
      assert s == [s[0]] + s[1..];
    }
  }

  /** When no other entry shares the id at `j`, removing that id drops exactly that entry. */
  lemma RemoveAt(s: seq<ImageEntry>, j: nat)
    requires j < |s| && forall i :: 0 <= i < |s| && i != j ==> s[i].clientId != s[j].clientId
    ensures WithoutId(s, s[j].clientId) == s[..j] + s[j + 1..]
  {
    IdOnlyAt(s, j);
    RemoveSole(s[..j], s[j], s[j + 1..]);
    assert s == s[..j] + [s[j]] + s[j + 1..];
  }

  /** Removing the id of an entry that no other entry shares drops that entry alone. */
  lemma RemoveSole(before: seq<ImageEntry>, e: ImageEntry, after: seq<ImageEntry>)
    requires forall x :: x in before ==> x.clientId != e.clientId
    requires forall x :: x in after ==> x.clientId != e.clientId
    ensures WithoutId(before + [e] + after, e.clientId) == before + after
  {
    WithoutIdConcat(before + [e], after, e.clientId);
    WithoutIdConcat(before, [e], e.clientId);
    WithoutMissingId(before, e.clientId);
    WithoutMissingId(after, e.clientId);
    assert [e][1..] == [];
  }

  /** When no other entry shares the id at `j`, no entry before or after it carries that id. */
  lemma IdOnlyAt(s: seq<ImageEntry>, j: nat)
    requires j < |s| && forall i :: 0 <= i < |s| && i != j ==> s[i].clientId != s[j].clientId
    ensures forall e :: e in s[..j] ==> e.clientId != s[j].clientId
    ensures forall e :: e in s[j + 1..] ==> e.clientId != s[j].clientId
  {
    forall e | e in s[..j] ensures e.clientId != s[j].clientId {
      var i :| 0 <= i < j && s[..j][i] == e;
    }
    forall e | e in s[j + 1..] ensures e.clientId != s[j].clientId {
      var i :| 0 <= i < |s| - j - 1 && s[j + 1..][i] == e;
      assert e == s[j + 1 + i];
    }
  }

  /** Removal keeps ids unique. */
  lemma {:induction false} WithoutIdKeepsUniqueIds(s: seq<ImageEntry>, clientId: ClientId)
    requires UniqueIds(s)
    ensures UniqueIds(WithoutId(s, clientId))
    decreases |s|
  {
    if s != [] {
      var rest := s[1..];
      assert UniqueIds(rest) by {
        forall i, j | 0 <= i < |rest| && 0 <= j < |rest| && i != j ensures rest[i].clientId != rest[j].clientId {
          assert rest[i] == s[i + 1] && rest[j] == s[j + 1];
        }
      }
      WithoutIdKeepsUniqueIds(rest, clientId);
      WithoutIdMembers(rest, clientId);
      if s[0].clientId != clientId {
        var tail := WithoutId(rest, clientId);
        forall e | e in tail ensures e.clientId != s[0].clientId {
          var k :| 0 <= k < |rest| && rest[k] == e;
          assert e == s[k + 1];
        }
        var r := [s[0]] + tail;
        forall i, j | 0 <= i < |r| && 0 <= j < |r| && i != j ensures r[i].clientId != r[j].clientId {
          if i == 0 {
            assert r[j] == tail[j - 1] && tail[j - 1] in tail;
          } else if j == 0 {
            assert r[i] == tail[i - 1] && tail[i - 1] in tail;
          } else {
            assert r[i] == tail[i - 1] && r[j] == tail[j - 1];
          }
        }
      }
    }
  }

  // ---------------------------------------------------------------------------
  // The create-video request

  /** An image that can go into the video: it has a backend id and its upload did not fail. */
  predicate Usable(e: ImageEntry) {
    Present(e.backendFileId) && e.uploadProgress != FailedProgress
  }

  /** `validUploadedImages`: the usable entries, in list order. */
  function UsableEntries(s: seq<ImageEntry>): (r: seq<ImageEntry>)
    ensures |r| <= |s|
    ensures forall i :: 0 <= i < |r| ==> Usable(r[i])
  {
    if s == [] then []
    else if Usable(s[0]) then [s[0]] + UsableEntries(s[1..])
    else UsableEntries(s[1..])
  }

  /** What goes into the video is exactly the usable entries of the list. */
  lemma {:induction false} UsableEntriesMembers(s: seq<ImageEntry>)
    ensures forall e :: e in UsableEntries(s) <==> e in s && Usable(e)
    decreases |s|
  {
    if s != [] {
      UsableEntriesMembers(s[1..]);
      assert s == [s[0]] + s[1..];
    }
  }

  /** Usable entries are picked piecewise, so list order is kept. */
  lemma {:induction false} UsableEntriesConcat(a: seq<ImageEntry>, b: seq<ImageEntry>)
    ensures UsableEntries(a + b) == UsableEntries(a) + UsableEntries(b)
    decreases |a|
  {
    if a == [] {
      assert a + b == b;
    } else {
      assert (a + b)[0] == a[0] && (a + b)[1..] == a[1..] + b;
      UsableEntriesConcat(a[1..], b);
    }
  }

  /** `validUploadedImages.map(img => img.backendFileId!)`. */
  function BackendIds(s: seq<ImageEntry>): (ids: seq<string>)
    requires forall i :: 0 <= i < |s| ==> Usable(s[i])
    ensures |ids| == |s|
    ensures forall i :: 0 <= i < |s| ==> ids[i] != "" && Some(ids[i]) == s[i].backendFileId
  {
    if s == [] then []
    else
      assert Usable(s[0]);
      [s[0].backendFileId.value] + BackendIds(s[1..])
  }

  /** The editor's form fields that go into the request. */
  datatype Settings = Settings(
    memeText: string,
    imageDisplayDuration: real,
    transitionDuration: real,
    videoStyle: TextStyle,
    textPosition: TextPosition,
    aspectRatio: AspectRatio,
    enableAnimations: bool)

  const DefaultSettings: Settings := Settings("", 3.0, 0.5, MemeStyle, Center, Landscape, false)

  /** `short_video_${Date.now()}.mp4`, `now` being the clock reading in milliseconds. */
  function OutputFilename(now: nat): (name: string)
    ensures |name| > 16 && name[..12] == "short_video_"
    ensures forall i :: 12 <= i < |name| - 4 ==> '0' <= name[i] <= '9'
    ensures DecimalValue(name[12..|name| - 4]) == now
    ensures name[|name| - 4..] == ".mp4"
  {
    DecimalRoundTrip(now);
    var name := "short_video_" + NatToDecimal(now) + ".mp4";
    assert name[12..|name| - 4] == NatToDecimal(now);
    name
  }

  /**
   * The checks and the payload of `handleCreateShortVideo`: refused without a
   * usable image, then refused without an audio id; otherwise the usable
   * images' ids in list order, the audio id, 24 fps, and one text overlay
   * spanning every image unless the text is blank.
   */
  function BuildCreateVideoRequest(images: seq<ImageEntry>, audioFileId: Option<string>, settings: Settings, now: nat)
    : (r: Result<CreateVideoRequest, Refusal>)
    ensures UsableEntries(images) == [] ==> r == Failure(NoUploadedImages)
    ensures UsableEntries(images) != [] && !Present(audioFileId) ==> r == Failure(NoAudioUploaded)
    ensures r.Success? <==> UsableEntries(images) != [] && Present(audioFileId)
    ensures r.Success? ==>
              && r.value.imageFileIds == BackendIds(UsableEntries(images)) && |r.value.imageFileIds| >= 1
              && r.value.audioFileId == audioFileId.value
              && r.value.fps == Some(24)
              && r.value.outputFilename == Some(OutputFilename(now))
              && r.value.imageDisplayDuration == Some(settings.imageDisplayDuration)
              && r.value.transitionDuration == Some(settings.transitionDuration)
              && r.value.musicSegmentStartTime == None
              && r.value.audioSegmentDurationFromMusic == None
              && (r.value.texts.None? <==> IsBlank(settings.memeText))
              && (r.value.texts.Some? ==>
                    r.value.texts.value == [TextOverlayData(settings.memeText, Some(settings.videoStyle), None, Some(settings.textPosition))])
              && r.value.videoAspectRatio == Some(settings.aspectRatio)
              && r.value.enableImageAnimations == Some(settings.enableAnimations)
  {
    var usable := UsableEntries(images);
    if usable == [] then Failure(NoUploadedImages)
    else if !Present(audioFileId) then Failure(NoAudioUploaded)
    else
      TrimEmptyIffBlank(settings.memeText);
      var texts := if Trim(settings.memeText) != "" then
        Some([TextOverlayData(settings.memeText, Some(settings.videoStyle), None, Some(settings.textPosition))])
      else None;
      Success(CreateVideoRequest(
        BackendIds(usable), audioFileId.value, Some(OutputFilename(now)),
        Some(settings.imageDisplayDuration), Some(settings.transitionDuration), None, None,
        Some(24), texts, Some(settings.aspectRatio), Some(settings.enableAnimations)))
  }

  /** A failed upload never reaches the request, even if it had an id. */
  lemma FailedEntryExcluded(images: seq<ImageEntry>, e: ImageEntry)
    requires e in images && e.uploadProgress == FailedProgress
    ensures e !in UsableEntries(images)
  {
    UsableEntriesMembers(images);
  }

  /** `created_short_${uuid.substring(0, 8)}.mp4`. */
  function CreatedVideoName(videoUuid: string): (name: string)
    ensures |videoUuid| >= 8 ==> name == "created_short_" + videoUuid[..8] + ".mp4"
    ensures |videoUuid| < 8 ==> name == "created_short_" + videoUuid + ".mp4"
  {
    "created_short_" + (if |videoUuid| >= 8 then videoUuid[..8] else videoUuid) + ".mp4"
  }

  /** The file name carries the first eight characters of the uuid, so it recovers them. */
  lemma CreatedVideoNamePrefix(u: string, v: string)
    requires |u| >= 8 && |v| >= 8
    requires CreatedVideoName(u) == CreatedVideoName(v)
    ensures u[..8] == v[..8]
  {
    var nu, nv := CreatedVideoName(u), CreatedVideoName(v);
    assert nu[14..22] == u[..8];
    assert nv[14..22] == v[..8];
  }

  // ---------------------------------------------------------------------------
  // The upload loops, on values

  /**
   * The `for (const file of filesArray)` loop: an entry for every picked image
   * within the limit, in order.
   */
  method AdmitBatch(files: seq<LocalFile>, freshIds: seq<ClientId>) returns (entries: seq<ImageEntry>)
    requires |freshIds| == |files|
    ensures entries == Admit(files, freshIds)
  {
    entries := [];
    for i := 0 to |files|
      invariant entries == Admit(files[..i], freshIds[..i])
    {
      assert files[..i + 1][..i] == files[..i] && freshIds[..i + 1][..i] == freshIds[..i];
      if files[i].size > MaxImageBytes {
        continue;
      }
      entries := entries + [NewEntry(files[i], freshIds[i])];
    }
    assert files[..|files|] == files && freshIds[..|freshIds|] == freshIds;
  }

  /** The entries once every upload has settled, `uploads[k]` settling `entries[k]`. */
  function Settled(entries: seq<ImageEntry>, uploads: seq<Result<UploadFileResponse, TransportError>>): (r: seq<ImageEntry>)
    requires |uploads| == |entries|
    ensures |r| == |entries|
  {
    seq(|entries|, k requires 0 <= k < |entries| => Apply(entries[k], UploadUpdate(uploads[k])))
  }

  /**
   * A fresh entry ends up usable for the video exactly when its upload
   * succeeded with a non-empty file id.
   */
  lemma SettledUsable(entries: seq<ImageEntry>, uploads: seq<Result<UploadFileResponse, TransportError>>, k: nat)
    requires |uploads| == |entries| && k < |entries| && entries[k].backendFileId == None
    ensures Usable(Settled(entries, uploads)[k]) <==> uploads[k].Success? && uploads[k].value.fileId != ""
  {
  }

  /** Once settled, no fresh entry is still uploading; each keeps its id and its file. */
  /** No settled entry is still uploading. */
  lemma SettledNotUploading(entries: seq<ImageEntry>, uploads: seq<Result<UploadFileResponse, TransportError>>)
    requires |uploads| == |entries|
    ensures forall e :: e in Settled(entries, uploads) ==> !e.isUploading
  {
    SettledFinished(entries, uploads);
  }

  lemma SettledFinished(entries: seq<ImageEntry>, uploads: seq<Result<UploadFileResponse, TransportError>>)
    requires |uploads| == |entries|
    ensures forall k :: 0 <= k < |entries| ==>
              && Settled(entries, uploads)[k].clientId == entries[k].clientId
              && Settled(entries, uploads)[k].file == entries[k].file
              && !Settled(entries, uploads)[k].isUploading
  {
  }

  /** The list part way through the loop: the first `k` fresh entries settled, the rest pending. */
  function PartlySettled(prefix: seq<ImageEntry>, entries: seq<ImageEntry>,
                         uploads: seq<Result<UploadFileResponse, TransportError>>, k: nat): (r: seq<ImageEntry>)
    requires |uploads| == |entries| && k <= |entries|
    ensures |r| == |prefix| + |entries|
  {
    prefix + Settled(entries[..k], uploads[..k]) + entries[k..]
  }

  /** One round of the loop: settling the k-th fresh entry by its id advances the list by one. */
  lemma SettleStep(prefix: seq<ImageEntry>, entries: seq<ImageEntry>,
                   uploads: seq<Result<UploadFileResponse, TransportError>>, k: nat)
    requires |uploads| == |entries| && k < |entries|
    requires forall i :: 0 <= i < |prefix| + |entries| && i != |prefix| + k ==>
               (prefix + entries)[i].clientId != entries[k].clientId
    ensures UpdateEntry(PartlySettled(prefix, entries, uploads, k), entries[k].clientId, UploadUpdate(uploads[k]))
            == PartlySettled(prefix, entries, uploads, k + 1)
  {
    var t := PartlySettled(prefix, entries, uploads, k);
    var p := |prefix| + k;
    var joined := prefix + entries;
    assert t[p] == entries[k];
    forall i | 0 <= i < |t| && i != p ensures t[i].clientId != t[p].clientId {
      if i >= |prefix| + k {
        assert t[i] == entries[i - |prefix|] == joined[i];
      } else if i >= |prefix| {
        assert t[i] == Settled(entries[..k], uploads[..k])[i - |prefix|];
        assert t[i].clientId == joined[i].clientId;
      } else {
        assert t[i] == joined[i];
      }
    }
    UpdateSole(t, p, UploadUpdate(uploads[k]));
    var next := PartlySettled(prefix, entries, uploads, k + 1);
    forall i | 0 <= i < |t| ensures t[p := Apply(t[p], UploadUpdate(uploads[k]))][i] == next[i] {
      if i < |prefix| {
      } else if i < p {
        assert t[i] == Settled(entries[..k], uploads[..k])[i - |prefix|];
        assert next[i] == Settled(entries[..k + 1], uploads[..k + 1])[i - |prefix|];
      } else if i == p {
        assert next[i] == Settled(entries[..k + 1], uploads[..k + 1])[k];
      } else {
        assert t[i] == entries[i - |prefix|] == next[i];
      }
    }
  }

  /** The wrapper calls of the loop: one upload per fresh entry, in list order. */
  function UploadCalls(entries: seq<ImageEntry>): (calls: seq<ApiCall>)
    ensures |calls| == |entries|
  {
    seq(|entries|, k requires 0 <= k < |entries| => UploadFile(entries[k].file))
  }

  /**
   * The `setSelectedImages(prev => prev.map(...))` of one settled upload, on
   * the list part way through the loop.
   */
  method SettleUpload(prefix: seq<ImageEntry>, entries: seq<ImageEntry>,
                      uploads: seq<Result<UploadFileResponse, TransportError>>, k: nat, current: seq<ImageEntry>)
    returns (next: seq<ImageEntry>)
    requires UniqueIds(prefix + entries) && |uploads| == |entries| && k < |entries|
    requires current == PartlySettled(prefix, entries, uploads, k)
    ensures next == PartlySettled(prefix, entries, uploads, k + 1)
  {
    assert (prefix + entries)[|prefix| + k] == entries[k];
    SettleStep(prefix, entries, uploads, k);
    next := UpdateEntry(current, entries[k].clientId, UploadUpdate(uploads[k]));
  }

  /** One more fresh entry, one more upload call at the end. */
  lemma UploadCallsStep(entries: seq<ImageEntry>, k: nat)
    requires k < |entries|
    ensures UploadCalls(entries[..k + 1]) == UploadCalls(entries[..k]) + [UploadFile(entries[k].file)]
  {
  }

  /**
   * The `for (const newImageEntry of newImageEntries)` loop, over the list
   * `prefix + entries` that `setSelectedImages` has just built: one upload per
   * fresh entry, in order, each settling only its own entry. `uploads[k]` is
   * how the k-th upload settles.
   */
  method UploadBatch(prefix: seq<ImageEntry>, entries: seq<ImageEntry>, uploads: seq<Result<UploadFileResponse, TransportError>>)
    returns (result: seq<ImageEntry>, calls: seq<ApiCall>, successes: nat)
    requires UniqueIds(prefix + entries) && |uploads| == |entries|
    ensures result == prefix + Settled(entries, uploads)
    ensures calls == UploadCalls(entries)
    ensures successes == SucceededCount(uploads)
  {
    result, calls, successes := prefix + entries, [], 0;
    assert result == PartlySettled(prefix, entries, uploads, 0);
    for k := 0 to |entries|
      invariant result == PartlySettled(prefix, entries, uploads, k)
      invariant calls == UploadCalls(entries[..k])
      invariant successes == SucceededCount(uploads[..k])
    {
      result := SettleUpload(prefix, entries, uploads, k, result);
      UploadCallsStep(entries, k);
      calls := calls + [UploadFile(entries[k].file)];
      assert uploads[..k + 1][..k] == uploads[..k];
      if uploads[k].Success? {
        successes := successes + 1;
      }
    }
    assert uploads[..|entries|] == uploads && entries[..|entries|] == entries;
  }

  /**
   * Appending a batch keeps the list's invariant: fresh ids that are distinct
   * and new keep ids unique, admission keeps sizes within the limit, and
   * settling changes neither.
   */
  lemma AppendKeepsInvariant(images: seq<ImageEntry>, files: seq<LocalFile>, freshIds: seq<ClientId>,
                             uploads: seq<Result<UploadFileResponse, TransportError>>)
    requires UniqueIds(images) && WithinImageLimit(images)
    requires |freshIds| == |files| && forall i, j :: 0 <= i < j < |freshIds| ==> freshIds[i] != freshIds[j]
    requires forall e :: e in images ==> e.clientId !in freshIds
    requires |uploads| == |Admit(files, freshIds)|
    ensures UniqueIds(images + Admit(files, freshIds))
    ensures UniqueIds(images + Settled(Admit(files, freshIds), uploads))
    ensures WithinImageLimit(images + Settled(Admit(files, freshIds), uploads))
  {
    var entries := Admit(files, freshIds);
    AdmitUniqueIds(files, freshIds);
    AdmitMembers(files, freshIds);
    AppendUniqueIds(images, entries, freshIds);
    SettlingKeepsInvariant(images, entries, uploads);
  }

  /** Two lists with unique ids and no id in common join into one with unique ids. */
  lemma AppendUniqueIds(images: seq<ImageEntry>, entries: seq<ImageEntry>, freshIds: seq<ClientId>)
    requires UniqueIds(images) && UniqueIds(entries)
    requires forall e :: e in images ==> e.clientId !in freshIds
    requires forall e :: e in entries ==> e.clientId in freshIds
    ensures UniqueIds(images + entries)
  {
    var joined := images + entries;
    forall i, j | 0 <= i < |joined| && 0 <= j < |joined| && i != j
      ensures joined[i].clientId != joined[j].clientId
    {
      if i < |images| && j >= |images| {
        assert images[i] in images && joined[j] in entries;
      } else if j < |images| && i >= |images| {
        assert images[j] in images && joined[i] in entries;
      } else if i >= |images| {
        assert joined[i] == entries[i - |images|] && joined[j] == entries[j - |images|];
      }
    }
  }

  /** Settling the fresh entries keeps every id and every file, so the invariant holds on. */
  lemma SettlingKeepsInvariant(images: seq<ImageEntry>, entries: seq<ImageEntry>,
                               uploads: seq<Result<UploadFileResponse, TransportError>>)
    requires |uploads| == |entries|
    requires UniqueIds(images + entries) && WithinImageLimit(images) && WithinImageLimit(entries)
    ensures UniqueIds(images + Settled(entries, uploads))
    ensures WithinImageLimit(images + Settled(entries, uploads))
  {
    var joined := images + entries;
    var settled := images + Settled(entries, uploads);
    SettledFinished(entries, uploads);
    assert forall i :: 0 <= i < |settled| ==> settled[i].clientId == joined[i].clientId && settled[i].file == joined[i].file;
    forall e | e in settled ensures e.file.size <= MaxImageBytes {
      var i :| 0 <= i < |settled| && settled[i] == e;
      if i < |images| {
        assert images[i] in images;
      } else {
        assert entries[i - |images|] in entries;
      }
    }
  }

  // ---------------------------------------------------------------------------
  // The component

  class Editor {
    var images: seq<ImageEntry>
    var selectedAudio: Option<LocalFile>
    var uploadedAudioFileId: Option<string>
    var audioUploadProgress: int
    var settings: Settings
    var isUploadingBatchImages: bool
    var isUploadingAudio: bool
    var isCreatingVideo: bool
    var createdVideoUuid: Option<string>

    constructor ()
      ensures images == [] && selectedAudio == None && uploadedAudioFileId == None && audioUploadProgress == 0
      ensures settings == DefaultSettings
      ensures !isUploadingBatchImages && !isUploadingAudio && !isCreatingVideo && createdVideoUuid == None
      ensures Valid()
    {
      images, selectedAudio, uploadedAudioFileId, audioUploadProgress := [], None, None, 0;
      settings := DefaultSettings;
      isUploadingBatchImages, isUploadingAudio, isCreatingVideo := false, false, false;
      createdVideoUuid := None;
    }

    /** At most five images, each within 10 MiB, with distinct ids; any audio within 20 MiB. */
    predicate Valid()
      reads this
    {
      && |images| <= MaxImagesAllowed
      && WithinImageLimit(images)
      && UniqueIds(images)
      && (selectedAudio.Some? ==> selectedAudio.value.size <= MaxAudioBytes)
    }

    /** `isOverallProcessing`: some image or the audio is uploading, or the video is being made. */
    predicate IsOverallProcessing()
      reads this
    {
      (exists e :: e in images && e.isUploading) || isUploadingAudio || isCreatingVideo
    }

    /** The form controls. */
    method SetSettings(s: Settings)
      modifies this`settings
      ensures settings == s
    {
      settings := s;
    }

    /**
     * `handleImageFilesSelect`. A batch that would take the list over five
     * images (counting oversize ones) is refused whole; otherwise the admitted
     * entries are appended and uploaded one after another. `freshIds` are the
     * uuids drawn for the picked files, `uploads` how each admitted entry's
     * upload settles; `successes` is how many of them succeeded.
     */
    method HandleImageFilesSelect(files: seq<LocalFile>, freshIds: seq<ClientId>,
                                  uploads: seq<Result<UploadFileResponse, TransportError>>)
      returns (refusal: Option<Refusal>, calls: seq<ApiCall>, successes: nat)
      requires Valid()
      requires |freshIds| == |files| && forall i, j :: 0 <= i < j < |freshIds| ==> freshIds[i] != freshIds[j]
      requires forall e :: e in images ==> e.clientId !in freshIds
      requires |uploads| == |Admit(files, freshIds)|
      modifies this`images, this`isUploadingBatchImages
      ensures Valid()
      ensures files == [] ==> refusal == None && calls == [] && unchanged(this)
      ensures files != [] && |old(images)| + |files| > MaxImagesAllowed ==>
                refusal == Some(TooManyImages) && calls == [] && unchanged(this)
      ensures files != [] && |old(images)| + |files| <= MaxImagesAllowed ==>
                && refusal == None
                && !isUploadingBatchImages
                && images == old(images) + Settled(Admit(files, freshIds), uploads)
                && calls == UploadCalls(Admit(files, freshIds))
                && successes == SucceededCount(uploads)
      ensures old(!IsOverallProcessing()) ==> !IsOverallProcessing()
    {
      refusal, calls, successes := None, [], 0;
      if files == [] {
        return;
      }
      if |images| + |files| > MaxImagesAllowed {
        refusal := Some(TooManyImages);
        return;
      }
      isUploadingBatchImages := true;
      var entries := AdmitBatch(files, freshIds);
      if entries == [] {
        isUploadingBatchImages := false;
        assert images + Settled(entries, uploads) == images;
        return;
      }
      AppendKeepsInvariant(images, files, freshIds, uploads);
      SettledNotUploading(entries, uploads);
      images, calls, successes := UploadBatch(images, entries, uploads);
      isUploadingBatchImages := false;
    }

    /** An upload progress callback of one image: only the entry with that id changes. */
    method ReportImageProgress(clientId: ClientId, percent: int)
      requires Valid()
      modifies this`images
      ensures images == UpdateEntry(old(images), clientId, Progress(percent))
      ensures Valid()
    {
      UpdateKeepsInvariant(images, clientId, Progress(percent));
      images := UpdateEntry(images, clientId, Progress(percent));
    }

    /** `removeImage`: every entry with that id goes; the rest keep their order. */
    method RemoveImage(clientId: ClientId)
      requires Valid()
      modifies this`images
      ensures images == WithoutId(old(images), clientId)
      ensures Valid()
    {
      WithoutIdKeepsUniqueIds(images, clientId);
      WithoutIdMembers(images, clientId);
      images := WithoutId(images, clientId);
    }

    /**
     * `handleAudioFileSelect`: a track over 20 MiB is refused before any upload;
     * otherwise it is selected and uploaded, the bar following `uploadPercents`.
     * A failed upload clears both the selection and the id. `outcome` is `None`
     * when no file was picked.
     */
    method HandleAudioFileSelect(files: seq<LocalFile>, upload: Result<UploadFileResponse, TransportError>, uploadPercents: seq<int>)
      returns (outcome: Option<JobOutcome>, calls: seq<ApiCall>)
      requires Valid()
      modifies this`selectedAudio, this`uploadedAudioFileId, this`audioUploadProgress, this`isUploadingAudio
      ensures Valid()
      ensures files == [] ==> outcome == None && calls == [] && unchanged(this)
      ensures files != [] && files[0].size > MaxAudioBytes ==>
                outcome == Some(Refused(FileTooLarge)) && calls == [] && unchanged(this)
      ensures files != [] && files[0].size <= MaxAudioBytes ==>
                && calls == [UploadFile(files[0])]
                && !isUploadingAudio
                && audioUploadProgress == (if uploadPercents == [] then 0 else uploadPercents[|uploadPercents| - 1])
      ensures files != [] && files[0].size <= MaxAudioBytes && upload.Success? ==>
                && outcome == Some(Succeeded)
                && selectedAudio == Some(files[0]) && uploadedAudioFileId == Some(upload.value.fileId)
      ensures files != [] && files[0].size <= MaxAudioBytes && upload.Failure? ==>
                && outcome == Some(Failed(UploadErrorText(UploadFileResult(upload).error, files[0].name)))
                && selectedAudio == None && uploadedAudioFileId == None
      ensures old(!IsOverallProcessing()) ==> !IsOverallProcessing()
    {
      if files == [] {
        return None, [];
      }
      var file := files[0];
      if file.size > MaxAudioBytes {
        return Some(Refused(FileTooLarge)), [];
      }
      selectedAudio, uploadedAudioFileId := Some(file), None;
      isUploadingAudio := true;
      audioUploadProgress := 0;
      if uploadPercents != [] {
        audioUploadProgress := uploadPercents[|uploadPercents| - 1];
      }
      calls := [UploadFile(file)];
      var response := UploadFileResult(upload);
      if response.Success? {
        uploadedAudioFileId := Some(response.value.fileId);
        outcome := Some(Succeeded);
      } else {
        outcome := Some(Failed(UploadErrorText(response.error, file.name)));
        selectedAudio, uploadedAudioFileId := None, None;
      }
      isUploadingAudio := false;
    }

    /**
     * `handleCreateShortVideo`: refused (no change, no call) unless the request
     * can be built; otherwise the request is sent and the new video's uuid kept
     * on success, cleared on failure.
     */
    method CreateShortVideo(now: nat, create: Result<CreateVideoResponse, TransportError>)
      returns (outcome: JobOutcome, calls: seq<ApiCall>)
      modifies this`isCreatingVideo, this`createdVideoUuid
      ensures var request := BuildCreateVideoRequest(images, uploadedAudioFileId, settings, now);
              request.Failure? ==> outcome == Refused(request.error) && calls == [] && unchanged(this)
      ensures var request := BuildCreateVideoRequest(images, uploadedAudioFileId, settings, now);
              request.Success? ==>
                && calls == [CreateVideoFromImages(request.value)]
                && !isCreatingVideo
                && (create.Success? ==> outcome == Succeeded && createdVideoUuid == Some(create.value.videoFileUuid))
                && (create.Failure? ==>
                      outcome == Failed(ErrorMessage(CreateVideoFromImagesResult(create).error)) && createdVideoUuid == None)
      ensures old(!IsOverallProcessing()) ==> !IsOverallProcessing()
    {
      var request := BuildCreateVideoRequest(images, uploadedAudioFileId, settings, now);
      if request.Failure? {
        return Refused(request.error), [];
      }
      isCreatingVideo := true;
      createdVideoUuid := None;
      calls := [CreateVideoFromImages(request.value)];
      var response := CreateVideoFromImagesResult(create);
      if response.Success? {
        createdVideoUuid := Some(response.value.videoFileUuid);
        outcome := Succeeded;
      } else {
        outcome := Failed(ErrorMessage(response.error));
      }
      isCreatingVideo := false;
    }

    /** `handleDownloadCreatedVideo`: a link only once a video was made. */
    function DownloadCreatedVideo(base: string): (link: Option<DownloadLink>)
      reads this
      ensures link.Some? <==> Present(createdVideoUuid)
      ensures link.Some? ==>
                && FileUuidOfUrl(base, link.value.href) == createdVideoUuid
                && link.value.filename == CreatedVideoName(createdVideoUuid.value)
    {
      if Present(createdVideoUuid) then
        Some(DownloadResultFile(base, createdVideoUuid.value, Some(CreatedVideoName(createdVideoUuid.value))))
      else None
    }
  }

  /**
   * The toast of a failed upload in this editor: `err.message`, else
   * `Could not upload <name>.`. Unlike the other handlers it never reads `detail`.
   */
  function UploadErrorText(error: ThrownError, fileName: string): (text: string)
    ensures text != ""
    ensures Present(error.message) ==> text == error.message.value
    ensures !Present(error.message) ==> text == "Could not upload " + fileName + "."
  {
    if Present(error.message) then error.message.value else "Could not upload " + fileName + "."
  }

  /**
   * A server body carrying only a `detail` is not what the user reads here:
   * the toast falls back to the file name.
   */
  lemma ServerDetailNotShown(upload: Result<UploadFileResponse, TransportError>, detail: string, fileName: string)
    requires upload.Failure? && upload.error.responseData == Some(ThrownError(Some(detail), None))
    ensures UploadErrorText(UploadFileResult(upload).error, fileName) == "Could not upload " + fileName + "."
  {
  }
}
