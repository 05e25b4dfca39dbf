/** Small building blocks shared by every component of the front end. */
module Common {

  /** A value that may be missing: `null`/`undefined` in the front end. */
  datatype Option<+T> = None | Some(value: T)

  /** The settled outcome of a promise: resolved with a value or rejected with an error. */
  datatype Result<+T, +E> = Success(value: T) | Failure(error: E)

  /** JavaScript truthiness of a nullable string: present and not the empty string. */
  predicate Present(o: Option<string>) {
    o.Some? && o.value != ""
  }

  /** The values a progress bar was given, in order, never go down from one to the next. */
  predicate NonDecreasing(s: seq<int>) {
    forall i :: 0 < i < |s| ==> s[i - 1] <= s[i]
  }

  /** Step by step never going down means no later value is below an earlier one. */
  lemma {:induction false} NonDecreasingOrdered(s: seq<int>, i: nat, j: nat)
    requires NonDecreasing(s) && i <= j < |s|
    ensures s[i] <= s[j]
    decreases j - i
  {
    if i < j {
      NonDecreasingOrdered(s, i, j - 1);
    }
  }

  /**
   * The values the two-step cards (download a video, then extract its audio)
   * give their progress bar: 0 and 10 on start, 50 and 60 once the video is
   * in, 100 once the audio is; a failed step stops the list where it was.
   */
  function TwoStepProgress(downloaded: bool, extracted: bool): (trace: seq<int>)
    requires extracted ==> downloaded
    ensures |trace| >= 2 && trace[0] == 0 && trace[1] == 10
    ensures NonDecreasing(trace)
    ensures trace[|trace| - 1] == 100 <==> extracted
    ensures |trace| == 2 <==> !downloaded
  {
    if !downloaded then [0, 10]
    else if extracted then [0, 10, 50, 60, 100]
    else [0, 10, 50, 60]
  }

  /** Why a handler returned before doing any work (the destructive toasts). */
  datatype Refusal =
    | UrlRequired
    | InvalidUrl
    | NoFileSelected
    | FileTooLarge
    | TooManyImages
    | NoUploadedImages
    | NoAudioUploaded

  /** How one run of a handler ended, as the user is told about it. */
  datatype JobOutcome =
    | Refused(reason: Refusal)
    | Failed(message: string)
    | Succeeded
}
