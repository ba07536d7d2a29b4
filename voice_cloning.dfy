/**
 * The voice-cloning panel of src/_components/VoiceCloning.tsx: the `m:ss`
 * duration display, the recording-length rule, the upload guards, and the
 * state resets of the start, clear and upload handlers. The media recorder,
 * the audio decoding and the voice-creation call are inputs.
 */
module VoiceCloning {
  import opened Wrappers
  import opened Strings

  /** The shortest recording, in seconds, that may be uploaded. */
  const MinDuration: nat := 10

  // ---------------------------------------------------------------------------
  // Duration display

  /** `formatDuration`: whole minutes, ':', then the remaining seconds padded to two digits with '0'. */
  function FormatDuration(seconds: nat): string
  {
    NatToString(seconds / 60) + ":" + PadStart(NatToString(seconds % 60), 2, '0')
  }

  /** A display read back as minutes and seconds. */
  datatype Clock = Clock(minutes: nat, seconds: nat)

  /** Reads an `m:ss` display: one or more digits, ':', and exactly two digits. */
  function ParseDuration(s: string): Option<Clock>
  {
    if |s| >= 4 && s[|s| - 3] == ':' && AllDigits(s[..|s| - 3]) && AllDigits(s[|s| - 2..])
    then Some(Clock(DecimalValue(s[..|s| - 3]), DecimalValue(s[|s| - 2..])))
    else None
  }

  lemma TwoDigitSeconds(k: nat)
    requires k < 60
    ensures var p := PadStart(NatToString(k), 2, '0');
            |p| == 2 && AllDigits(p) && DecimalValue(p) == k
  {
  }

  /**
   * The display can be read back: the part after ':' is exactly two digits,
   * and the minutes and seconds read from it satisfy `m * 60 + s == n` with
   * `s < 60`.
   */
  lemma FormatDurationRoundTrip(n: nat)
    ensures ParseDuration(FormatDuration(n)).Some?
    ensures var c := ParseDuration(FormatDuration(n)).value;
            c.minutes * 60 + c.seconds == n && c.seconds < 60
    ensures var f := FormatDuration(n); f[|f| - 3] == ':' && |f[|f| - 2..]| == 2 && AllDigits(f[|f| - 2..])
  {
    var m := NatToString(n / 60);
    var p := PadStart(NatToString(n % 60), 2, '0');
    TwoDigitSeconds(n % 60);
    var f := FormatDuration(n);
    assert f == m + ":" + p;
    assert f[..|f| - 3] == m;
    assert f[|f| - 2..] == p;
  }

  /** The hint shown while recording. */
  const ReachedHint: string := "Minimum recording length reached ✓"
  const HintPrefix: string := "Record at least "
  const HintSuffix: string := " more seconds"

  /**
   * The hint under the progress bar. Below the minimum it reads back: the
   * prefix, a run of digits, and the suffix, where the digits count the
   * seconds that, added to the duration, make up the minimum.
   */
  function RecordingHint(duration: nat): (hint: string)
    ensures duration >= MinDuration ==> hint == ReachedHint
    ensures duration < MinDuration ==>
              && |HintPrefix| + |HintSuffix| < |hint|
              && hint[..|HintPrefix|] == HintPrefix
              && hint[|hint| - |HintSuffix|..] == HintSuffix
              && var middle := hint[|HintPrefix|..|hint| - |HintSuffix|];
                 AllDigits(middle) && duration + DecimalValue(middle) == MinDuration
  {
    if duration < MinDuration then
      var m := NatToString(MinDuration - duration);
      var h := HintPrefix + m + HintSuffix;
      assert h[|HintPrefix|..|h| - |HintSuffix|] == m;
      h
    else ReachedHint
  }

  // ---------------------------------------------------------------------------
  // Upload guards

  /** Why `handleUpload` refused to start. */
  datatype Refusal = NameRequired | NoRecording | TooShort

  /** `isRecordingValid`. */
  predicate IsRecordingValid(duration: nat)
  {
    duration >= MinDuration
  }

  /**
   * The guards of `handleUpload`, in their order: a blank name first, then a
   * missing recording, then a recording shorter than the minimum.
   */
  function UploadRefusal(voiceName: string, hasRecording: bool, duration: nat): (r: Option<Refusal>)
    ensures r == Some(NameRequired) <==> Trim(voiceName) == ""
    ensures r == Some(NoRecording) <==> Trim(voiceName) != "" && !hasRecording
    ensures r == Some(TooShort) <==> Trim(voiceName) != "" && hasRecording && !IsRecordingValid(duration)
    ensures r.None? <==> Trim(voiceName) != "" && hasRecording && IsRecordingValid(duration)
  {
    if Trim(voiceName) == "" then Some(NameRequired)
    else if !hasRecording then Some(NoRecording)
    else if duration < MinDuration then Some(TooShort)
    else None
  }

  /** `canUpload`: a recording of at least the minimum length, a name that is not blank, and no upload running. */
  predicate CanUpload(voiceName: string, hasRecording: bool, duration: nat, isUploading: bool)
  {
    hasRecording && IsRecordingValid(duration) && Trim(voiceName) != "" && !isUploading
  }

  /**
   * The upload button's rule and the handler's guards agree: the button is
   * enabled exactly when no upload is running and no guard refuses; a name
   * made only of white space is refused by both.
   */
  lemma CanUploadIffNoRefusal(voiceName: string, hasRecording: bool, duration: nat, isUploading: bool)
    ensures CanUpload(voiceName, hasRecording, duration, isUploading)
            <==> !isUploading && UploadRefusal(voiceName, hasRecording, duration).None?
    ensures (forall i :: 0 <= i < |voiceName| ==> IsJsWhitespace(voiceName[i]))
            ==> UploadRefusal(voiceName, hasRecording, duration) == Some(NameRequired)
  {
    TrimEmptyIff(voiceName);
  }

  // ---------------------------------------------------------------------------
  // Panel state

  /** How the asynchronous part of an upload ended. */
  datatype UploadEnd =
    | Cloned                                   // the voice was created
    | CloneFailed(message: Option<string>)     // `createVoice` threw
    | ReadFailed                               // the recording could not be read
    | FetchFailed(message: Option<string>)     // fetching the recording threw

  /** What `handleUpload` did: refused, or issued the upload, which then ended as given. */
  datatype UploadResult = Refused(why: Refusal) | Attempted(voiceName: string, ending: UploadEnd)

  /**
   * The panel's state. `hasRecording` stands for a recording URL being
   * present; the recording itself is held by the media recorder.
   */
  class VoicePanel {
    var voiceName: string
    var recordingDuration: nat
    var hasRecording: bool
    var isUploading: bool
    var uploadSuccess: bool

    constructor ()
      ensures voiceName == "" && recordingDuration == 0 && !hasRecording && !isUploading && !uploadSuccess
    {
      voiceName := "";
      recordingDuration := 0;
      hasRecording := false;
      isUploading := false;
      uploadSuccess := false;
    }

    /** `handleStartRecording`: the duration restarts from 0 and the success banner is cleared. */
    method HandleStartRecording()
      modifies this
      ensures recordingDuration == 0 && !uploadSuccess
      ensures voiceName == old(voiceName) && hasRecording == old(hasRecording) && isUploading == old(isUploading)
    {
      recordingDuration := 0;
      uploadSuccess := false;
    }

    /** `handleClear`: as a restart, and the recording is dropped as well. */
    method HandleClear()
      modifies this
      ensures recordingDuration == 0 && !uploadSuccess && !hasRecording
      ensures voiceName == old(voiceName) && isUploading == old(isUploading)
    {
      hasRecording := false;
      recordingDuration := 0;
      uploadSuccess := false;
    }

    /**
     * `handleUpload`, followed to the end of its asynchronous part. A refusal
     * changes nothing, so the upload flag keeps its value. Otherwise the upload
     * runs with the current name and the flag is lowered when it ends; only a
     * created voice sets the success banner and resets the name, the duration
     * and the recording.
     */
    method HandleUpload(ending: UploadEnd) returns (result: UploadResult)
      modifies this
      ensures UploadRefusal(old(voiceName), old(hasRecording), old(recordingDuration)).Some? ==>
                result == Refused(UploadRefusal(old(voiceName), old(hasRecording), old(recordingDuration)).value)
                && voiceName == old(voiceName) && recordingDuration == old(recordingDuration)
                && hasRecording == old(hasRecording) && isUploading == old(isUploading)
                && uploadSuccess == old(uploadSuccess)
      ensures UploadRefusal(old(voiceName), old(hasRecording), old(recordingDuration)).None? ==>
                result == Attempted(old(voiceName), ending) && !isUploading
                && (ending.Cloned? ==> uploadSuccess && voiceName == "" && recordingDuration == 0 && !hasRecording)
                && (!ending.Cloned? ==> uploadSuccess == old(uploadSuccess) && voiceName == old(voiceName)
                                        && recordingDuration == old(recordingDuration) && hasRecording == old(hasRecording))
    {
      if Trim(voiceName) == "" {
        return Refused(NameRequired);
      }
      if !hasRecording {
        return Refused(NoRecording);
      }
      if recordingDuration < MinDuration {
        return Refused(TooShort);
      }

      isUploading := true;
      result := Attempted(voiceName, ending);
      match ending {
        case Cloned =>
          uploadSuccess := true;
          voiceName := "";
          recordingDuration := 0;
          hasRecording := false;
          isUploading := false;
        case CloneFailed(_) =>
          isUploading := false;
        case ReadFailed =>
          isUploading := false;
        case FetchFailed(_) =>
          isUploading := false;
      }
    }
  }
}
