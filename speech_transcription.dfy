/**
 * The speech transcription screen (`SpeechTranscriptionFragment`): the worker
 * listens to a recording, types what was said (helped by suggested words),
 * reviews it in a confirmation dialog and moves on. The play, back and next
 * controls are drawn from a tri-state that the view model emits.
 */
module SpeechTranscription {
  import opened Widgets
  import opened Outcomes

  /** The view model's rendering hint for one control. */
  datatype ButtonState = Disabled | Enabled | Active

  /** The back, play and next controls as `flushButtonStates` leaves them. */
  datatype ControlBar = ControlBar(back: Button, play: Button, next: Button)

  /** The calls the screen makes into its view model (and the base renderer's skip). */
  datatype Call =
    | HandlePlayClick
    | HandleBackClick
    | HandleNextClick
    | SetTranscriptionText(text: string)
    | SkipTask(showWarning: bool, message: string, warning: string)
    | HandleCorruptAudio(errorMessage: Option<string>)

  function PlayIcon(s: ButtonState): (icon: Icon)
    ensures IsEnabledIcon(icon) <==> s != Disabled
  {
    match s
    case Disabled => SpeakerDisabled
    case Enabled => SpeakerEnabled
    case Active => SpeakerActive
  }

  function NextIcon(s: ButtonState): (icon: Icon)
    ensures IsEnabledIcon(icon) <==> s != Disabled
  {
    match s
    case Disabled => NextDisabled
    case Enabled => NextEnabled
    case Active => NextEnabled
  }

  function BackIcon(s: ButtonState): (icon: Icon)
    ensures IsEnabledIcon(icon) <==> s != Disabled
  {
    match s
    case Disabled => BackDisabled
    case Enabled => BackEnabled
    case Active => BackEnabled
  }

  /**
   * The play drawable tells all three states apart; the next and back drawables
   * only tell a disabled control from a usable one.
   */
  lemma IconsOfStates(a: ButtonState, b: ButtonState)
    ensures PlayIcon(a) == PlayIcon(b) ==> a == b
    ensures NextIcon(a) == NextIcon(b) <==> (a == Disabled) == (b == Disabled)
    ensures BackIcon(a) == BackIcon(b) <==> (a == Disabled) == (b == Disabled)
  {
  }

  /** `flushButtonStates`: a control is clickable exactly when its state is not DISABLED. */
  function FlushButtonStates(back: ButtonState, play: ButtonState, next: ButtonState): (r: ControlBar)
    ensures r.play.clickable <==> play != Disabled
    ensures r.back.clickable <==> back != Disabled
    ensures r.next.clickable <==> next != Disabled
    ensures r.play.icon == PlayIcon(play) && r.back.icon == BackIcon(back) && r.next.icon == NextIcon(next)
    ensures Agrees(r.play) && Agrees(r.back) && Agrees(r.next)
  {
    ControlBar(
      Button(back != Disabled, BackIcon(back)),
      Button(play != Disabled, PlayIcon(play)),
      Button(next != Disabled, NextIcon(next)))
  }

  class SpeechTranscriptionScreen {
    /** The `skip_task_warning` resource string. */
    const skipWarning: string

    var transcriptionText: string
    /** The cursor position in the transcription box. */
    var cursor: nat
    /** The words of the buttons in the assistance layout, in order. */
    var assistButtons: seq<string>
    var controls: ControlBar
    /** The recording the audio player was last given, paused. */
    var audioSource: Option<string>
    var playbackSecondsText: string
    var playbackCentiSecondsText: string
    var playbackProgressMax: int
    var playbackProgress: int
    /** The review dialog, while open, with the text it shows. */
    var reviewDialog: Option<string>
    /** The error dialogs shown, oldest first. */
    var errorDialogs: seq<string>
    var calls: seq<Call>

    constructor (skipWarning: string)
      ensures this.skipWarning == skipWarning
      ensures transcriptionText == "" && assistButtons == [] && calls == [] && errorDialogs == []
      ensures controls == FlushButtonStates(Disabled, Disabled, Disabled)
      ensures reviewDialog == None && audioSource == None
    {
      this.skipWarning := skipWarning;
      transcriptionText := "";
      cursor := 0;
      assistButtons := [];
      controls := FlushButtonStates(Disabled, Disabled, Disabled);
      audioSource := None;
      playbackSecondsText := "";
      playbackCentiSecondsText := "";
      playbackProgressMax := 0;
      playbackProgress := 0;
      reviewDialog := None;
      errorDialogs := [];
      calls := [];
    }

    method PlayClick()
      modifies this`calls
      ensures calls == old(calls) + [HandlePlayClick]
    {
      calls := calls + [HandlePlayClick];
    }

    method BackClick()
      modifies this`calls
      ensures calls == old(calls) + [HandleBackClick]
    {
      calls := calls + [HandleBackClick];
    }

    /**
     * The next button: an empty transcription goes down the skip path (and
     * never reaches `setTranscriptionText` or `handleNextClick`); otherwise the
     * text is put up for review.
     */
    method NextClick()
      modifies this`calls, this`reviewDialog
      ensures transcriptionText == "" ==>
        calls == old(calls) + [SkipTask(true, "", skipWarning)] && reviewDialog == old(reviewDialog)
      ensures transcriptionText != "" ==>
        calls == old(calls) && reviewDialog == Some(transcriptionText)
    {
      if transcriptionText == "" {
        calls := calls + [SkipTask(true, "", skipWarning)];
        return;
      } else {
        reviewDialog := Some(transcriptionText);
      }
    }

    /** "Yes" in the review dialog: hand over the text, move on, then clear the box. */
    method ReviewConfirm()
      requires reviewDialog.Some?
      modifies this`calls, this`transcriptionText, this`cursor, this`reviewDialog
      ensures calls == old(calls) + [SetTranscriptionText(old(transcriptionText)), HandleNextClick]
      ensures transcriptionText == "" && cursor == 0
      ensures reviewDialog == None
    {
      calls := calls + [SetTranscriptionText(transcriptionText)];
      calls := calls + [HandleNextClick];
      transcriptionText := "";
      cursor := 0;
      reviewDialog := None;
    }

    /** "No" in the review dialog, or a tap outside it: the dialog closes and nothing else changes. */
    method ReviewDismiss()
      requires reviewDialog.Some?
      modifies this`reviewDialog
      ensures reviewDialog == None
    {
      reviewDialog := None;
    }

    /** The audio player failed on the recording. */
    method OnPlayerError(errorMessage: Option<string>)
      modifies this`calls
      ensures calls == old(calls) + [HandleCorruptAudio(errorMessage)]
    {
      calls := calls + [HandleCorruptAudio(errorMessage)];
    }

    /**
     * The `assistWords` observer. An empty list clears the text once the layout
     * holds buttons; a non-empty layout is left alone; an empty layout gets one
     * button per word, in order.
     */
    method OnAssistWords(words: seq<string>)
      modifies this`transcriptionText, this`cursor, this`assistButtons
      ensures |words| == 0 && |old(assistButtons)| != 0 ==>
        transcriptionText == "" && cursor == 0 && assistButtons == old(assistButtons)
      ensures |words| != 0 && |old(assistButtons)| != 0 ==>
        transcriptionText == old(transcriptionText) && cursor == old(cursor) && assistButtons == old(assistButtons)
      ensures |old(assistButtons)| == 0 ==>
        transcriptionText == old(transcriptionText) && cursor == old(cursor) && assistButtons == words
    {
      if |words| == 0 && |assistButtons| != 0 {
        transcriptionText := "";
        cursor := 0;
        return;
      }
      if |assistButtons| != 0 {
        return;
      }
      for k := 0 to |words|
        invariant assistButtons == words[..k]
        modifies this`assistButtons
      {
        assistButtons := assistButtons + [words[k]];
      }
    }

    /** An assist-word button: append a space and the word, cursor at the end. */
    method AssistWordClick(k: nat)
      requires k < |assistButtons|
      modifies this`transcriptionText, this`cursor
      ensures transcriptionText == old(transcriptionText) + " " + assistButtons[k]
      ensures cursor == |transcriptionText|
    {
      transcriptionText := transcriptionText + " " + assistButtons[k];
      cursor := |transcriptionText|;
    }

    /** The `recordingFilePath` observer: an empty path is ignored. */
    method OnRecordingFilePath(path: string)
      modifies this`audioSource
      ensures audioSource == if path == "" then old(audioSource) else Some(path)
    {
      if path != "" {
        audioSource := Some(path);
      }
    }

    /** The `transcriptionText` observer replaces the box's text. */
    method OnTranscriptionText(text: string)
      modifies this`transcriptionText, this`cursor
      ensures transcriptionText == text && cursor == 0
    {
      transcriptionText := text;
      cursor := 0;
    }

    method OnPlaybackSecondsText(text: string)
      modifies this`playbackSecondsText
      ensures playbackSecondsText == text
    {
      playbackSecondsText := text;
    }

    method OnPlaybackCentiSecondsText(text: string)
      modifies this`playbackCentiSecondsText
      ensures playbackCentiSecondsText == text
    {
      playbackCentiSecondsText := text;
    }

    method OnPlaybackProgressMax(max: int)
      modifies this`playbackProgressMax
      ensures playbackProgressMax == max
    {
      playbackProgressMax := max;
    }

    method OnPlaybackProgress(progress: int)
      modifies this`playbackProgress
      ensures playbackProgress == progress
    {
      playbackProgress := progress;
    }

    /** The `navAndMediaBtnGroup` observer redraws the three controls. */
    method OnButtonStates(back: ButtonState, play: ButtonState, next: ButtonState)
      modifies this`controls
      ensures controls == FlushButtonStates(back, play, next)
    {
      controls := FlushButtonStates(back, play, next);
    }

    /** The `showErrorWithDialog` observer: an empty message shows no dialog. */
    method OnShowError(msg: string)
      modifies this`errorDialogs
      ensures errorDialogs == if msg == "" then old(errorDialogs) else old(errorDialogs) + [msg]
    {
      if msg != "" {
        errorDialogs := errorDialogs + [msg];
      }
    }
  }
}
