# Karya client: screen rules, modelled in Dafny

This project models the decision rules of five screens of the Karya
crowd-work client, an Android app in which workers photograph books, transcribe
speech, and track their tasks and earnings. Widgets are reduced to the
properties the screens write: clickability, drawable, visibility, selection
and text. Each screen is a class whose fields are those widget properties and
the screen's own state. Each `observe` callback and click listener is a method
that takes the emitted value or the click. Calls into the view model, navigation
requests, started activities, toasts and dialogs are appended to log fields.

- `ImageData` (image_data.dfy): the page-capture sequencer. It keeps one
  "captured?" flag per page and a current page index. It picks the first
  uncaptured page when capture starts. After a save it scans forward to the next
  uncaptured page, or goes back to the grid when none is left. It moves the
  full-size view one page at a time within bounds. It enables the arrows only
  towards captured neighbours, and the completion button only when every page
  is captured. It builds the thumbnail path list and the page labels.
- `SpeechTranscription` (speech_transcription.dfy): maps the tri-state
  `ButtonState` onto the play, back and next controls. It sends an empty
  transcription down the skip path. The review dialog's confirm hands the text
  over, moves on and clears the box. Assist words are appended to the text.
  Empty paths and empty error messages are ignored.
- `HomeScreen` (home_screen.dfy): the task total and the status panel, with
  Kotlin's 32-bit `Int` addition made explicit. It also covers the Rs 2 earning
  gate, the payments navigation (with the build flag as a parameter and
  navigation failures caught), and the profile-switch dialog.
- `SelectAgeGroup` (select_age_group.dfy): exactly one age button selected
  after a click, and the four request states projected onto the submit button,
  the loading bar and the error text.
- `Dashboard` (dashboard.dfy): dispatch from a scenario name to its activity
  (unknown names are an error, returned as a value), and the progress bar and
  task list driven by the UI state.
- `Text` (text.dfy): the decimal text of an `Int`, with a parser proving it
  reads back, and single-character `replace`. `Widgets` (widgets.dfy) and
  `Outcomes` (outcomes.dfy) hold the shared button, icon, option and result types.

Two behaviours of the home screen that the model keeps:

- The dialog's choice listener assigns the captured `var checkedItem` that
  Confirm reads (HomeScreenFragment.kt:58, 66, 76). The initial value 1 (the
  last item) therefore only decides a Confirm made without a choice, which adds
  a new profile.
- Only the payments observer catches navigation failures
  (HomeScreenFragment.kt:181-185). The name, leaderboard and task-summary
  clicks (HomeScreenFragment.kt:82-97) navigate without a `try`.

## Model

| member | source | states |
|---|---|---|
| `Text.NatToString` | client/app/src/main/java/com/microsoft/research/karya/ui/scenarios/imageData/ImageDataFragment.kt:179 | the page number in a label is written as non-empty decimal digits with no leading zero |
| `Text.IntToString` | app/src/main/java/com/microsoft/research/karya/ui/homeScreen/HomeScreenFragment.kt:136-141 | a count's text has a leading minus sign exactly when the count is negative |
| `Text.NatToStringRoundTrip` | client/app/src/main/java/com/microsoft/research/karya/ui/scenarios/imageData/ImageDataFragment.kt:179 | reading the decimal digits of a number back gives that number |
| `Text.IntToStringRoundTrip` | app/src/main/java/com/microsoft/research/karya/ui/homeScreen/HomeScreenFragment.kt:136-141 | every count text is well formed and reads back as the count it was written from |
| `Text.IntToStringInjective` | app/src/main/java/com/microsoft/research/karya/ui/homeScreen/HomeScreenFragment.kt:136-141 | different counts are shown as different texts |
| `Text.ReplaceChar` | client/app/src/main/java/com/microsoft/research/karya/ui/scenarios/imageData/ImageDataFragment.kt:63 | replacing `#` leaves a template without `#` unchanged; the result has no `#` when the replacement has none; every character of the result comes from the template or the replacement |
| `Text.ReplaceCharConcat` | client/app/src/main/java/com/microsoft/research/karya/ui/scenarios/imageData/ImageDataFragment.kt:63 | replacing in a concatenation is the concatenation of the replaced parts, so the result is the template character by character |
| `Text.ReplaceCharSingle` | client/app/src/main/java/com/microsoft/research/karya/ui/scenarios/imageData/ImageDataFragment.kt:63 | each `#` becomes the replacement text and every other character stays as it is |
| `ImageData.PageLabel` | client/app/src/main/java/com/microsoft/research/karya/ui/scenarios/imageData/ImageDataFragment.kt:179 | the label is "Front Cover" exactly for page 0; every other page is labelled "Page " and its number |
| `ImageData.PageLabelInjective` | client/app/src/main/java/com/microsoft/research/karya/ui/scenarios/imageData/ImageDataFragment.kt:179 | no two pages share a label: "Front Cover" is page 0 only, and "Page n" determines n |
| `ImageData.AllCaptured` | client/app/src/main/java/com/microsoft/research/karya/ui/scenarios/imageData/ImageDataFragment.kt:158 | `all { it }` holds exactly when every page is captured |
| `ImageData.FirstUncapturedFrom` | client/app/src/main/java/com/microsoft/research/karya/ui/scenarios/imageData/ImageDataFragment.kt:191-197 | the scan stops on an uncaptured page, or at the end; every page it skips is captured |
| `ImageData.IndexOfUncaptured` | client/app/src/main/java/com/microsoft/research/karya/ui/scenarios/imageData/ImageDataFragment.kt:108 | `indexOf(false)` is -1 exactly when every page is captured, otherwise the first uncaptured page |
| `ImageData.NextUncaptured` | client/app/src/main/java/com/microsoft/research/karya/ui/scenarios/imageData/ImageDataFragment.kt:190-201 | after page i: the smallest j > i that is uncaptured, with every page between captured; or none exactly when every later page is captured |
| `ImageData.PathList` | client/app/src/main/java/com/microsoft/research/karya/ui/scenarios/imageData/ImageDataFragment.kt:205-210 | one path per page: "" for an uncaptured page, the page's output file path for a captured one |
| `ImageData.PathListCapture` | client/app/src/main/java/com/microsoft/research/karya/ui/scenarios/imageData/ImageDataFragment.kt:218-224 | capturing page i changes exactly entry i of the path list, to the output path of i |
| `ImageData.CompletionButton` | client/app/src/main/java/com/microsoft/research/karya/ui/scenarios/imageData/ImageDataFragment.kt:157-166 | the completion button is clickable, with the enabled next drawable, exactly when every page is captured |
| `ImageData.PreviousImageButton` | client/app/src/main/java/com/microsoft/research/karya/ui/scenarios/imageData/ImageDataFragment.kt:245-251 | "previous" is clickable exactly when i > 0 and page i-1 is captured; its drawable agrees |
| `ImageData.NextImageButton` | client/app/src/main/java/com/microsoft/research/karya/ui/scenarios/imageData/ImageDataFragment.kt:253-259 | "next" is clickable exactly when i is not the last page and page i+1 is captured; its drawable agrees |
| `ImageData.ImageDataScreen.constructor` | client/app/src/main/java/com/microsoft/research/karya/ui/scenarios/imageData/ImageDataFragment.kt:35-36 | the screen starts with no page flags, index 0, no adapter, the grid shown with the camera closed, and the start-capture, recapture and take-picture buttons enabled |
| `ImageData.ImageDataScreen.OnImageState` | client/app/src/main/java/com/microsoft/research/karya/ui/scenarios/imageData/ImageDataFragment.kt:60-72 | adopts the emitted flags and fills `#` in the instruction with size-1. It rebuilds the path list only when there is no adapter or the size changed. It redraws the completion button |
| `ImageData.ImageDataScreen.StartCaptureClick` | client/app/src/main/java/com/microsoft/research/karya/ui/scenarios/imageData/ImageDataFragment.kt:107-113 | the index becomes the first uncaptured page, or 0 when all are captured; both capture buttons are disabled; the camera opens |
| `ImageData.ImageDataScreen.OnCameraOpened` | client/app/src/main/java/com/microsoft/research/karya/ui/scenarios/imageData/ImageDataFragment.kt:79-82 | an opened camera shows the capture view labelled with the current page |
| `ImageData.ImageDataScreen.OnCameraClosed` | client/app/src/main/java/com/microsoft/research/karya/ui/scenarios/imageData/ImageDataFragment.kt:85-89 | a closed camera re-enables start-capture and recapture |
| `ImageData.ImageDataScreen.TakePictureClick` | client/app/src/main/java/com/microsoft/research/karya/ui/scenarios/imageData/ImageDataFragment.kt:116-119 | the take-picture button disables itself |
| `ImageData.ImageDataScreen.OnPictureSaved` | client/app/src/main/java/com/microsoft/research/karya/ui/scenarios/imageData/ImageDataFragment.kt:92-103 | a saved picture marks the page captured, reports it to the view model, sets its thumbnail path, and moves to the next uncaptured page or the grid. It keeps the path list in step with the flags. When a next page exists, the camera stays as it was. When none is left, the capture label is kept. A missing file changes nothing |
| `ImageData.ImageDataScreen.BackToGridViewClick` | client/app/src/main/java/com/microsoft/research/karya/ui/scenarios/imageData/ImageDataFragment.kt:122-124 | shows the grid and closes the camera |
| `ImageData.ImageDataScreen.CloseFullImageViewClick` | client/app/src/main/java/com/microsoft/research/karya/ui/scenarios/imageData/ImageDataFragment.kt:130-132 | shows the grid and closes the camera |
| `ImageData.ImageDataScreen.NextClick` | client/app/src/main/java/com/microsoft/research/karya/ui/scenarios/imageData/ImageDataFragment.kt:126-128 | the completion button asks the view model to complete data collection |
| `ImageData.ImageDataScreen.RecaptureClick` | client/app/src/main/java/com/microsoft/research/karya/ui/scenarios/imageData/ImageDataFragment.kt:134-138 | disables both capture buttons and opens the camera, keeping the page |
| `ImageData.ImageDataScreen.NextImageClick` | client/app/src/main/java/com/microsoft/research/karya/ui/scenarios/imageData/ImageDataFragment.kt:140-145 | steps forward and redraws the full view only below the last index; otherwise nothing changes |
| `ImageData.ImageDataScreen.PreviousImageClick` | client/app/src/main/java/com/microsoft/research/karya/ui/scenarios/imageData/ImageDataFragment.kt:147-152 | steps back and redraws the full view only above 0; otherwise nothing changes |
| `ImageData.ImageDataScreen.UpdateNavigationState` | client/app/src/main/java/com/microsoft/research/karya/ui/scenarios/imageData/ImageDataFragment.kt:157-166 | the completion button follows `CompletionButton` of the flags |
| `ImageData.ImageDataScreen.SwitchToGridView` | client/app/src/main/java/com/microsoft/research/karya/ui/scenarios/imageData/ImageDataFragment.kt:168-173 | the grid is the visible view and the camera is closed |
| `ImageData.ImageDataScreen.SwitchToCaptureView` | client/app/src/main/java/com/microsoft/research/karya/ui/scenarios/imageData/ImageDataFragment.kt:175-181 | the capture view is visible and labelled with the current page |
| `ImageData.ImageDataScreen.SwitchToFullImageDisplayView` | client/app/src/main/java/com/microsoft/research/karya/ui/scenarios/imageData/ImageDataFragment.kt:183-188 | the full view is visible and shows the current page |
| `ImageData.ImageDataScreen.MoveToNextImage` | client/app/src/main/java/com/microsoft/research/karya/ui/scenarios/imageData/ImageDataFragment.kt:190-202 | the index lands on `NextUncaptured` with its label, or, when none is left, on 0 with the grid shown and the camera closed; it is always within the pages |
| `ImageData.ImageDataScreen.ResetAdapter` | client/app/src/main/java/com/microsoft/research/karya/ui/scenarios/imageData/ImageDataFragment.kt:204-216 | the adapter exists and holds `PathList` of the flags |
| `ImageData.ImageDataScreen.UpdateAdapter` | client/app/src/main/java/com/microsoft/research/karya/ui/scenarios/imageData/ImageDataFragment.kt:218-224 | only entry i of the path list changes, to "" or the output path by the flag of i |
| `ImageData.ImageDataScreen.HandleGridImageClick` | client/app/src/main/java/com/microsoft/research/karya/ui/scenarios/imageData/ImageDataFragment.kt:226-233 | the index becomes the tapped page. A captured page opens the full view and keeps the capture label. An uncaptured page opens the capture view with its label and leaves the full view's label, path and arrows as they were |
| `ImageData.ImageDataScreen.UpdateFullImageView` | client/app/src/main/java/com/microsoft/research/karya/ui/scenarios/imageData/ImageDataFragment.kt:235-260 | label, bitmap path and both arrows match the current page and its neighbours' flags |
| `SpeechTranscription.PlayIcon` | app/src/main/java/com/microsoft/research/karya/ui/scenarios/speechTranscription/SpeechTranscriptionFragment.kt:213-219 | the play drawable is one of the enabled ones exactly when the state is not DISABLED |
| `SpeechTranscription.NextIcon` | app/src/main/java/com/microsoft/research/karya/ui/scenarios/speechTranscription/SpeechTranscriptionFragment.kt:221-227 | the next drawable is the enabled one exactly when the state is not DISABLED |
| `SpeechTranscription.BackIcon` | app/src/main/java/com/microsoft/research/karya/ui/scenarios/speechTranscription/SpeechTranscriptionFragment.kt:229-235 | the back drawable is the enabled one exactly when the state is not DISABLED |
| `SpeechTranscription.IconsOfStates` | app/src/main/java/com/microsoft/research/karya/ui/scenarios/speechTranscription/SpeechTranscriptionFragment.kt:213-235 | the play drawable tells all three states apart; next and back show ACTIVE like ENABLED and differ only for DISABLED |
| `SpeechTranscription.FlushButtonStates` | app/src/main/java/com/microsoft/research/karya/ui/scenarios/speechTranscription/SpeechTranscriptionFragment.kt:204-236 | each of play, back and next is clickable exactly when its state is not DISABLED, and its drawable agrees with its clickability |
| `SpeechTranscription.SpeechTranscriptionScreen.constructor` | app/src/main/java/com/microsoft/research/karya/ui/scenarios/speechTranscription/SpeechTranscriptionFragment.kt:30-35 | the screen starts with an empty text box, no assist buttons, disabled controls and no dialog |
| `SpeechTranscription.SpeechTranscriptionScreen.PlayClick` | app/src/main/java/com/microsoft/research/karya/ui/scenarios/speechTranscription/SpeechTranscriptionFragment.kt:63 | forwards the click to `handlePlayClick` |
| `SpeechTranscription.SpeechTranscriptionScreen.BackClick` | app/src/main/java/com/microsoft/research/karya/ui/scenarios/speechTranscription/SpeechTranscriptionFragment.kt:86 | forwards the click to `handleBackClick` |
| `SpeechTranscription.SpeechTranscriptionScreen.NextClick` | app/src/main/java/com/microsoft/research/karya/ui/scenarios/speechTranscription/SpeechTranscriptionFragment.kt:64-84 | an empty text only calls `skipTask(true, "", warning)`, and never `setTranscriptionText` or `handleNextClick`; a non-empty text opens the review dialog showing it |
| `SpeechTranscription.SpeechTranscriptionScreen.ReviewConfirm` | app/src/main/java/com/microsoft/research/karya/ui/scenarios/speechTranscription/SpeechTranscriptionFragment.kt:73-77 | "Yes" calls `setTranscriptionText` with the current text, then `handleNextClick`, then clears the box |
| `SpeechTranscription.SpeechTranscriptionScreen.ReviewDismiss` | app/src/main/java/com/microsoft/research/karya/ui/scenarios/speechTranscription/SpeechTranscriptionFragment.kt:78-81 | "No" or cancelling closes the dialog and changes nothing else |
| `SpeechTranscription.SpeechTranscriptionScreen.OnPlayerError` | app/src/main/java/com/microsoft/research/karya/ui/scenarios/speechTranscription/SpeechTranscriptionFragment.kt:88-92 | a player error is handed to `handleCorruptAudio` with its message |
| `SpeechTranscription.SpeechTranscriptionScreen.OnAssistWords` | app/src/main/java/com/microsoft/research/karya/ui/scenarios/speechTranscription/SpeechTranscriptionFragment.kt:97-118 | buttons are added once per word, in order, only to an empty layout. An empty list with a non-empty layout clears the text instead. A non-empty layout is otherwise left alone |
| `SpeechTranscription.SpeechTranscriptionScreen.AssistWordClick` | app/src/main/java/com/microsoft/research/karya/ui/scenarios/speechTranscription/SpeechTranscriptionFragment.kt:112-115 | the new text is the old text, a space and the word; the cursor is at its end |
| `SpeechTranscription.SpeechTranscriptionScreen.OnRecordingFilePath` | app/src/main/java/com/microsoft/research/karya/ui/scenarios/speechTranscription/SpeechTranscriptionFragment.kt:120-127 | an empty path is ignored; any other becomes the player's source |
| `SpeechTranscription.SpeechTranscriptionScreen.OnTranscriptionText` | app/src/main/java/com/microsoft/research/karya/ui/scenarios/speechTranscription/SpeechTranscriptionFragment.kt:129-133 | the emitted text replaces the box's text |
| `SpeechTranscription.SpeechTranscriptionScreen.OnPlaybackSecondsText` | app/src/main/java/com/microsoft/research/karya/ui/scenarios/speechTranscription/SpeechTranscriptionFragment.kt:135-139 | the seconds text is the emitted one |
| `SpeechTranscription.SpeechTranscriptionScreen.OnPlaybackCentiSecondsText` | app/src/main/java/com/microsoft/research/karya/ui/scenarios/speechTranscription/SpeechTranscriptionFragment.kt:141-145 | the centiseconds text is the emitted one |
| `SpeechTranscription.SpeechTranscriptionScreen.OnPlaybackProgressMax` | app/src/main/java/com/microsoft/research/karya/ui/scenarios/speechTranscription/SpeechTranscriptionFragment.kt:147-151 | the progress bar's maximum is the emitted one |
| `SpeechTranscription.SpeechTranscriptionScreen.OnPlaybackProgress` | app/src/main/java/com/microsoft/research/karya/ui/scenarios/speechTranscription/SpeechTranscriptionFragment.kt:153-157 | the progress bar's progress is the emitted one |
| `SpeechTranscription.SpeechTranscriptionScreen.OnButtonStates` | app/src/main/java/com/microsoft/research/karya/ui/scenarios/speechTranscription/SpeechTranscriptionFragment.kt:159-163 | the three controls are redrawn from the emitted triple |
| `SpeechTranscription.SpeechTranscriptionScreen.OnShowError` | app/src/main/java/com/microsoft/research/karya/ui/scenarios/speechTranscription/SpeechTranscriptionFragment.kt:165-171 | an empty message shows no dialog; any other shows one dialog with it |
| `HomeScreen.Wrap32` | app/src/main/java/com/microsoft/research/karya/ui/homeScreen/HomeScreenFragment.kt:130-132 | the result is the Kotlin `Int` congruent to the exact sum modulo 2^32, and a sum that fits in 32 bits is unchanged |
| `HomeScreen.Wrap32Add` | app/src/main/java/com/microsoft/research/karya/ui/homeScreen/HomeScreenFragment.kt:130-132 | wrapping an intermediate sum before the next addition gives the same wrapped result |
| `HomeScreen.Wrap32Shift` | app/src/main/java/com/microsoft/research/karya/ui/homeScreen/HomeScreenFragment.kt:130-132 | the wrap-around depends on its argument only modulo 2^32 |
| `HomeScreen.Wrap32Fold` | app/src/main/java/com/microsoft/research/karya/ui/homeScreen/HomeScreenFragment.kt:130-132 | five wrapped additions from left to right equal one wrap of the exact sum of the six operands |
| `HomeScreen.TaskTotal` | app/src/main/java/com/microsoft/research/karya/ui/homeScreen/HomeScreenFragment.kt:130-132 | for non-negative counts whose sum fits in an `Int`, the total is the sum of the six counts |
| `HomeScreen.StatsShownIffSomeTask` | app/src/main/java/com/microsoft/research/karya/ui/homeScreen/HomeScreenFragment.kt:130-144 | for such counts the total is positive exactly when some count is positive, so all-zero counts hide the panel |
| `HomeScreen.TaskTotalIsWrappedSum` | app/src/main/java/com/microsoft/research/karya/ui/homeScreen/HomeScreenFragment.kt:130-132 | for all counts, the left-to-right total is the exact sum of the six counts wrapped once to 32 bits |
| `HomeScreen.OverflowHidesStats` | app/src/main/java/com/microsoft/research/karya/ui/homeScreen/HomeScreenFragment.kt:130-134 | non-negative counts whose exact sum lies in [2^31, 2^32) give a negative total, which hides the panel |
| `HomeScreen.OverflowCanShowStats` | app/src/main/java/com/microsoft/research/karya/ui/homeScreen/HomeScreenFragment.kt:130-134 | counts (2^31-1, 2^31-1, 1, 1, 1, 1) sum past 2^32 and total 2, so the panel shows a wrong total |
| `HomeScreen.PaymentAction` | app/src/main/java/com/microsoft/research/karya/ui/homeScreen/HomeScreenFragment.kt:173-179 | every payments destination maps to a payment action |
| `HomeScreen.PaymentActionBijective` | app/src/main/java/com/microsoft/research/karya/ui/homeScreen/HomeScreenFragment.kt:173-179 | the four destinations map to four distinct actions, and every payment action is reached |
| `HomeScreen.EarningCardOutcome` | app/src/main/java/com/microsoft/research/karya/ui/homeScreen/HomeScreenFragment.kt:102-108 | payment navigation exactly when the total earned exceeds 2.0; otherwise only the "Please earn at least Rs 2" message |
| `HomeScreen.ProfileConfirmAction` | app/src/main/java/com/microsoft/research/karya/ui/homeScreen/HomeScreenFragment.kt:65-72 | confirm adds a new profile exactly when the last item is checked; otherwise it switches to the checked item's name |
| `HomeScreen.InitialChoiceAddsProfile` | app/src/main/java/com/microsoft/research/karya/ui/homeScreen/HomeScreenFragment.kt:57-58 | the initial checked item 1 is a valid item, it is the last one (so confirm adds a profile), and item 0 switches to "Divyansh" |
| `HomeScreen.StatsTextsOf` | app/src/main/java/com/microsoft/research/karya/ui/homeScreen/HomeScreenFragment.kt:136-141 | each of the six count texts is a well-formed integer text that reads back as the count it shows |
| `HomeScreen.StatsTextsDetermineSummary` | app/src/main/java/com/microsoft/research/karya/ui/homeScreen/HomeScreenFragment.kt:135-141 | the six count texts determine the task summary they were written from |
| `HomeScreen.Home.constructor` | app/src/main/java/com/microsoft/research/karya/ui/homeScreen/HomeScreenFragment.kt:25-28 | the screen starts with the payments flag fixed, the panel hidden, no dialog and empty logs |
| `HomeScreen.Home.OnResume` | app/src/main/java/com/microsoft/research/karya/ui/homeScreen/HomeScreenFragment.kt:36-42 | resuming refreshes points, task summary, performance and earnings, in that order |
| `HomeScreen.Home.OnUserIdLoaded` | app/src/main/java/com/microsoft/research/karya/ui/homeScreen/HomeScreenFragment.kt:47-54 | a stored user id becomes the toolbar title; a missing one changes nothing |
| `HomeScreen.Home.LogoClick` | app/src/main/java/com/microsoft/research/karya/ui/homeScreen/HomeScreenFragment.kt:56-79 | the logo opens the profile dialog with the two items and item 1 checked |
| `HomeScreen.Home.ProfileItemChosen` | app/src/main/java/com/microsoft/research/karya/ui/homeScreen/HomeScreenFragment.kt:74-77 | choosing an item sets `checkedItem` to it |
| `HomeScreen.Home.ProfileConfirm` | app/src/main/java/com/microsoft/research/karya/ui/homeScreen/HomeScreenFragment.kt:65-72 | confirm performs `ProfileConfirmAction` of the checked item and closes the dialog |
| `HomeScreen.Home.ProfileCancel` | app/src/main/java/com/microsoft/research/karya/ui/homeScreen/HomeScreenFragment.kt:62-64 | cancel closes the dialog and does nothing else |
| `HomeScreen.Home.NameClick` | app/src/main/java/com/microsoft/research/karya/ui/homeScreen/HomeScreenFragment.kt:82-85 | navigates to the profile |
| `HomeScreen.Home.LeaderboardClick` | app/src/main/java/com/microsoft/research/karya/ui/homeScreen/HomeScreenFragment.kt:88-91 | navigates to the leaderboard |
| `HomeScreen.Home.TaskSummaryClick` | app/src/main/java/com/microsoft/research/karya/ui/homeScreen/HomeScreenFragment.kt:94-97 | navigates to the dashboard |
| `HomeScreen.Home.EarningCardClick` | app/src/main/java/com/microsoft/research/karya/ui/homeScreen/HomeScreenFragment.kt:100-109 | refreshes the earnings, then calls `navigatePayment` exactly when the view model's current total earned, read after the refresh, exceeds 2.0; otherwise it only shows the message |
| `HomeScreen.Home.OnPoints` | app/src/main/java/com/microsoft/research/karya/ui/homeScreen/HomeScreenFragment.kt:115-117 | the points text is the decimal text of the points |
| `HomeScreen.Home.OnName` | app/src/main/java/com/microsoft/research/karya/ui/homeScreen/HomeScreenFragment.kt:119-121 | the name text is the emitted name |
| `HomeScreen.Home.OnPhoneNumber` | app/src/main/java/com/microsoft/research/karya/ui/homeScreen/HomeScreenFragment.kt:123-125 | the phone text is the emitted number |
| `HomeScreen.Home.OnTaskSummary` | app/src/main/java/com/microsoft/research/karya/ui/homeScreen/HomeScreenFragment.kt:128-146 | the panel is visible exactly when the 32-bit total is positive. When shown, each count text is the decimal text of its field. When hidden, the texts are untouched |
| `HomeScreen.Home.OnPerformanceSummary` | app/src/main/java/com/microsoft/research/karya/ui/homeScreen/HomeScreenFragment.kt:149-156 | the four ratings are the emitted ones |
| `HomeScreen.Home.OnEarningStatus` | app/src/main/java/com/microsoft/research/karya/ui/homeScreen/HomeScreenFragment.kt:159-165 | the earnings shown are the emitted ones |
| `HomeScreen.Home.OnNavigationFlow` | app/src/main/java/com/microsoft/research/karya/ui/homeScreen/HomeScreenFragment.kt:168-186 | with payments off nothing happens for any destination. With payments on, the destination's own action is requested. A failure to resolve it is logged and does not propagate |
| `SelectAgeGroup.SelectAgeGroupScreen.constructor` | client/app/src/main/java/com/microsoft/research/karya/ui/onboarding/age/SelectAgeGroupFragment.kt:24 | no age chosen, no button selected, submit not clickable |
| `SelectAgeGroup.SelectAgeGroupScreen.HandleAgeGroupClick` | client/app/src/main/java/com/microsoft/research/karya/ui/onboarding/age/SelectAgeGroupFragment.kt:99-118 | exactly the clicked group's button is selected, `currentAge` is that group, and submit is clickable with the enabled drawable |
| `SelectAgeGroup.SelectAgeGroupScreen.SubmitAgeGroup` | client/app/src/main/java/com/microsoft/research/karya/ui/onboarding/age/SelectAgeGroupFragment.kt:134-136 | submits the chosen age; with no age chosen the `lateinit` read throws and nothing is submitted |
| `SelectAgeGroup.SelectAgeGroupScreen.OnUiState` | client/app/src/main/java/com/microsoft/research/karya/ui/onboarding/age/SelectAgeGroupFragment.kt:47-56 | submit is clickable only in Success. The loading bar is visible, and submit hidden, only in Loading. The error text is visible, holding the message, only in Error. Submit's drawable always agrees with its clickability |
| `SelectAgeGroup.SelectAgeGroupScreen.OnNavigateEffect` | client/app/src/main/java/com/microsoft/research/karya/ui/onboarding/age/SelectAgeGroupFragment.kt:58-64 | the navigate effect goes to the dashboard and finishes the activity |
| `SelectAgeGroup.SelectAgeGroupScreen.ShowInitialUi` | client/app/src/main/java/com/microsoft/research/karya/ui/onboarding/age/SelectAgeGroupFragment.kt:66-72 | error hidden, loading hidden, submit shown but disabled |
| `SelectAgeGroup.SelectAgeGroupScreen.ShowLoadingUi` | client/app/src/main/java/com/microsoft/research/karya/ui/onboarding/age/SelectAgeGroupFragment.kt:74-80 | error hidden, loading shown in place of submit, submit disabled |
| `SelectAgeGroup.SelectAgeGroupScreen.ShowSuccessUi` | client/app/src/main/java/com/microsoft/research/karya/ui/onboarding/age/SelectAgeGroupFragment.kt:82-88 | error hidden, loading hidden, submit shown and enabled |
| `SelectAgeGroup.SelectAgeGroupScreen.ShowErrorUi` | client/app/src/main/java/com/microsoft/research/karya/ui/onboarding/age/SelectAgeGroupFragment.kt:90-97 | error shown with the message, loading hidden, submit shown but disabled |
| `SelectAgeGroup.SelectAgeGroupScreen.DisableAgeGroupSubmitButton` | client/app/src/main/java/com/microsoft/research/karya/ui/onboarding/age/SelectAgeGroupFragment.kt:120-125 | submit not clickable, with the disabled drawable |
| `SelectAgeGroup.SelectAgeGroupScreen.EnableAgeGroupSubmitButton` | client/app/src/main/java/com/microsoft/research/karya/ui/onboarding/age/SelectAgeGroupFragment.kt:127-132 | submit clickable, with the enabled drawable |
| `SelectAgeGroup.SelectAgeGroupScreen.HideLoading` | client/app/src/main/java/com/microsoft/research/karya/ui/onboarding/age/SelectAgeGroupFragment.kt:138-143 | loading bar gone, submit visible |
| `SelectAgeGroup.SelectAgeGroupScreen.ShowLoading` | client/app/src/main/java/com/microsoft/research/karya/ui/onboarding/age/SelectAgeGroupFragment.kt:145-150 | loading bar visible, submit gone |
| `Dashboard.ScenarioActivityFor` | client/app/src/main/java/com/microsoft/research/karya/ui/dashboard/DashboardActivity.kt:87-95 | "story-speech", "speech-data" and "speech-verification" have an activity; every other name fails with "Unimplemented scenario" |
| `Dashboard.ScenarioActivitiesDistinct` | client/app/src/main/java/com/microsoft/research/karya/ui/dashboard/DashboardActivity.kt:87-91 | the three implemented names lead to three different activities |
| `Dashboard.ItemIntent` | client/app/src/main/java/com/microsoft/research/karya/ui/dashboard/DashboardActivity.kt:85-99 | an intent exists exactly for the implemented names; it starts that name's activity and carries the task's `taskID` unchanged |
| `Dashboard.DashboardScreen.constructor` | client/app/src/main/java/com/microsoft/research/karya/ui/dashboard/DashboardActivity.kt:27-34 | the list starts empty and all tasks are requested |
| `Dashboard.DashboardScreen.SyncClick` | client/app/src/main/java/com/microsoft/research/karya/ui/dashboard/DashboardActivity.kt:52 | the sync card asks the view model to sync with the server |
| `Dashboard.DashboardScreen.OnUiState` | client/app/src/main/java/com/microsoft/research/karya/ui/dashboard/DashboardActivity.kt:58-66 | the progress bar is shown exactly in Loading; Success also replaces the list by its data; Error only hides the bar |
| `Dashboard.DashboardScreen.ShowSuccessUi` | client/app/src/main/java/com/microsoft/research/karya/ui/dashboard/DashboardActivity.kt:68-71 | the bar is hidden and the list is the emitted tasks |
| `Dashboard.DashboardScreen.ShowErrorUi` | client/app/src/main/java/com/microsoft/research/karya/ui/dashboard/DashboardActivity.kt:73-75 | the bar is hidden |
| `Dashboard.DashboardScreen.ShowLoadingUi` | client/app/src/main/java/com/microsoft/research/karya/ui/dashboard/DashboardActivity.kt:77-79 | the bar is shown |
| `Dashboard.DashboardScreen.ShowLoading` | client/app/src/main/java/com/microsoft/research/karya/ui/dashboard/DashboardActivity.kt:81 | the bar is shown |
| `Dashboard.DashboardScreen.HideLoading` | client/app/src/main/java/com/microsoft/research/karya/ui/dashboard/DashboardActivity.kt:83 | the bar is hidden |
| `Dashboard.DashboardScreen.OnDashboardItemClick` | client/app/src/main/java/com/microsoft/research/karya/ui/dashboard/DashboardActivity.kt:85-101 | a tapped task starts the intent `ItemIntent` gives; an unimplemented scenario returns the error and starts nothing |

## Left out

- Camera, bitmap decoding and file writing (`cameraCv`, `bitmapFromFile`, `result.toFile`) are hardware and library calls. The camera is a `cameraOpen` flag. A saved picture is the event `OnPictureSaved(saved)`, and the full view records the path it would decode.
- ImageData.ImageDataScreen.OnPictureSaved: the view model's `updateImageState` and its later re-emission are collapsed into setting the flag in place, as when the emitted list is the screen's own list.
- Widget values before the first emission come from layout files, which are not part of this model. The constructors pick empty texts and disabled navigation and submit controls. The image screen's start-capture, recapture and take-picture buttons start enabled, so that the first capture can begin.
- The physical rule that Android delivers clicks only to clickable views is not modelled. Each click handler is modelled as the source writes it, with no guard of its own.
- The spotlight tutorial (`setupSpotLight`, `delay(1000)`): float geometry, timing and a third-party library.
- The speech screen's instruction text is read from the task's JSON parameters, a library call that is left out.
- Coroutines, lifecycle observation and the DataStore read on the IO dispatcher are left out. Each observer is a method called with the emitted value, and the stored user id is a parameter.
- HomeScreen.Home.EarningCardClick: when the view model's refresh is synchronous, the total it decides on can differ from the earnings shown on the card. The current total is a parameter of the click, so the model does not tie the two together.
- Floats: `totalEarned` and the ratings are `real`. Only the `> 2.0` threshold is stated. The float-to-text conversion of the earnings card is left out, so `OnEarningStatus` records the emitted values.
- Navigation, `startActivity`, Toasts, dialogs and drawables are abstract values appended to log fields. Whether the navigation graph resolves an action is the parameter `resolves`. The name, leaderboard and task-summary navigations are assumed to resolve, since the source does not catch their failure.
- `addNewUserProfile` and `updateUserProfile` are not defined in the home screen file. They are recorded as `ProfileAction` values.
- `skipTask` belongs to the base renderer class, which is not part of this model. It is recorded as a call with its three arguments.
- SelectAgeGroup.SelectAgeGroupScreen.OnUiState: an error whose throwable has a null message makes `message!!` throw. The model's `Error` always carries a string.
- The dashboard's sync prompt text is a join of four resource strings, and is left out.
- `WorkerAPI.kt` (an HTTP interface with no logic) and `Destination.kt` (an enumeration with no behaviour) are not part of this model.
- Kotlin list indexing throws on an out-of-range index. The methods that index the page flags require an in-range index instead of modelling the exception.
- ImageData.ImageDataScreen.OnPictureSaved: requires the current index to be a page, so it does not model a save on an empty page list. That happens, for example, when a picture is taken before the first `imageState` emission: start-capture sets the index to `max(-1, 0)`, which is 0, and the source then throws in `updateAdapter` at ImageDataFragment.kt:219.
