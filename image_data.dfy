/**
 * The page-capture sequencer of the image data collection screen
 * (`ImageDataFragment`). A book is photographed page by page; page 0 is the
 * front cover. The screen keeps one flag per page ("captured?") and the index
 * of the page it is working on, moves between a grid of thumbnails, a camera
 * view and a full-size view of one captured page, and enables its arrows and
 * its completion button from the capture flags.
 */
module ImageData {
  import opened Widgets
  import Text
  import opened Outcomes

  /** Which of the three mutually exclusive views is visible. */
  datatype Panel = GridView | CaptureView | FullImageView

  /** The calls the screen makes into its view model. */
  datatype ViewModelCall =
    | UpdateImageState(index: nat, captured: bool)
    | CompleteDataCollection

  /** The label of page `i`: the cover is page 0, the rest are numbered. */
  function PageLabel(i: nat): (caption: string)
    ensures caption == "Front Cover" <==> i == 0
  {
    if i == 0 then "Front Cover"
    else
      var caption := "Page " + Text.NatToString(i);
      assert caption[0] != "Front Cover"[0];
      caption
  }

  /** Different pages never carry the same label. */
  lemma PageLabelInjective(i: nat, j: nat)
    ensures PageLabel(i) == PageLabel(j) ==> i == j
  {
    if i != 0 && j != 0 && PageLabel(i) == PageLabel(j) {
      var prefix := "Page ";
      assert PageLabel(i)[|prefix|..] == Text.NatToString(i);
      assert PageLabel(j)[|prefix|..] == Text.NatToString(j);
      Text.NatToStringRoundTrip(i);
      Text.NatToStringRoundTrip(j);
    } else if i == 0 && j != 0 {
      assert PageLabel(i)[0] != PageLabel(j)[0];
    } else if i != 0 && j == 0 {
      assert PageLabel(i)[0] != PageLabel(j)[0];
    }
  }

  /** Kotlin's `all { it }`: every page is captured. */
  function AllCaptured(s: seq<bool>): (r: bool)
    ensures r <==> forall k :: 0 <= k < |s| ==> s[k]
  {
    s == [] || (s[0] && AllCaptured(s[1..]))
  }

  /** The first uncaptured page at or after `k`, or `|s|` when there is none. */
  function FirstUncapturedFrom(s: seq<bool>, k: nat): (r: nat)
    requires k <= |s|
    ensures k <= r <= |s|
    ensures r < |s| ==> !s[r]
    ensures forall j :: k <= j < r ==> s[j]
    decreases |s| - k
  {
    if k == |s| then |s| else if !s[k] then k else FirstUncapturedFrom(s, k + 1)
  }

  /** Kotlin's `indexOf(false)`: the first uncaptured page, or -1 when all are captured. */
  function IndexOfUncaptured(s: seq<bool>): (r: int)
    ensures -1 <= r < |s|
    ensures r == -1 <==> forall k :: 0 <= k < |s| ==> s[k]
    ensures r >= 0 ==> !s[r] && forall k :: 0 <= k < r ==> s[k]
  {
    var j := FirstUncapturedFrom(s, 0);
    if j == |s| then -1 else j
  }

  /**
   * Where the camera goes after page `i` is saved: the nearest uncaptured page
   * after `i`, or `None` when every later page is captured.
   */
  function NextUncaptured(s: seq<bool>, i: nat): (r: Option<nat>)
    requires i < |s|
    ensures r.Some? ==> i < r.value < |s| && !s[r.value]
    ensures r.Some? ==> forall j :: i < j < r.value ==> s[j]
    ensures r.None? <==> forall j :: i < j < |s| ==> s[j]
  {
    var j := FirstUncapturedFrom(s, i + 1);
    if j < |s| then Some(j) else None
  }

  /** Kotlin's `mapIndexed`: the thumbnail path of every page, "" for an uncaptured one. */
  function PathList(s: seq<bool>, outputFilePath: nat -> string): (r: seq<string>)
    ensures |r| == |s|
    ensures forall k :: 0 <= k < |s| ==> r[k] == (if s[k] then outputFilePath(k) else "")
  {
    if s == [] then []
    else PathList(s[..|s| - 1], outputFilePath) + [if s[|s| - 1] then outputFilePath(|s| - 1) else ""]
  }

  /** Capturing page `i` changes exactly its thumbnail, to the path of the saved picture. */
  lemma PathListCapture(s: seq<bool>, outputFilePath: nat -> string, i: nat)
    requires i < |s|
    ensures PathList(s[i := true], outputFilePath) == PathList(s, outputFilePath)[i := outputFilePath(i)]
  {
    var a, b := PathList(s[i := true], outputFilePath), PathList(s, outputFilePath)[i := outputFilePath(i)];
    assert forall k :: 0 <= k < |s| ==> a[k] == b[k];
  }

  /** The completion button: usable exactly when every page is captured. */
  function CompletionButton(s: seq<bool>): (b: Button)
    ensures b.clickable <==> forall k :: 0 <= k < |s| ==> s[k]
    ensures Agrees(b) && (b.icon == NextEnabled || b.icon == NextDisabled)
  {
    if AllCaptured(s) then Button(true, NextEnabled) else Button(false, NextDisabled)
  }

  /** The "previous page" arrow of the full-size view of page `i`. */
  function PreviousImageButton(s: seq<bool>, i: nat): (b: Button)
    requires i < |s|
    ensures b.clickable <==> i > 0 && s[i - 1]
    ensures Agrees(b) && (b.icon == BackEnabled || b.icon == BackDisabled)
  {
    if i == 0 || !s[i - 1] then Button(false, BackDisabled) else Button(true, BackEnabled)
  }

  /** The "next page" arrow of the full-size view of page `i`. */
  function NextImageButton(s: seq<bool>, i: nat): (b: Button)
    requires i < |s|
    ensures b.clickable <==> i < |s| - 1 && s[i + 1]
    ensures Agrees(b) && (b.icon == NextEnabled || b.icon == NextDisabled)
  {
    if i == |s| - 1 || !s[i + 1] then Button(false, NextDisabled) else Button(true, NextEnabled)
  }

  class ImageDataScreen {
    /** The view model's `outputFilePath(index)`: where the picture of a page is stored. */
    const outputFilePath: nat -> string
    /** The instruction resource string; its `#` stands for the number of pages after the cover. */
    const instructionTemplate: string

    var localImageState: seq<bool>
    var currentImageIndex: nat
    var instructionText: string
    /** Whether `imageListAdapter` has been created; `pathList` is the adapter's item list. */
    var adapterInitialized: bool
    var pathList: seq<string>
    var panel: Panel
    var cameraOpen: bool
    var imageLabel: string
    var fullImageLabel: string
    /** The file the full-size view decodes its bitmap from. */
    var fullImagePath: string
    var nextBtn: Button
    var previousImage: Button
    var nextImage: Button
    var startCaptureEnabled: bool
    var recaptureEnabled: bool
    var takePictureEnabled: bool
    var calls: seq<ViewModelCall>

    /** The adapter, once created, holds one item per page. */
    ghost predicate Valid()
      reads this
    {
      adapterInitialized ==> |pathList| == |localImageState|
    }

    constructor (outputFilePath: nat -> string, instructionTemplate: string)
      ensures Valid()
      ensures this.outputFilePath == outputFilePath && this.instructionTemplate == instructionTemplate
      ensures localImageState == [] && currentImageIndex == 0
      ensures !adapterInitialized && pathList == [] && calls == []
      ensures panel == GridView && !cameraOpen
      ensures startCaptureEnabled && recaptureEnabled && takePictureEnabled
    {
      this.outputFilePath := outputFilePath;
      this.instructionTemplate := instructionTemplate;
      localImageState := [];
      currentImageIndex := 0;
      instructionText := instructionTemplate;
      adapterInitialized := false;
      pathList := [];
      panel := GridView;
      cameraOpen := false;
      imageLabel := "";
      fullImageLabel := "";
      fullImagePath := "";
      nextBtn := Button(false, NextDisabled);
      previousImage := Button(false, BackDisabled);
      nextImage := Button(false, NextDisabled);
      startCaptureEnabled := true;
      recaptureEnabled := true;
      takePictureEnabled := true;
      calls := [];
    }

    /** The `imageState` observer: adopt the emitted flags and redraw what depends on them. */
    method OnImageState(state: seq<bool>)
      requires Valid()
      modifies this`localImageState, this`instructionText, this`adapterInitialized, this`pathList, this`nextBtn
      ensures Valid()
      ensures localImageState == state
      ensures instructionText == Text.ReplaceChar(instructionTemplate, '#', Text.IntToString(|state| - 1))
      ensures if !old(adapterInitialized) || old(|pathList|) != |state|
              then adapterInitialized && pathList == PathList(state, outputFilePath)
              else adapterInitialized && pathList == old(pathList)
      ensures nextBtn == CompletionButton(state)
    {
      localImageState := state;
      instructionText := Text.ReplaceChar(instructionTemplate, '#', Text.IntToString(|state| - 1));
      if !adapterInitialized || |pathList| != |state| {
        ResetAdapter();
      }
      UpdateNavigationState(state);
    }

    /** The start-capture button: aim the camera at the first uncaptured page, or the cover. */
    method StartCaptureClick()
      modifies this`currentImageIndex, this`startCaptureEnabled, this`recaptureEnabled, this`cameraOpen
      ensures var first := IndexOfUncaptured(localImageState);
        currentImageIndex == if first < 0 then 0 else first
      ensures !startCaptureEnabled && !recaptureEnabled && cameraOpen
    {
      var index := IndexOfUncaptured(localImageState);
      currentImageIndex := if index > 0 then index else 0;
      startCaptureEnabled := false;
      recaptureEnabled := false;
      cameraOpen := true;
    }

    /** The camera reports that it is open. */
    method OnCameraOpened()
      modifies this`panel, this`imageLabel
      ensures panel == CaptureView && imageLabel == PageLabel(currentImageIndex)
    {
      SwitchToCaptureView();
    }

    /** The camera reports that it is closed. */
    method OnCameraClosed()
      modifies this`startCaptureEnabled, this`recaptureEnabled
      ensures startCaptureEnabled && recaptureEnabled
    {
      startCaptureEnabled := true;
      recaptureEnabled := true;
    }

    /** The take-picture button; the camera answers later with `OnPictureSaved`. */
    method TakePictureClick()
      modifies this`takePictureEnabled
      ensures !takePictureEnabled
    {
      takePictureEnabled := false;
    }

    /**
     * The picture of the current page was written to its file (`saved`), or
     * the camera delivered no file. Saving marks the page captured, refreshes
     * its thumbnail and moves on to the next uncaptured page.
     */
    method OnPictureSaved(saved: bool)
      requires Valid() && adapterInitialized && currentImageIndex < |localImageState|
      modifies this`localImageState, this`pathList, this`calls, this`currentImageIndex,
        this`panel, this`cameraOpen, this`imageLabel, this`takePictureEnabled
      ensures Valid()
      ensures !saved ==> (
        localImageState == old(localImageState) && pathList == old(pathList) &&
        calls == old(calls) && currentImageIndex == old(currentImageIndex) && panel == old(panel) &&
        cameraOpen == old(cameraOpen) && imageLabel == old(imageLabel) &&
        takePictureEnabled == old(takePictureEnabled))
      ensures saved ==> localImageState == old(localImageState)[old(currentImageIndex) := true]
      ensures saved ==> pathList == old(pathList)[old(currentImageIndex) := outputFilePath(old(currentImageIndex))]
      ensures saved ==> calls == old(calls) + [UpdateImageState(old(currentImageIndex), true)]
      ensures saved ==> takePictureEnabled
      ensures saved ==> match NextUncaptured(localImageState, old(currentImageIndex))
        case Some(j) => (currentImageIndex == j && imageLabel == PageLabel(j) &&
          panel == old(panel) && cameraOpen == old(cameraOpen))
        case None => (currentImageIndex == 0 && panel == GridView && !cameraOpen &&
          imageLabel == old(imageLabel))
      ensures old(pathList == PathList(localImageState, outputFilePath)) ==>
        pathList == PathList(localImageState, outputFilePath)
    {
      if saved {
        ghost var before := localImageState;
        var i := currentImageIndex;
        calls := calls + [UpdateImageState(i, true)];
        localImageState := localImageState[i := true];
        UpdateAdapter(i);
        MoveToNextImage();
        takePictureEnabled := true;
        PathListCapture(before, outputFilePath, i);
      }
    }

    /** The back-to-grid button of the camera view. */
    method BackToGridViewClick()
      modifies this`panel, this`cameraOpen
      ensures panel == GridView && !cameraOpen
    {
      SwitchToGridView();
    }

    /** The close button of the full-size view. */
    method CloseFullImageViewClick()
      modifies this`panel, this`cameraOpen
      ensures panel == GridView && !cameraOpen
    {
      SwitchToGridView();
    }

    /** The completion button hands the collected pages to the view model. */
    method NextClick()
      modifies this`calls
      ensures calls == old(calls) + [CompleteDataCollection]
    {
      calls := calls + [CompleteDataCollection];
    }

    /** The recapture button reopens the camera on the current page. */
    method RecaptureClick()
      modifies this`startCaptureEnabled, this`recaptureEnabled, this`cameraOpen
      ensures !startCaptureEnabled && !recaptureEnabled && cameraOpen
    {
      recaptureEnabled := false;
      startCaptureEnabled := false;
      cameraOpen := true;
    }

    /** The next-page arrow of the full-size view steps forward, never past the last page. */
    method NextImageClick()
      modifies this`currentImageIndex, this`fullImageLabel, this`fullImagePath, this`previousImage, this`nextImage
      ensures old(currentImageIndex) < |localImageState| - 1 ==>
        currentImageIndex == old(currentImageIndex) + 1 && FullImageShows(currentImageIndex)
      ensures old(currentImageIndex) >= |localImageState| - 1 ==>
        currentImageIndex == old(currentImageIndex) && fullImageLabel == old(fullImageLabel) &&
        fullImagePath == old(fullImagePath) && previousImage == old(previousImage) && nextImage == old(nextImage)
    {
      if currentImageIndex < |localImageState| - 1 {
        currentImageIndex := currentImageIndex + 1;
        UpdateFullImageView();
      }
    }

    /** The previous-page arrow of the full-size view steps back, never before the cover. */
    method PreviousImageClick()
      requires currentImageIndex <= |localImageState|
      modifies this`currentImageIndex, this`fullImageLabel, this`fullImagePath, this`previousImage, this`nextImage
      ensures old(currentImageIndex) > 0 ==>
        currentImageIndex == old(currentImageIndex) - 1 && FullImageShows(currentImageIndex)
      ensures old(currentImageIndex) == 0 ==>
        currentImageIndex == 0 && fullImageLabel == old(fullImageLabel) &&
        fullImagePath == old(fullImagePath) && previousImage == old(previousImage) && nextImage == old(nextImage)
    {
      if currentImageIndex > 0 {
        currentImageIndex := currentImageIndex - 1;
        UpdateFullImageView();
      }
    }

    /** The completion button follows the capture flags. */
    method UpdateNavigationState(imageState: seq<bool>)
      modifies this`nextBtn
      ensures nextBtn == CompletionButton(imageState)
    {
      nextBtn := CompletionButton(imageState);
    }

    method SwitchToGridView()
      modifies this`panel, this`cameraOpen
      ensures panel == GridView && !cameraOpen
    {
      panel := GridView;
      cameraOpen := false;
    }

    method SwitchToCaptureView()
      modifies this`panel, this`imageLabel
      ensures panel == CaptureView && imageLabel == PageLabel(currentImageIndex)
    {
      panel := CaptureView;
      imageLabel := PageLabel(currentImageIndex);
    }

    method SwitchToFullImageDisplayView()
      requires currentImageIndex < |localImageState|
      modifies this`panel, this`fullImageLabel, this`fullImagePath, this`previousImage, this`nextImage
      ensures panel == FullImageView && FullImageShows(currentImageIndex)
    {
      panel := FullImageView;
      UpdateFullImageView();
    }

    /**
     * After the picture of the current page is saved: scan forward past the
     * captured pages; stop on the first uncaptured one, or go back to the grid
     * (and the cover) when the scan runs off the end.
     */
    method MoveToNextImage()
      requires currentImageIndex < |localImageState|
      modifies this`currentImageIndex, this`panel, this`cameraOpen, this`imageLabel
      ensures currentImageIndex < |localImageState|
      ensures match NextUncaptured(localImageState, old(currentImageIndex))
        case Some(j) => (currentImageIndex == j && imageLabel == PageLabel(j) &&
          panel == old(panel) && cameraOpen == old(cameraOpen))
        case None => (currentImageIndex == 0 && panel == GridView && !cameraOpen &&
          imageLabel == old(imageLabel))
    {
      currentImageIndex := currentImageIndex + 1;
      while currentImageIndex < |localImageState| && localImageState[currentImageIndex]
        invariant old(currentImageIndex) < currentImageIndex <= |localImageState|
        invariant FirstUncapturedFrom(localImageState, currentImageIndex) ==
          FirstUncapturedFrom(localImageState, old(currentImageIndex) + 1)
        modifies this`currentImageIndex
        decreases |localImageState| - currentImageIndex
      {
        currentImageIndex := currentImageIndex + 1;
      }
      if currentImageIndex >= |localImageState| {
        currentImageIndex := 0;
        SwitchToGridView();
      } else {
        imageLabel := PageLabel(currentImageIndex);
      }
    }

    /** Rebuild the grid adapter from the capture flags. */
    method ResetAdapter()
      modifies this`adapterInitialized, this`pathList
      ensures adapterInitialized && pathList == PathList(localImageState, outputFilePath)
    {
      pathList := PathList(localImageState, outputFilePath);
      adapterInitialized := true;
    }

    /** Refresh the thumbnail of page `index` from its capture flag. */
    method UpdateAdapter(index: nat)
      requires adapterInitialized && index < |pathList| && index < |localImageState|
      modifies this`pathList
      ensures pathList == old(pathList)[index := if localImageState[index] then outputFilePath(index) else ""]
    {
      var path := if localImageState[index] then outputFilePath(index) else "";
      pathList := pathList[index := path];
    }

    /** A thumbnail was tapped: show a captured page full size, photograph an uncaptured one. */
    method HandleGridImageClick(index: nat)
      requires index < |localImageState|
      modifies this`currentImageIndex, this`panel, this`imageLabel, this`fullImageLabel,
        this`fullImagePath, this`previousImage, this`nextImage
      ensures currentImageIndex == index
      ensures localImageState[index] ==>
        panel == FullImageView && FullImageShows(index) && imageLabel == old(imageLabel)
      ensures !localImageState[index] ==>
        panel == CaptureView && imageLabel == PageLabel(index) &&
        fullImageLabel == old(fullImageLabel) && fullImagePath == old(fullImagePath) &&
        previousImage == old(previousImage) && nextImage == old(nextImage)
    {
      currentImageIndex := index;
      if localImageState[index] {
        SwitchToFullImageDisplayView();
      } else {
        SwitchToCaptureView();
      }
    }

    /** The full-size view shows page `i`, with arrows towards its captured neighbours only. */
    ghost predicate FullImageShows(i: nat)
      reads this
    {
      i < |localImageState| &&
      fullImageLabel == PageLabel(i) && fullImagePath == outputFilePath(i) &&
      previousImage == PreviousImageButton(localImageState, i) &&
      nextImage == NextImageButton(localImageState, i)
    }

    method UpdateFullImageView()
      requires currentImageIndex < |localImageState|
      modifies this`fullImageLabel, this`fullImagePath, this`previousImage, this`nextImage
      ensures FullImageShows(currentImageIndex)
    {
      fullImageLabel := PageLabel(currentImageIndex);
      fullImagePath := outputFilePath(currentImageIndex);
      if currentImageIndex == 0 || !localImageState[currentImageIndex - 1] {
        previousImage := Button(false, BackDisabled);
      } else {
        previousImage := Button(true, BackEnabled);
      }
      if currentImageIndex == |localImageState| - 1 || !localImageState[currentImageIndex + 1] {
        nextImage := Button(false, NextDisabled);
      } else {
        nextImage := Button(true, NextEnabled);
      }
    }
  }
}
