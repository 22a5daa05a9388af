/**
  The app-level logic of the camera app: the three-screen navigation, the
  auto-sized text block of the overlay preview, and where the rendered
  overlay is pasted onto a captured photo.
*/
module GpsMapCameraApp {
  import opened OverlayRepository
  import opened BitmapUtils

  // ---------------------------------------------------------------------------
  // Navigation
  // ---------------------------------------------------------------------------

  datatype Screen = Home | Configure | Camera

  const HomeKey := "home"
  const ConfigureKey := "configure"
  const CameraKey := "camera"

  /** The screen a saved key shows; every unknown key shows the home screen. */
  function ScreenOf(key: string): (screen: Screen)
    ensures screen == Configure <==> key == ConfigureKey
    ensures screen == Camera <==> key == CameraKey
    ensures screen == Home <==> key != ConfigureKey && key != CameraKey
  {
    if key == ConfigureKey then Configure
    else if key == CameraKey then Camera
    else Home
  }

  /**
    What can happen to the navigation: the buttons' callbacks, and the end of a
    save. Tapping "Save" only launches the save in a coroutine scope that
    outlives the configure screen; the key is written when the store's edit
    completes, on whatever screen is shown by then.
  */
  datatype Event = ConfigureTapped | OpenCameraTapped | BackTapped | SaveTapped | SaveCompleted

  /** The callbacks a screen hands to its buttons while it is shown. */
  function Offers(screen: Screen): (events: set<Event>)
    ensures BackTapped in events <==> screen != Home
    ensures ConfigureTapped in events <==> screen == Home
    ensures OpenCameraTapped in events <==> screen == Home
    ensures SaveTapped in events <==> screen == Configure
    ensures SaveCompleted !in events
  {
    match screen
    case Home => {ConfigureTapped, OpenCameraTapped}
    case Configure => {BackTapped, SaveTapped}
    case Camera => {BackTapped}
  }

  /** The key an event writes; the tap on "Save" writes none. */
  function KeyWritten(e: Event): (key: Option<string>)
    ensures key.None? <==> e == SaveTapped
    ensures key.Some? ==> (ScreenOf(key.value) == Home <==> e == BackTapped || e == SaveCompleted)
  {
    match e
    case ConfigureTapped => Some(ConfigureKey)
    case OpenCameraTapped => Some(CameraKey)
    case BackTapped => Some(HomeKey)
    case SaveTapped => None
    case SaveCompleted => Some(HomeKey)
  }

  /** The screen that follows `screen` on `e`: a button only acts while its
      screen is shown, and the end of a save acts on every screen. */
  function Step(screen: Screen, e: Event): (next: Option<Screen>)
    ensures next.Some? <==> e in Offers(screen) || e == SaveCompleted
    ensures e == SaveCompleted ==> next == Some(Home)
  {
    if e !in Offers(screen) && e != SaveCompleted then None
    else match KeyWritten(e)
      case None => Some(screen)
      case Some(key) => Some(ScreenOf(key))
  }

  /** The whole transition relation: home opens either screen, back leads home,
      tapping "Save" stays on the configure screen, and the end of a save leads
      home from every screen, the camera screen included. */
  lemma Transitions(screen: Screen, e: Event, next: Screen)
    requires Step(screen, e) == Some(next)
    ensures e in {ConfigureTapped, OpenCameraTapped, BackTapped} ==> (screen == Home <==> next != Home)
    ensures e == SaveTapped ==> screen == Configure && next == Configure
    ensures e == SaveCompleted ==> next == Home
    ensures next == Configure <==> (screen == Home && e == ConfigureTapped) || (screen == Configure && e == SaveTapped)
    ensures next == Camera <==> screen == Home && e == OpenCameraTapped
  {
  }

  /** A save launched on the configure screen can complete after the user has
      gone back and opened the camera: the camera screen is then left for home
      without its back button. */
  lemma SaveCompletionLeavesCamera()
    ensures Step(Configure, SaveTapped) == Some(Configure)
    ensures Step(Configure, BackTapped) == Some(Home)
    ensures Step(Home, OpenCameraTapped) == Some(Camera)
    ensures Step(Camera, SaveCompleted) == Some(Home)
  {
  }

  /** Every screen can be reached from every other in at most two steps, through home. */
  lemma EveryScreenReachable(from: Screen, to: Screen)
    ensures || from == to
            || (exists e :: Step(from, e) == Some(to))
            || (exists e1, e2 :: Step(from, e1) == Some(Home) && Step(Home, e2) == Some(to))
  {
    if from == to {
    } else if from != Home {
      if to == Home {
        assert Step(from, BackTapped) == Some(to);
      } else {
        var e2 := if to == Configure then ConfigureTapped else OpenCameraTapped;
        assert Step(from, BackTapped) == Some(Home) && Step(Home, e2) == Some(to);
      }
    } else {
      var e1 := if to == Configure then ConfigureTapped else OpenCameraTapped;
      assert Step(from, e1) == Some(to);
    }
  }

  /** The sequence without its `i`-th element. */
  function RemoveAt<T>(s: seq<T>, i: nat): (r: seq<T>)
    requires i < |s|
    ensures |r| == |s| - 1
    ensures forall j :: 0 <= j < i ==> r[j] == s[j]
    ensures forall j :: i <= j < |r| ==> r[j] == s[j + 1]
  {
    s[..i] + s[i + 1..]
  }

  /**
    The app's state: the saved screen key, the settings repository, and the
    saves launched but not yet completed (each one a coroutine in flight).
  */
  class App {
    var currentScreenKey: string
    var pendingSaves: seq<OverlayConfig>
    const repository: Repository

    /** A fresh start: the saved key begins at "home" and no save is in flight. */
    constructor (repository: Repository)
      ensures currentScreenKey == HomeKey && pendingSaves == [] && this.repository == repository
      ensures CurrentScreen() == Home
    {
      currentScreenKey := HomeKey;
      pendingSaves := [];
      this.repository := repository;
    }

    function CurrentScreen(): Screen
      reads this
    {
      ScreenOf(currentScreenKey)
    }

    /** The settings the screens are composed with. */
    function Config(): OverlayConfig
      reads this, repository
    {
      repository.Config()
    }

    /** Home screen, "Configure Overlay". */
    method OnConfigure()
      requires ConfigureTapped in Offers(CurrentScreen())
      modifies this
      ensures currentScreenKey == ConfigureKey && pendingSaves == old(pendingSaves)
      ensures Step(old(CurrentScreen()), ConfigureTapped) == Some(CurrentScreen())
    {
      currentScreenKey := ConfigureKey;
    }

    /** Home screen, "Open Camera". */
    method OnOpenCamera()
      requires OpenCameraTapped in Offers(CurrentScreen())
      modifies this
      ensures currentScreenKey == CameraKey && pendingSaves == old(pendingSaves)
      ensures Step(old(CurrentScreen()), OpenCameraTapped) == Some(CurrentScreen())
    {
      currentScreenKey := CameraKey;
    }

    /** Configure or camera screen, "Back"; saves in flight go on. */
    method OnBack()
      requires BackTapped in Offers(CurrentScreen())
      modifies this
      ensures currentScreenKey == HomeKey && pendingSaves == old(pendingSaves)
      ensures Step(old(CurrentScreen()), BackTapped) == Some(CurrentScreen())
    {
      currentScreenKey := HomeKey;
    }

    /** Configure screen, "Save": launches the save of `updated` and returns at
        once; the screen, the key and the store are left as they are. */
    method OnSaveTapped(updated: OverlayConfig)
      requires SaveTapped in Offers(CurrentScreen())
      modifies this
      ensures pendingSaves == old(pendingSaves) + [updated]
      ensures currentScreenKey == old(currentScreenKey)
      ensures Step(old(CurrentScreen()), SaveTapped) == Some(CurrentScreen())
    {
      pendingSaves := pendingSaves + [updated];
    }

    /**
      The `i`-th save in flight reaches its end, whatever screen is shown:
      the store's edit writes the settings, then the key becomes "home".
      `writeFails` stands for the edit throwing: it is then not applied and
      the coroutine stops before the key is assigned.
    */
    method OnSaveCompleted(i: nat, writeFails: bool)
      requires i < |pendingSaves|
      modifies this, repository
      ensures pendingSaves == RemoveAt(old(pendingSaves), i)
      ensures writeFails ==> currentScreenKey == old(currentScreenKey) && repository.prefs == old(repository.prefs)
      ensures !writeFails ==> currentScreenKey == HomeKey
                              && repository.prefs == SavedPrefs(old(repository.prefs), old(pendingSaves[i]))
      ensures !writeFails ==> Step(old(CurrentScreen()), SaveCompleted) == Some(CurrentScreen())
      ensures !writeFails ==> Config() == old(pendingSaves[i])
    {
      var updated := pendingSaves[i];
      pendingSaves := RemoveAt(pendingSaves, i);
      if writeFails {
        return;
      }
      repository.Save(updated);
      currentScreenKey := HomeKey;
    }
  }

  // ---------------------------------------------------------------------------
  // The overlay text
  // ---------------------------------------------------------------------------

  /** `start downTo end`. */
  function DownTo(start: int, end: int): (r: seq<int>)
    ensures |r| == if start < end then 0 else start - end + 1
    ensures forall i :: 0 <= i < |r| ==> r[i] == start - i
    decreases start - end
  {
    if start < end then [] else [start] + DownTo(start - 1, end)
  }

  /** The sizes the text block tries, largest first. */
  function CandidateSizes(baseSize: real, minSize: real): (sizes: seq<real>)
    ensures |sizes| >= 1
    ensures FloatToInt(baseSize) <= FloatToInt(minSize) ==> sizes == [baseSize]
    ensures FloatToInt(baseSize) > FloatToInt(minSize) ==>
      && |sizes| == FloatToInt(baseSize) - FloatToInt(minSize) + 1
      && sizes[0] == FloatToInt(baseSize) as real
      && sizes[|sizes| - 1] == FloatToInt(minSize) as real
      && forall i :: 0 < i < |sizes| ==> sizes[i] == sizes[i - 1] - 1.0
  {
    var start := FloatToInt(baseSize);
    var end := FloatToInt(minSize);
    if start <= end then [baseSize]
    else
      var ints := DownTo(start, end);
      seq(|ints|, i requires 0 <= i < |ints| => ints[i] as real)
  }

  /** The preview's sizes: 13, 12, ..., 8. */
  lemma PreviewCandidateSizes()
    ensures CandidateSizes(13.0, 8.0) == [13.0, 12.0, 11.0, 10.0, 9.0, 8.0]
  {
    var s := CandidateSizes(13.0, 8.0);
    assert FloatToInt(13.0) == 13 && FloatToInt(8.0) == 8;
    assert |s| == 6;
    assert s[0] == 13.0 && s[1] == 12.0 && s[2] == 11.0 && s[3] == 10.0 && s[4] == 9.0 && s[5] == 8.0;
  }

  /** The position of the first size that fits, or `|sizes|` when none does. */
  function FirstFitIndex(sizes: seq<real>, fits: real -> bool): (i: nat)
    ensures i <= |sizes|
    ensures forall j :: 0 <= j < i ==> !fits(sizes[j])
    ensures i < |sizes| ==> fits(sizes[i])
  {
    if |sizes| == 0 then 0
    else if fits(sizes[0]) then 0
    else 1 + FirstFitIndex(sizes[1..], fits)
  }

  /** `sizes.firstOrNull(fits) ?: sizes.last()`. */
  function SelectedSize(sizes: seq<real>, fits: real -> bool): (size: real)
    requires |sizes| > 0
    ensures size in sizes
    ensures (forall j :: 0 <= j < |sizes| ==> !fits(sizes[j])) ==> size == sizes[|sizes| - 1]
    ensures (exists j :: 0 <= j < |sizes| && fits(sizes[j])) ==>
      exists i :: 0 <= i < |sizes| && size == sizes[i] && fits(size)
                  && forall j :: 0 <= j < i ==> !fits(sizes[j])
  {
    var i := FirstFitIndex(sizes, fits);
    if i < |sizes| then sizes[i] else sizes[|sizes| - 1]
  }

  /** A size fits when the text measured at the clamped width is no taller than the clamped height. */
  function FitsBox(measure: LayoutHeight, text: string, maxLines: int, maxWidth: int, maxHeight: int): (fits: real -> bool)
    ensures maxWidth >= 1 && maxHeight >= 1 ==>
      forall size :: fits(size) <==> measure(text, size, maxWidth, maxLines) <= maxHeight
    ensures maxHeight < 1 ==> forall size :: fits(size) <==> measure(text, size, Max(maxWidth, 1), maxLines) <= 1
    ensures maxWidth < 1 ==> forall size :: fits(size) <==> measure(text, size, 1, maxLines) <= Max(maxHeight, 1)
  {
    var width, height := Max(maxWidth, 1), Max(maxHeight, 1);
    size => measure(text, size, width, maxLines) <= height
  }

  /** The font size the text block is shown at inside a box of the given constraints. */
  function AutoSizeTextBlock(text: string, maxWidth: int, maxHeight: int, maxLines: int,
                             baseSize: real, minSize: real, measure: LayoutHeight): (size: real)
    ensures var sizes := CandidateSizes(baseSize, minSize);
      var fits := FitsBox(measure, text, maxLines, maxWidth, maxHeight);
      && size in sizes
      && ((forall j :: 0 <= j < |sizes| ==> !fits(sizes[j])) ==> size == sizes[|sizes| - 1])
      && ((exists j :: 0 <= j < |sizes| && fits(sizes[j])) ==>
            exists i :: 0 <= i < |sizes| && size == sizes[i] && fits(size)
                        && forall j :: 0 <= j < i ==> !fits(sizes[j]))
  {
    SelectedSize(CandidateSizes(baseSize, minSize), FitsBox(measure, text, maxLines, maxWidth, maxHeight))
  }

  /** The size selected for the overlay text is the first size, 13 down to 8, at which
      the (placeholder-substituted) details fit the box; 8 when none does. */
  lemma OverlayPanelTextSize(config: OverlayConfig, maxWidth: int, maxHeight: int, measure: LayoutHeight)
    ensures var text := TextBlock(config.details);
      var size := AutoSizeTextBlock(text, maxWidth, maxHeight, 5, 13.0, 8.0, measure);
      var fits := FitsBox(measure, text, 5, maxWidth, maxHeight);
      && size in {13.0, 12.0, 11.0, 10.0, 9.0, 8.0}
      && (fits(size) || size == 8.0)
      && forall larger :: larger in {13.0, 12.0, 11.0, 10.0, 9.0} && larger > size ==> !fits(larger)
  {
    PreviewCandidateSizes();
    var text := TextBlock(config.details);
    var sizes := CandidateSizes(13.0, 8.0);
    var fits := FitsBox(measure, text, 5, maxWidth, maxHeight);
    var i := FirstFitIndex(sizes, fits);
    forall larger | larger in {13.0, 12.0, 11.0, 10.0, 9.0} && larger > AutoSizeTextBlock(text, maxWidth, maxHeight, 5, 13.0, 8.0, measure)
      ensures !fits(larger)
    {
      var j := (13.0 - larger).Floor;
      assert sizes[j] == larger;
    }
  }

  // ---------------------------------------------------------------------------
  // Pasting the overlay onto a capture
  // ---------------------------------------------------------------------------

  /** The row at which the overlay bitmap is drawn onto the cropped photo. */
  function PasteOffset(croppedHeight: int, overlayHeight: int, bottomPadding: int): (yOffset: int)
    ensures yOffset >= 0
    ensures yOffset >= croppedHeight - overlayHeight - bottomPadding
    ensures yOffset == 0 || yOffset + overlayHeight + bottomPadding == croppedHeight
  {
    Max(croppedHeight - overlayHeight - bottomPadding, 0)
  }

  /** Where the overlay of a capture goes: the photo's size after the crop,
      the overlay's height, the bottom padding and the paste row. */
  datatype Placement = Placement(width: nat, height: nat, overlayHeight: int, bottomPadding: int, yOffset: int)

  /** The width of the photo after the crop: the window's, or the whole photo's. */
  function CroppedWidth(crop: Crop, width: nat): int
  {
    if crop.Window? then crop.width else width
  }

  /** The height of the photo after the crop: the window's, or the whole photo's. */
  function CroppedHeight(crop: Crop, height: nat): int
  {
    if crop.Window? then crop.height else height
  }

  /** The capture path from the decoded photo to the paste row: crop to the
      preview's aspect, size the overlay (22% of the cropped height, truncated)
      and its bottom padding (3%, truncated), render the overlay at the cropped
      width and that height, place it. `None` stands for a step throwing: the
      crop asking for an empty window, or the overlay bitmap asked for with a
      width or height of 0, which cannot be created. */
  function CapturePlacement(width: nat, height: nat, previewAspect: real): (placement: Option<Placement>)
    ensures var crop := CropCenterToAspect(width, height, previewAspect);
      var w, h := CroppedWidth(crop, width), CroppedHeight(crop, height);
      && (crop.CreateFailed? ==> placement.None?)
      && (!crop.CreateFailed? ==> (placement.None? <==> w == 0 || FloatToInt(h as real * 0.22) == 0))
      && (placement.Some? ==>
            && placement.value.width == w && placement.value.height == h
            && placement.value.overlayHeight == FloatToInt(h as real * 0.22) >= 1
            && placement.value.bottomPadding == FloatToInt(h as real * 0.03)
            && placement.value.yOffset
               == PasteOffset(h, placement.value.overlayHeight, placement.value.bottomPadding))
  {
    var crop := CropCenterToAspect(width, height, previewAspect);
    if crop.CreateFailed? then None
    else
      var w: nat, h: nat := CroppedWidth(crop, width), CroppedHeight(crop, height);
      var overlayHeight := FloatToInt(h as real * 0.22);
      var bottomPadding := FloatToInt(h as real * 0.03);
      if w == 0 || overlayHeight == 0 then None
      else Some(Placement(w, h, overlayHeight, bottomPadding, PasteOffset(h, overlayHeight, bottomPadding)))
  }

  /** The overlay bitmap can be created exactly when the cropped photo is at
      least 5 pixels high (and not empty): below that, 22% of it truncates to 0. */
  lemma CaptureNeedsFivePixels(width: nat, height: nat, previewAspect: real)
    requires CropCenterToAspect(width, height, previewAspect).Unchanged?
    ensures CapturePlacement(width, height, previewAspect).Some? <==> width >= 1 && height >= 5
  {
  }

  /** The overlay, 22% of the cropped height (truncated), is pasted at a
      non-negative row exactly one bottom padding, 3% of the cropped height
      (truncated), above the bottom of the cropped photo; the cropped photo is
      the crop window, or the whole capture when no crop was needed, and never
      larger than the capture. */
  lemma CaptureOverlayInsidePhoto(width: nat, height: nat, previewAspect: real)
    requires CapturePlacement(width, height, previewAspect).Some?
    ensures var crop := CropCenterToAspect(width, height, previewAspect);
      var p := CapturePlacement(width, height, previewAspect).value;
      && (crop.Window? ==> p.width == crop.width && p.height == crop.height)
      && (crop.Unchanged? ==> p.width == width && p.height == height)
      && p.width <= width && p.height <= height
      && p.overlayHeight == FloatToInt(p.height as real * 0.22) && 1 <= p.overlayHeight
      && p.bottomPadding == FloatToInt(p.height as real * 0.03) && 0 <= p.bottomPadding
      && 0 <= p.yOffset
      && p.yOffset + p.overlayHeight + p.bottomPadding == p.height
  {
    var p := CapturePlacement(width, height, previewAspect).value;
    assert (p.overlayHeight + p.bottomPadding) as real <= p.height as real * 0.25;
  }
}
