# GPS map camera: sizing, layout, navigation and settings logic

A model, in Dafny, of the sequential logic inside an Android camera app that
burns an informational overlay (free-form details text and a map thumbnail)
onto each photo it takes. The app itself is mostly platform glue; what is
modelled here is the part whose behaviour can be stated:

- `BitmapUtils` (`bitmap_utils.dfy`): the power-of-two subsampling factor
  for decoding a map thumbnail, the choice of transform for an Exif
  orientation value, the centred crop of a photo to the preview's aspect
  ratio, the descending search for a text size that fits, the placeholder
  text for blank details, and the overlay renderer's layout arithmetic
  together with the sequence of drawing calls it makes.
- `GpsMapCameraApp` (`gps_map_camera_app.dfy`): the three-screen
  navigation driven by a saved string key (a save is launched from the
  configure screen and completes later, on whatever screen is then shown),
  the candidate font sizes and the
  first-fit choice of the auto-sized text block, and the row at which the
  rendered overlay is pasted onto a cropped capture.
- `OverlayRepository` (`overlay_repository.dfy`): the settings record, the
  mapping from the preferences store to the settings, and the two-key save.

Modelling conventions:

- Kotlin `Float` values are reals. `Float.toInt()` is truncation toward
  zero (`FloatToInt`), `roundToInt()` is `floor(x + 0.5)` (`RoundToInt`)
  and Kotlin's `Int / Int` truncates toward zero (`TruncDiv`), unlike
  Dafny's Euclidean `/`.
- The text-layout engines (`StaticLayout` and Compose's text measurer) are an
  uninterpreted function argument `LayoutHeight`: text, size, width and line
  limit to laid-out height.
- The preferences store is a `map<string, string>`.
- The canvas records the drawing calls made on it instead of painting pixels.
- The settings record has the two fields `details` and `mapUri`. The file
  `data/OverlayConfig.kt` declares `title`, `address`, `latLong`, `dateTime`
  and `mapUri`, and no `details`, but every construction and every read of the
  record uses `details` and `mapUri`, so the model follows those users.
- `Bitmap.createBitmap(source, x, y, w, h)` throws for an empty window. The
  centre crop can ask for one when the photo is less than one pixel high (or
  wide) once scaled to the target aspect. The model keeps this as the
  `CreateFailed` outcome instead of excluding it.

## Model

| member | source | states |
|---|---|---|
| `BitmapUtils.FloatToInt` | app/src/main/java/com/example/gpsmapcamera/util/BitmapUtils.kt:327-331 | `Float.toInt()` truncates toward zero: for a non-negative value the result is its floor, for a negative value its ceiling |
| `BitmapUtils.RoundToInt` | app/src/main/java/com/example/gpsmapcamera/util/BitmapUtils.kt:115-116 | `roundToInt()` gives the integer within half a unit, with halves rounded up |
| `BitmapUtils.TruncDiv` | app/src/main/java/com/example/gpsmapcamera/util/BitmapUtils.kt:70-72 | Kotlin's `Int / Int` on a positive divisor, the quotient truncated toward zero; its meaning is stated by `TruncDivTowardZero` |
| `BitmapUtils.TruncDivTowardZero` | app/src/main/java/com/example/gpsmapcamera/util/BitmapUtils.kt:70-72 | the quotient times the divisor lies between 0 and the dividend and less than one divisor from it, for negative dividends too, and negating the dividend negates the quotient |
| `BitmapUtils.CalculateInSampleSize` | app/src/main/java/com/example/gpsmapcamera/util/BitmapUtils.kt:66-77 | returns a power of two ≥ 1; returns 1 when the image already fits the request; otherwise sampling by the result makes a half-dimension smaller than requested, while every smaller power of two kept both half-dimensions at least as large as requested (minimality); the result never exceeds the image's width or height unless it is 1, so doubling never overflows. The caller guarantees positive requests (line 38) |
| `BitmapUtils.RotateBitmapIfRequired` | app/src/main/java/com/example/gpsmapcamera/util/BitmapUtils.kt:86-105 | an unreadable Exif block, a missing tag (read as NORMAL) or any value other than ROTATE_90/180/270 and FLIP_HORIZONTAL/VERTICAL yields the original bitmap; otherwise a transformed copy whose transform is the orientation's, with width and height swapped exactly when the transform moves the top edge to a side (the 90° and 270° rotations) |
| `BitmapUtils.OrientationTransform` | app/src/main/java/com/example/gpsmapcamera/util/BitmapUtils.kt:94-100 | a transform is built exactly for ROTATE_90/180/270 and FLIP_HORIZONTAL/VERTICAL; for orientations 1, 2, 3, 4, 6 and 8 it moves the stored 0th row and 0th column onto the visual edges that the TIFF 6.0 Orientation table assigns them |
| `BitmapUtils.TransposedOrientationsLeftAsStored` | app/src/main/java/com/example/gpsmapcamera/util/BitmapUtils.kt:94-101 | TRANSPOSE (5) and TRANSVERSE (7) return the original bitmap, which leaves the 0th row off the edge the table assigns it |
| `BitmapUtils.UnhandledOrientationsKeepOriginal` | app/src/main/java/com/example/gpsmapcamera/util/BitmapUtils.kt:89-101 | a missing tag, NORMAL, UNDEFINED and every value outside the handled five return the original bitmap |
| `BitmapUtils.CreateBitmap` | app/src/main/java/com/example/gpsmapcamera/util/BitmapUtils.kt:329 | a window is produced exactly when it is non-empty and lies inside the source; otherwise the call fails |
| `BitmapUtils.CropCenterToAspect` | app/src/main/java/com/example/gpsmapcamera/util/BitmapUtils.kt:319-337 | the bitmap is returned unchanged exactly when the target is ≤ 0, a side is 0, or the aspect already equals the target; a wider image keeps its full height and gets the largest width not above height × target, centred with margins differing by at most one pixel and inside the image; a taller image symmetrically keeps its width; a window narrower than one pixel fails |
| `BitmapUtils.IsWhitespace` | app/src/main/java/com/example/gpsmapcamera/util/BitmapUtils.kt:187 | the characters Kotlin's `Char.isWhitespace` accepts: tab to carriage return, the separators 0x1C to 0x1F, space, no-break space, and the Unicode space, line and paragraph separators |
| `BitmapUtils.IsBlank` | app/src/main/java/com/example/gpsmapcamera/util/BitmapUtils.kt:187 | `isBlank()`: the string is empty or holds only whitespace |
| `BitmapUtils.TextBlock` | app/src/main/java/com/example/gpsmapcamera/util/BitmapUtils.kt:187-188 | blank details (empty or Unicode whitespace only) are replaced by the fixed four-line placeholder, other details are kept unchanged, and the result is never blank |
| `BitmapUtils.TextBlockIdempotent` | app/src/main/java/com/example/gpsmapcamera/util/BitmapUtils.kt:187-188 | applying the fallback to its own result changes nothing |
| `BitmapUtils.BestTextSize` | app/src/main/java/com/example/gpsmapcamera/util/BitmapUtils.kt:267-276 | the first-fit search as a function of the size tried: its result is the `minSize` fallback or a size whose layout fits; the lemmas below state the rest |
| `BitmapUtils.BestTextSizeBounds` | app/src/main/java/com/example/gpsmapcamera/util/BitmapUtils.kt:267-276 | the size found is never below `minSize`, and never above a start that is at least `minSize` |
| `BitmapUtils.BestTextSizeLargerTooTall` | app/src/main/java/com/example/gpsmapcamera/util/BitmapUtils.kt:268-274 | every tried size larger than the one found laid out taller than `maxHeight` |
| `BitmapUtils.BestTextSizeFits` | app/src/main/java/com/example/gpsmapcamera/util/BitmapUtils.kt:268-273 | when some tried size (start, start − 1, …, not below `minSize`) fits, the size found is one of the tried sizes and fits |
| `BitmapUtils.BestTextSizeNoFit` | app/src/main/java/com/example/gpsmapcamera/util/BitmapUtils.kt:268-276 | when no tried size fits, or the start is below `minSize`, the result is `minSize` |
| `BitmapUtils.TextPaint.constructor` | app/src/main/java/com/example/gpsmapcamera/util/BitmapUtils.kt:190-193 | a new paint starts at the given text size; the renderer passes Android's default, 12 |
| `BitmapUtils.FindBestTextSize` | app/src/main/java/com/example/gpsmapcamera/util/BitmapUtils.kt:258-277 | the loop returns the first-fit size `BestTextSize`; the paint is left untouched when nothing is tried, and otherwise holds the last size tried |
| `BitmapUtils.OverlayLayoutFor` | app/src/main/java/com/example/gpsmapcamera/util/BitmapUtils.kt:115-198 | the panel top is max(0, h − overlayHeight − bottomMargin) and lies within the photo; the thumbnail is at most one column wide and ends no lower than a padding above the bottom; the pill has exactly the thumbnail's left and right edges and sits between the panel top and the thumbnail; the text box starts a padding right of the thumbnail and its width and height are at least 1; the minimum text size is at most the base size |
| `BitmapUtils.OverlayTopNeverClamped` | app/src/main/java/com/example/gpsmapcamera/util/BitmapUtils.kt:115-117 | the rounded panel height and bottom margin never add up to more than the photo height, so the clamp never fires: `overlayTop + overlayHeight` ends exactly one margin above the bottom (the drawn panel itself extends to the bottom edge) |
| `BitmapUtils.Canvas.constructor` | app/src/main/java/com/example/gpsmapcamera/util/BitmapUtils.kt:112-113 | a canvas over a photo of the given size, with nothing drawn yet |
| `BitmapUtils.Canvas.Draw` | app/src/main/java/com/example/gpsmapcamera/util/BitmapUtils.kt:124 | each drawing call is appended to what was drawn before, in order |
| `BitmapUtils.RenderOverlayOnBitmap` | app/src/main/java/com/example/gpsmapcamera/util/BitmapUtils.kt:107-209 | the drawing calls, in order: the panel over the bottom of the photo, the pill, its white bold "Check In" label at half the pill height, drawn centre-aligned at the pill's centre x with its baseline 0.35 of the label size below the pill centre, then the map thumbnail, or a placeholder box with a white, normal-weight "No map" label at 11% of the panel height, drawn centre-aligned at the box's centre x with its baseline half the label size below the box centre; then the placeholder-substituted details at the panel's padded text origin, at the first-fit size between the minimum and the base size |
| `GpsMapCameraApp.ScreenOf` | app/src/main/java/com/example/gpsmapcamera/ui/GpsMapCameraApp.kt:80-85 | "configure" shows the configure screen, "camera" the camera screen, and every other key, "home" included, the home screen |
| `GpsMapCameraApp.Offers` | app/src/main/java/com/example/gpsmapcamera/ui/GpsMapCameraApp.kt:88-108 | the home screen offers "Configure" and "Open Camera", the configure screen "Back" and "Save", the camera screen "Back"; the end of a save is no button |
| `GpsMapCameraApp.KeyWritten` | app/src/main/java/com/example/gpsmapcamera/ui/GpsMapCameraApp.kt:91-106 | tapping "Save" writes no key; back and the end of a save write a key that shows home, the other buttons a key that does not |
| `GpsMapCameraApp.Step` | app/src/main/java/com/example/gpsmapcamera/ui/GpsMapCameraApp.kt:88-108 | a button acts only while its screen is shown; the end of a save acts on every screen and leads home |
| `GpsMapCameraApp.Transitions` | app/src/main/java/com/example/gpsmapcamera/ui/GpsMapCameraApp.kt:88-108 | the buttons lead from home to configure or camera and back; tapping "Save" stays on configure; the end of a save leads home from any screen; configure is entered only from home or by staying on it, camera only from home |
| `GpsMapCameraApp.SaveCompletionLeavesCamera` | app/src/main/java/com/example/gpsmapcamera/ui/GpsMapCameraApp.kt:97-106 | save, back, open camera, then the save completes: the camera screen is left for home without its back button |
| `GpsMapCameraApp.EveryScreenReachable` | app/src/main/java/com/example/gpsmapcamera/ui/GpsMapCameraApp.kt:88-108 | each screen reaches each other one directly or through home |
| `GpsMapCameraApp.App.constructor` | app/src/main/java/com/example/gpsmapcamera/ui/GpsMapCameraApp.kt:80 | on a fresh start the app shows the home screen and no save is in flight |
| `GpsMapCameraApp.App.OnConfigure` | app/src/main/java/com/example/gpsmapcamera/ui/GpsMapCameraApp.kt:91 | from home the key becomes "configure" |
| `GpsMapCameraApp.App.OnOpenCamera` | app/src/main/java/com/example/gpsmapcamera/ui/GpsMapCameraApp.kt:92 | from home the key becomes "camera" |
| `GpsMapCameraApp.App.OnBack` | app/src/main/java/com/example/gpsmapcamera/ui/GpsMapCameraApp.kt:96-106 | from configure or camera the key becomes "home" |
| `GpsMapCameraApp.App.OnSaveTapped` | app/src/main/java/com/example/gpsmapcamera/ui/GpsMapCameraApp.kt:97-98 | tapping "Save" only launches the save: it is added to the saves in flight and the key and store stay as they are |
| `GpsMapCameraApp.App.OnSaveCompleted` | app/src/main/java/com/example/gpsmapcamera/ui/GpsMapCameraApp.kt:99-100 | any save in flight may complete, on whatever screen is shown: the settings are written to the store first and only then does the key become "home", so the store then reads back that save's settings; when the write throws, neither the store nor the key changes; the save leaves the in-flight list either way |
| `GpsMapCameraApp.DownTo` | app/src/main/java/com/example/gpsmapcamera/ui/GpsMapCameraApp.kt:674 | `start downTo end` has `start − end + 1` elements (none when start < end), the i-th being `start − i` |
| `GpsMapCameraApp.CandidateSizes` | app/src/main/java/com/example/gpsmapcamera/ui/GpsMapCameraApp.kt:671-675 | exactly [baseSize] when the truncated base is at most the truncated minimum; otherwise every integer from the truncated base down to the truncated minimum, each one less than the one before |
| `GpsMapCameraApp.PreviewCandidateSizes` | app/src/main/java/com/example/gpsmapcamera/ui/GpsMapCameraApp.kt:553-558 | the overlay's text block tries 13, 12, 11, 10, 9 and 8 |
| `GpsMapCameraApp.FirstFitIndex` | app/src/main/java/com/example/gpsmapcamera/ui/GpsMapCameraApp.kt:677-686 | the index of the first size that fits: all before it fail, and it fits unless it is past the end |
| `GpsMapCameraApp.SelectedSize` | app/src/main/java/com/example/gpsmapcamera/ui/GpsMapCameraApp.kt:676-686 | the first fitting size, or the last size when none fits; always a member of the list |
| `GpsMapCameraApp.FitsBox` | app/src/main/java/com/example/gpsmapcamera/ui/GpsMapCameraApp.kt:677-685 | a size fits when the text measured at the available width is no taller than the available height, a width or height below 1 counting as 1 |
| `GpsMapCameraApp.AutoSizeTextBlock` | app/src/main/java/com/example/gpsmapcamera/ui/GpsMapCameraApp.kt:660-696 | the size shown is a candidate size: the first whose measured height at the available width is within the available height, both clamped to at least 1, or the last candidate when none fits |
| `GpsMapCameraApp.OverlayPanelTextSize` | app/src/main/java/com/example/gpsmapcamera/ui/GpsMapCameraApp.kt:550-559 | the camera overlay shows its (placeholder-substituted) text at one of 13 … 8, fitting unless it is 8, and every larger size tried does not fit |
| `GpsMapCameraApp.PasteOffset` | app/src/main/java/com/example/gpsmapcamera/ui/GpsMapCameraApp.kt:461 | the paste row is never negative and is h − overlayHeight − bottomPadding unless that is negative |
| `GpsMapCameraApp.CapturePlacement` | app/src/main/java/com/example/gpsmapcamera/ui/GpsMapCameraApp.kt:441-461 | the capture fails exactly when the crop asks for an empty window, or when the overlay bitmap would be 0 pixels wide or high; otherwise the placement holds the cropped size, an overlay of 22% of the cropped height and a padding of 3% (both truncated), and the paste row of line 461 |
| `GpsMapCameraApp.CaptureNeedsFivePixels` | app/src/main/java/com/example/gpsmapcamera/ui/GpsMapCameraApp.kt:782 | with no crop needed, the overlay bitmap can be created exactly when the photo is non-empty and at least 5 pixels high |
| `GpsMapCameraApp.CaptureOverlayInsidePhoto` | app/src/main/java/com/example/gpsmapcamera/ui/GpsMapCameraApp.kt:441-461 | the cropped photo is the crop window, or the whole capture when no crop was needed, and never larger than the capture; the overlay (22% of the cropped height, truncated, at least 1 pixel) is pasted at a non-negative row exactly one bottom padding (3%, truncated) above the bottom |
| `OverlayRepository.StringOr` | app/src/main/java/com/example/gpsmapcamera/data/OverlayRepository.kt:20-21 | a key the store holds reads as stored, a missing key as the empty string |
| `OverlayRepository.ConfigOf` | app/src/main/java/com/example/gpsmapcamera/data/OverlayRepository.kt:18-23 | a missing "details" key reads as empty details, a missing "map_uri" key as an empty map URI; present keys are read as stored |
| `OverlayRepository.EmptyStoreReadsDefault` | app/src/main/java/com/example/gpsmapcamera/data/OverlayRepository.kt:18-23 | a store holding neither key reads as the default settings the app starts with |
| `OverlayRepository.ReadAfterSave` | app/src/main/java/com/example/gpsmapcamera/data/OverlayRepository.kt:18-29 | reading the store right after saving a config gives that config back |
| `OverlayRepository.SavedPrefs` | app/src/main/java/com/example/gpsmapcamera/data/OverlayRepository.kt:26-29 | after the edit, "details" and "map_uri" hold the saved values and every other key keeps its presence and value |
| `OverlayRepository.SavedKeys` | app/src/main/java/com/example/gpsmapcamera/data/OverlayRepository.kt:26-29 | after a save the store's keys are the old keys plus "details" and "map_uri" |
| `OverlayRepository.SaveIdempotent` | app/src/main/java/com/example/gpsmapcamera/data/OverlayRepository.kt:26-29 | saving the same config twice leaves the store as saving it once |
| `OverlayRepository.LastSaveWins` | app/src/main/java/com/example/gpsmapcamera/data/OverlayRepository.kt:26-29 | a later save completely replaces an earlier one |
| `OverlayRepository.Repository.constructor` | app/src/main/java/com/example/gpsmapcamera/data/OverlayRepository.kt:14 | the repository works over a store that may already hold data: it starts out reading that store as it is |
| `OverlayRepository.Repository.Save` | app/src/main/java/com/example/gpsmapcamera/data/OverlayRepository.kt:25-30 | the store becomes the old store with "details" and "map_uri" overwritten, and reads back as the saved config |

## Left out

- Image decoding, thumbnail decoding, JPEG output and gallery insertion (`loadBitmapFromUri`, the decoders in `loadThumbnailBitmap`, `decodeCapturedBitmap`, `saveBitmapToGallery`): I/O through content resolvers.
- Pixel work: the canvas calls are recorded, not painted; the centre-crop scaling of the thumbnail (`drawCenterCropBitmap`), the alpha blend of `compositeOverlayOnBitmap` and the matrix transforms are not modelled.
- Single-precision rounding: Kotlin `Float` arithmetic is modelled with exact reals.
- `FloatToInt`: does not model the saturation of `Float.toInt()` at the `Int` range or NaN; in the crop the scaled side is always below the image side, so it cannot saturate there.
- The text-layout engines: layout height is an uninterpreted function of text, size, width and line limit.
- `renderOverlayBitmap` in the app (off-screen view attachment, suspension until attached, frame waiting) and the Compose widget trees, permissions, document picker, snackbars and toasts.
- The float ratio arithmetic of the camera screen: the preview aspect is a parameter of `CapturePlacement`.
- The camera controller (provider binding, lifecycle, camera fallback, executors).
- The coroutine dispatch between the IO and Main threads: a save is split into its launch and its completion. The saves run on the main-thread scope and the store applies edits one at a time in the order they are made, so saves complete in tap order; the model allows any order, an over-approximation under which everything stated about saves still holds.
- `App.OnSaveCompleted`: a write that throws is modelled as the save ending with store and key unchanged; the uncaught exception that then reaches the main thread (ending the app) is not modelled.
- `CapturePlacement`: the failing steps (the crop, the overlay bitmap) are one `None`; the exception each throws, and that it escapes the capture coroutine, is not modelled.
- Restoring the saved screen key when the activity is recreated: the app is modelled from a fresh start.
- The DataStore runtime: the store is a map, and an edit is applied whole or not at all.
