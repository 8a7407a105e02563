# Image conversion page: a Dafny model of main.js

The page takes one chosen image and checks its aspect ratio against the conditions in the URL
(ratio, orientation, maximum size in KiB, output format, maximum width and height, a description).
It crops the image to the target ratio, either centred or through a manual crop overlay the user
drags and resizes. The output is scaled to fit the maximum width and height, and the image is
re-encoded at falling quality until it fits the size budget. A generator page builds the URL that
carries such conditions, and a share link carries the current ones.

The model covers the logic of `main.js` and leaves out the DOM around it:

- `Numeric`: `Math.min`, `Math.max`, `Math.abs`, `Math.round`, and `parseInt` of a number's
  text, over exact reals.
- `JsText`: `trim` and `parseInt` with no radix. Also `String(n)` for integers, `split` on one
  character, and `Number` on a run of decimal digits.
- `Geometry`: the 5 % ratio gate, the centred crop, the two-step output size, and the canvas
  `processImage` fills.
- `CropOverlay`: the pointer position, the initial overlay, and a `Controller` class. The
  class holds the overlay's position and size plus the drag and resize state, and its methods
  are `startDrag`, `startResize`, `handleMove` and `endInteraction`. It also converts the
  overlay to source pixels, as `executeCrop` does.
- `FileSize`: the `adjustFileSize` loop. It runs against an encoder given as a sequence of blob
  sizes.
- `UrlParams`: `parseUrlParams` over an ordered list of query pairs with `URLSearchParams.get`
  and `set`. Also `generateShareLink`, the generator's `generateUrl`, and the round trips
  between them.
- `Dimensions`: the generator's `adjustMaxDimensions`. A `DimensionInputs` class holds the two
  input texts.
- `Session`: a `PageState` class with the page globals `currentFile`, `processedCanvas`,
  `originalImage` and `cropData`. Its handlers are file selection, auto-crop and ignore-size,
  `executeCrop`/`finalizeCrop`, cancel and reset.

Outside influences are parameters:

- the decoded image is a field of the chosen file (`None` when decoding fails);
- the encoder is the sequence `sizes`, whose k-th element is the byte size of the k-th encode;
- positions and sizes the browser measures are arguments (`getBoundingClientRect` of the
  container, the overlay and the displayed image);
- the page address is a string.

Four behaviours of `main.js` that the model keeps as they are:

- no generation counter guards concurrent runs of `processImage`;
- the rounded output size is not clamped to at least 1 pixel;
- the quality loop makes up to ten encodes: `quality` starts at 0.9 and loses 0.1 per retry as a
  double, so after eight retries it is 0.10000000000000014, still above 0.1, and the stop on
  `quality <= 0.1` first fires at the tenth encode;
- for `png` and `webp` no quality is passed, yet the loop still re-encodes up to ten times.

## Model

| member | source | states |
|---|---|---|
| Numeric.Round | main.js:503-504 | `Math.round` gives the integer within half a unit below or above, a half rounding up |
| Numeric.Trunc | main.js:717-718 | `parseInt` of a non-negative number's text is its floor, of a negative one's its ceiling |
| JsText.Trim | main.js:847 | the trimmed text neither starts nor ends with whitespace, and it is empty exactly when the text is all whitespace |
| JsText.TrimIsInfix | main.js:847 | the trimmed text is the infix of the text that starts after its leading whitespace run, and everything before and after that infix is whitespace |
| JsText.TrimAllWhitespace | main.js:847 | trimming both ends leaves nothing exactly when every character is whitespace |
| JsText.ParseIntOfIntToString | main.js:395-400 | an integer written by `set` as decimal text is read back by `parseInt` as the same integer |
| JsText.Split | main.js:446 | `split` on a one-character separator gives at least one piece, and no piece contains the separator |
| JsText.JoinSplit | main.js:446 | `split` on a separator loses nothing: joining the pieces with it gives the text back |
| JsText.SplitJoin | main.js:446 | the other direction: splitting the join of pieces that are free of the separator gives those pieces back, so the pieces of `split` are the only separator-free pieces that join to the text |
| JsText.ParseRatio | main.js:446 | a ratio that parses has two positive components |
| JsText.ParseRatioOfText | main.js:446 | the text "W:H" of two positive integers parses to (W, H) |
| JsText.IntToString | main.js:397-400 | the decimal text of an integer, as `set` writes the numbers of a share link (and as the inputs receive at main.js:890 and 892), is never empty |
| JsText.ParseIntOfDecimalText | main.js:365-368 | `parseInt` with no radix argument (as also at main.js:883-884) of whitespace, then at most one sign, then a non-empty run of decimal digits that does not open a `0x` prefix, then anything that does not continue the run, is the value of the digits, negated after `-` |
| JsText.ParseIntOfHexadecimalText | main.js:365-368 | `parseInt` of whitespace, at most one sign, `0x` or `0X`, a run of hex digits and anything that does not continue the run is the value of the hex digits, negated after `-`, and NaN (`None`) when no hex digit follows the prefix |
| JsText.ParseIntOfHexText | main.js:365-368 | `parseInt("0x1A")` is 26: the hex prefix is honoured, not read as the decimal 0 |
| JsText.ParseIntOfNonNumber | main.js:365-368 | a text whose first non-blank character is neither a sign nor a decimal digit, or that is blank, is NaN (`None`) |
| Geometry.TargetRatio | main.js:446-447 | the target is positive and is H/W for `portrait`, W/H for every other orientation |
| Geometry.QuotientAbove | main.js:485-488 | the JS test `a / b > t` (and the one at main.js:497) never holds together with `a / b < t`, so the two branches are exclusive, also for a zero divisor, where only `a > 0` (+Infinity) passes the first and only `a < 0` (-Infinity) the second |
| Geometry.QuotientMeaning | main.js:485-488 | for a positive divisor, the JS tests `a / b > t` and `a / b < t` compare `a` with `t * b` |
| Geometry.WithinTolerance | main.js:450 | for a positive target, a relative deviation below 5 % means the ratio lies strictly between 0.95 and 1.05 times the target |
| Geometry.CheckImageRatio | main.js:445-451 | the gate passes exactly when the image's ratio is strictly within 5 % of the target; zero height never passes |
| Geometry.DeviationOfExactlyFivePercentFails | main.js:450 | a deviation of exactly 5 % either way fails the gate |
| Geometry.WideImageIsAMismatch | main.js:445-451 | 1000 x 500 against 16:9 fails the gate |
| Geometry.CenteredCrop | main.js:483-491 | the automatic crop has the target ratio, keeps one full side, is centred, lies inside the image, and is the whole image when the ratio already matches |
| Geometry.CenteredCropIsLargest | main.js:483-491 | no rectangle of the target ratio inside the image is wider or taller than the centred crop |
| Geometry.CenteredCropIsFixedPoint | main.js:483-491 | cropping the centred crop again keeps all of it |
| Geometry.Reconcile | main.js:497-501 | the reconciled size has exactly the target ratio and keeps one side; for non-negative sides it fits inside and its height is min(h, w / t) |
| Geometry.OutputSize | main.js:494-501 | the output size has the target ratio, keeps one capped side, and does not exceed either capped side |
| Geometry.Render | main.js:474-504 | the canvas draws the user's crop or else the centred crop; its sides are the output size of that crop, each rounded, so they keep the target ratio up to half a pixel per side; the assigned integer size is within the bounds and within the rounded source size when the height bound and the source height are non-negative |
| Geometry.OutputRoundingBounds | main.js:503-504 | `Math.round` keeps the output within the integer bounds and within the rounded source size, when the height bound and the source height are non-negative |
| Geometry.OutputRoundingRatio | main.js:503-504 | after rounding, width - t * height is within (1 + t) / 2 of zero |
| Geometry.FullHdIsKeptAsIs | main.js:456-509 | 1920 x 1080 against 16:9 with bounds 1920 x 1080 passes and is drawn uncropped at 1920 x 1080 |
| Geometry.DownscaleFollowsWidth | main.js:494-501 | an 800 x 450 crop with bounds 400 x 400 becomes 400 x 225 |
| CropOverlay.PointerPosition | main.js:24-43 | the first active touch wins, then the first changed touch, else the mouse position; a touch event with neither list has no position |
| CropOverlay.InitialOverlay | main.js:546-566 | the overlay has exactly the target ratio, takes 80 % of the limiting side, is centred, and lies inside the displayed image |
| CropOverlay.ClampMove | main.js:633-634 | a drag position inside [0, hi] is kept, one outside is clamped to the nearer end, and an empty range gives 0 |
| CropOverlay.EdgeAdjust | main.js:647-665 | each direction letter moves its own edge to the pointer; `w` and `n` keep the opposite edge; absent letters keep the starting offsets |
| CropOverlay.Accepts | main.js:675-678 | a resize is accepted only inside the displayed image with both sides at least 50, so an accepted box is between 50 and the image's size on each side |
| CropOverlay.Controller.OffsetWidth | main.js:630-631 | `offsetWidth` is the overlay's style width rounded to the nearest integer, as used again at main.js:644-645 |
| CropOverlay.Controller.OffsetHeight | main.js:630-631 | `offsetHeight` is the overlay's style height rounded to the nearest integer, as used again at main.js:644-645 |
| CropOverlay.Propose | main.js:668-672 | the proposal has exactly the target ratio, keeps the edge step's left/top and one of its sides, and only shrinks |
| CropOverlay.ResizeBox | main.js:644-672 | the edge updates and the ratio step on the overlay's offsets give exactly Propose of EdgeAdjust |
| CropOverlay.WestHandleOutwardTranslates | main.js:656-672 | pulling the `w` handle outwards on a box too wide for 16:9 moves the box without widening it |
| CropOverlay.Controller.constructor | main.js:539-569 | the first overlay is the initial overlay, with no drag or resize under way |
| CropOverlay.Controller.InitManualCrop | main.js:539-569 | a later initialisation places the initial overlay again, clears the resize state, and keeps the drag globals |
| CropOverlay.Controller.StartDrag | main.js:584-595 | a press on a handle changes nothing; otherwise dragging starts with the pointer's offset inside the overlay |
| CropOverlay.Controller.StartResize | main.js:603-615 | resizing starts in the handle's direction with the pointer relative to the container; the overlay is untouched |
| CropOverlay.Controller.HandleMove | main.js:621-686 | a drag sets left/top to the clamped position and keeps the size; a resize installs the proposal exactly when it is inside with sides of at least 50; with neither flag set nothing changes |
| CropOverlay.Controller.EndInteraction | main.js:693-697 | drag and resize end; the overlay stays |
| CropOverlay.Controller.SourceCrop | main.js:707-720 | the crop is the overlay scaled per axis by natural / displayed size: x and y are `parseInt` of left and top, width and height the offset sizes; it lies inside the source image when the overlay lies inside the displayed image |
| CropOverlay.ScaledCrop | main.js:710-720 | the crop's x and y are the truncated left and top, and its width and height the offset sizes, each times natural / displayed size on its axis; the crop lies inside the source when the overlay lies inside the displayed image |
| FileSize.MimeType | main.js:775-776 | `png` and `webp` keep their own type and every other format becomes JPEG |
| FileSize.Request | main.js:780-791 | the k-th encode asks for quality 0.9 - 0.1k, and only when the format is exactly `jpeg` |
| FileSize.WithinBudget | main.js:781-783 | a blob fits the budget exactly when its byte size is at most 1024 times the budget in KiB |
| FileSize.FirstFit | main.js:780-791 | the resolving encode is the first that fits the budget, or the tenth |
| FileSize.AdjustFileSize | main.js:773-794 | the blob is the one of the first encode within the budget or of the tenth; every request made is listed in order; a first encode that fits is the only one |
| FileSize.FirstFitUnique | main.js:783-789 | an encode that fits or is the last, with none fitting before it, is the one the loop resolves with |
| FileSize.NeverFittingUsesEveryAttempt | main.js:783-789 | a budget no encode meets still ends after exactly ten encodes, with the last blob |
| FileSize.FirstFitIgnoresLaterSizes | main.js:779-792 | sizes after the resolving encode have no influence on the result |
| UrlParams.Get | main.js:361-370 | `get` has no value exactly when no pair has the name; a value it returns belongs to a pair of that name |
| UrlParams.GetAppend | main.js:394-400 | after one appended pair, a name that already had a value keeps it |
| UrlParams.RemoveAll | main.js:394-400 | no pair with the name is left, and other names look up as before |
| UrlParams.ReplaceFirst | main.js:394-400 | the name now has the new value when it had one, and other names look up as before |
| UrlParams.Set | main.js:394-400 | `set` gives the name the value, leaves other names alone, and appends a new name at the end |
| UrlParams.TextOr | main.js:363-369 | the logical OR of a text with its default: a present non-empty text is kept, a missing or empty one gives the default |
| UrlParams.NumberOr | main.js:365-368 | the logical OR of a `parseInt` result with its default: a non-zero number is kept, NaN or 0 gives the default |
| UrlParams.ParseUrlParams | main.js:360-371 | every text is non-empty and every number non-zero; an empty query gives the defaults; each field keeps a present non-empty text, or a number `parseInt` reads as non-zero |
| UrlParams.ParseUrlParamsDefaults | main.js:363-369 | each field takes its default when its text is missing or empty, or when `parseInt` reads its number as NaN or 0 |
| UrlParams.SetWhen | main.js:395-401 | one guarded `set` of a name the query does not hold appends the pair exactly when the guard holds, and the query then holds only the names set so far |
| UrlParams.ShareLinkShape | main.js:394-400 | the share link has no query exactly when the conditions are the defaults, and it has at most seven pairs |
| UrlParams.FillShareQuery | main.js:394-401 | the seven guarded `set` calls produce exactly the share-link pairs for the given number texts |
| UrlParams.GenerateShareLink | main.js:390-405 | the link is the page address with one pair per non-default field, in field order |
| UrlParams.GetShareLinkPairs | main.js:394-400 | each name in a share link holds its field exactly when that field differs from its default |
| UrlParams.ShareLinkRoundTrip | main.js:390-405 | parsing a share link gives back any conditions `parseUrlParams` can produce |
| UrlParams.GenerateUrl | main.js:819-851 | the link is the page address with the generator's pairs |
| UrlParams.FillGeneratorQuery | main.js:825-847 | the seven guarded `set` calls produce exactly the generator pairs for the given trimmed description |
| UrlParams.Differs | main.js:829-844 | the generator's test `value && value !== default` passes only a present text, and one that passes is the text the index page's fallback keeps |
| UrlParams.GetGeneratorPairs | main.js:828-847 | each name in a generated link holds the form's text exactly when it is non-empty and not the default text; the description is trimmed |
| UrlParams.GeneratedLinkParses | main.js:819-851 | the index page parses a generated link to the conditions the form describes, with the description trimmed |
| UrlParams.GeneratedTextFields | main.js:828-838 | ratio, orientation and format read from a generated link are the form's texts, or the defaults when the form has none |
| UrlParams.GeneratedNumberFields | main.js:834-844 | the three numbers read from a generated link are what `parseInt` makes of the form's texts, or the defaults |
| UrlParams.GeneratedDescField | main.js:846-847 | the description read from a generated link is the form's description trimmed |
| UrlParams.NumberFieldKept | main.js:834-844 | dropping a number field whose text is empty or the default's text does not change the number the index page reads |
| UrlParams.DefaultTexts | main.js:835-844 | the generator's default texts "1000", "1920" and "1080" are the decimal texts of the default numbers |
| UrlParams.DefaultTextsParse | main.js:835-844 | `parseInt` reads the default texts as the default numbers |
| Dimensions.CurrentValue | main.js:883-884 | an input's value is never 0 when its default is not |
| Dimensions.AdjustedDimensions | main.js:868-895 | at most one input changes, an unparsable ratio changes nothing, a changed height lies in [100, 4000], and a parsable ratio gives the adjustment to the ratio the orientation selects |
| Dimensions.AdjustedTo | main.js:883-893 | a pair within 0.01 of the ratio is kept; otherwise, when width / ratio lies in [100, 4000], the width is kept and the new height reads back through `parseInt` as width / ratio rounded, and else the height is kept and the new width reads back as height * ratio rounded |
| Dimensions.HeightCandidateFits | main.js:889 | a width / ratio that passes the test `<= 4000 && >= 100` still lies in [100, 4000] once rounded |
| Dimensions.RecomputedHeight | main.js:890 | the new height text reads back through `parseInt` as `Math.round(maxW / ratio)` |
| Dimensions.RecomputedWidth | main.js:892 | the new width text reads back through `parseInt` as `Math.round(maxH * ratio)` |
| Dimensions.RoundedHeightWithinTolerance | main.js:888-890 | for a ratio of at most 2, a height rounded from width / ratio meets the 0.01 tolerance |
| Dimensions.HeightAdjustmentIsStable | main.js:868-895 | for a ratio of at most 2, once the height is recomputed a second adjustment changes nothing |
| Dimensions.DimensionInputs.AdjustMaxDimensions | main.js:868-895 | the two inputs take the values of AdjustedDimensions of their old values |
| Session.IsImageType | main.js:411 | `startsWith('image/')`: the type is "image/" followed by anything |
| Session.PageState.constructor | main.js:6-12 | page load: no file, canvas, image or crop, and the conditions from the URL |
| Session.PageState.Target | main.js:471-472 | the target ratio of the conditions is positive |
| Session.PageState.Process | main.js:456-513 | a decoded image is stored before the gate; a mismatch keeps the old canvas; otherwise the canvas rendered from `cropData` is stored and resolved; a missing or undecodable file rejects and changes nothing |
| Session.PageState.Settle | main.js:411-439 | a resolved canvas ends with the blob of the first fitting encode; a size mismatch and other failures end without one |
| Session.PageState.HandleFileSelect | main.js:410-440 | a non-image file changes nothing; an image becomes the current file with `cropData` cleared, and a matching one is drawn with the centred crop and ends with the blob of the first fitting encode, with its request and size, while a mismatch keeps the old canvas |
| Session.PageState.AutoCrop | main.js:178-198 | the current file is drawn from the current `cropData` with the gate bypassed, and the blob is the first fitting encode, with its request and size |
| Session.PageState.ExecuteCrop | main.js:707-753 | the overlay becomes `cropData` in source pixels; a decoded current file becomes `originalImage` and is drawn from that crop, and the blob is the first fitting encode, with its request and size; without an original image it fails before changing anything |
| Session.PageState.CancelCrop | main.js:235-238 | cancel clears only `cropData` |
| Session.PageState.Reset | main.js:243-254 | reset clears all four globals |

## Left out

- The DOM and the UI are outside the model: showing and hiding areas, previews, toasts, the
  information panel, the condition banner, the copy buttons and the size-error text.
- `canvas.toBlob` is the size oracle `sizes`; a `null` blob, which would throw in the callback,
  is not modelled.
- The pixels of `drawImage` are not modelled: the canvas records which rectangle of which image
  it is asked to draw.
- The URL shortener (`createShortUrl`, short.io), `debounce`, `formatFileSize`,
  `copyToClipboard` and the page routing (`getCurrentPage`, `initIndexPage`, the expired page)
  are not modelled; they are I/O or presentation.
- The download button (`setupDownloadButton`) is not modelled; it only builds a file name and
  clicks a link.
- Asynchronous ordering is not modelled: two `processImage` runs overlapping on the globals
  cannot happen in the model, because each handler runs to completion.
- `setupCropDrag` adds a fresh set of listeners on every `initManualCrop`, and the old ones stay
  attached. The model keeps one controller and does not model the duplicated handlers.
- The manual-crop button passes `originalImage` to `initManualCrop`, and that value may be
  `null`. The model only places the overlay on an image that is displayed.
- The browser encodes query pairs with percent-encoding (section 5.2 of the WHATWG URL
  Standard). The model keeps the pairs as text; `Link` stands for the serialised URL.
- The `generateUrl` rewrite of `generator.html` to `index.html` in the base address is left out:
  the address is a parameter.
- The answer `''` when the generator form is missing is left out, and so is the early return of
  `adjustMaxDimensions` when an input element is missing.
- Numbers are exact reals and unbounded integers. Doubles, values of 1e21 and above (which
  `String` writes in exponent form), and precision beyond 2^53 are not modelled.
- The CSS text of `style.left` is taken as the exact number. A value written in exponent form,
  and the `Number.isNaN` fallback to 0 for an unset style, are not modelled.
- `offsetWidth`/`offsetHeight` are the rounded style sizes, so borders are taken as zero.
- Geometry.Render: the canvas records the sizes main.js assigns, `Math.round` of the output
  size. The `canvas.width` and `canvas.height` setters are not modelled. They store their
  defaults, 300 and 150, for a value outside 0 to 2^31 - 1. Such a value arises from a
  negative bound in the URL (`?maxW=-100` gives -100, which `|| 1920` keeps). So for a negative
  bound the model's canvas keeps the negative size, where the browser draws at 300 x 150.
- CropOverlay.PointerPosition: a touch event with no touch points gives `None`; the model does
  not go on to the handlers with `undefined` coordinates, which would produce NaN positions.
- CropOverlay.Controller.HandleMove: it does not state outright that an installed overlay has the
  target ratio and lies inside the image. Both follow from Propose's contract and the Accepts
  test that its ensures names.
- CropOverlay.Controller.StartResize: it takes the handle's direction, which the source reads
  as the second class name of the handle element.
- CropOverlay.Controller.SourceCrop: it requires a displayed image of positive size, where the
  source would divide by zero and produce Infinity or NaN.
- CropOverlay.ScaledCrop: it has the same positive-size requirement as SourceCrop.
- JsText.ParseRatio: only "W:H" with positive decimal integer components parses. Decimal
  fractions, signs, exponents, surrounding spaces, and the NaN and Infinity that `Number` gives
  for other texts are outside the model.
- Session.PageState.Process: like every PageState member that uses the target ratio, it requires
  a ratio that ParseRatio accepts, where the source goes on to compute with NaN or Infinity.
- Dimensions.AdjustedDimensions: a ratio that ParseRatio refuses changes nothing. The source
  instead computes with the numbers `Number` reads from the two pieces. It adjusts the inputs for
  every such text whose ratio is not NaN and is more than 0.01 away from the current one.
  Examples are "1.5:1" (ratio 1.5), " 16:9" and "+16:9" (ratio 16/9), "16:9.0" (16/9) and
  "-16:9" (a negative ratio, so `maxW` becomes negative). For all of these the model leaves both
  inputs unchanged. A zero component is another such case. For "0:9" in landscape the ratio is 0,
  width / ratio is Infinity, and `maxW` becomes 0. For "0:9" in portrait the ratio is Infinity,
  width / ratio is 0, and `maxW` becomes "Infinity". "9:0" behaves the same with the
  orientations swapped. Only where `Number` gives NaN, as for "0:0" or for a piece that is not a
  number, does the source also change nothing.
- Dimensions.HeightAdjustmentIsStable: stated only for ratios of at most 2 with the height
  branch taken. For wider ratios a height rounded to the nearest integer can miss the 0.01
  tolerance.
