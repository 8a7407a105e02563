/** The page state of main.js (the globals `currentFile`, `processedCanvas`, `originalImage`,
    `cropData` and the parsed `params`) and the handlers that change it: file selection with
    `processImage` and `adjustFileSize`, the auto-crop and ignore buttons, `executeCrop`, cancel and
    reset. The browser's image decoder is the `decoded` field of a file, the encoder a size oracle. */
module Session {
  import opened Wrappers
  import opened Geometry
  import opened JsText
  import opened FileSize
  import opened UrlParams
  import opened CropOverlay

  /** A chosen file: its MIME type, its name, and the image it decodes to (`None`: `onerror`). */
  datatype File = File(mimeType: string, name: string, decoded: Option<Image>)

  /** `file.type.startsWith('image/')`. */
  predicate IsImageType(mimeType: string)
    ensures IsImageType(mimeType) <==> |mimeType| >= 6 && mimeType == "image/" + mimeType[6..]
  {
    |mimeType| >= 6 && mimeType[..6] == "image/"
  }

  /** How a `processImage` promise settles: rejected by a missing file or a failed decode,
      rejected with `SIZE_MISMATCH`, or resolved with the canvas. */
  datatype Processed = Failed | SizeMismatch | Rendered(canvas: Canvas)

  /** How a handler ends: a non-image file refused, a ratio mismatch (swallowed, the size error is
      shown), another failure (a toast), or the canvas and the blob that was kept. */
  datatype Outcome = NotAnImage | Mismatch | Error | Done(canvas: Canvas, blob: Encoded)

  class PageState {
    const params: Params
    var currentFile: Option<File>
    var processedCanvas: Option<Canvas>
    var originalImage: Option<Image>
    var cropData: Option<Rect>

    /** Page load: nothing chosen yet, and the conditions read from the URL. */
    constructor (params: Params)
      ensures this.params == params
      ensures currentFile.None? && processedCanvas.None? && originalImage.None? && cropData.None?
    {
      this.params := params;
      currentFile := None;
      processedCanvas := None;
      originalImage := None;
      cropData := None;
    }

    /** The target ratio of the conditions: width over height, inverted for portrait. */
    function Target(): (t: real)
      requires ParseRatio(params.ratio).Some?
      ensures t > 0.0
    {
      var ratio := ParseRatio(params.ratio).value;
      TargetRatio(ratio.0, ratio.1, params.orient)
    }

    /** `processImage`: a decoded image is stored in `originalImage` before the ratio gate; a
        mismatch (unless the gate is bypassed) rejects and keeps the old canvas; otherwise the
        canvas is rendered from the current `cropData` and becomes `processedCanvas`. */
    method Process(file: Option<File>, ignoreSizeCheck: bool) returns (result: Processed)
      requires ParseRatio(params.ratio).Some?
      modifies this
      ensures currentFile == old(currentFile) && cropData == old(cropData)
      ensures file.None? || file.value.decoded.None? ==>
        result == Failed && originalImage == old(originalImage) && processedCanvas == old(processedCanvas)
      ensures file.Some? && file.value.decoded.Some? ==>
        var img := file.value.decoded.value;
        && originalImage == Some(img)
        && if !ignoreSizeCheck && !CheckImageRatio(img.width, img.height, Target()) then
             result == SizeMismatch && processedCanvas == old(processedCanvas)
           else
             var canvas := Render(img, Target(), params.maxW, params.maxH, cropData);
             result == Rendered(canvas) && processedCanvas == Some(canvas)
    {
      if file.None? || file.value.decoded.None? {
        return Failed;
      }
      var img := file.value.decoded.value;
      originalImage := Some(img);
      if !ignoreSizeCheck && !CheckImageRatio(img.width, img.height, Target()) {
        return SizeMismatch;
      }
      var canvas := Render(img, Target(), params.maxW, params.maxH, cropData);
      processedCanvas := Some(canvas);
      result := Rendered(canvas);
    }

    /** The rest of a handler after `processImage`: a resolved canvas goes through
        `adjustFileSize` with the conditions' format and budget. The state is not touched. */
    method Settle(result: Processed, sizes: seq<nat>) returns (outcome: Outcome)
      requires |sizes| >= MaxAttempts
      ensures result.Failed? ==> outcome == Error
      ensures result.SizeMismatch? ==> outcome == Mismatch
      ensures result.Rendered? ==>
        && outcome.Done? && outcome.canvas == result.canvas
        && outcome.blob.attempt == FirstFit(params.maxSize, sizes, 0)
        && outcome.blob.size == sizes[outcome.blob.attempt]
        && outcome.blob.request == Request(params.format, outcome.blob.attempt)
    {
      match result
      case Failed =>
        outcome := Error;
      case SizeMismatch =>
        outcome := Mismatch;
      case Rendered(canvas) =>
        var blob, _ := AdjustFileSize(params.format, params.maxSize, sizes);
        outcome := Done(canvas, blob);
    }

    /** `handleFileSelect`: a non-image file changes nothing; an image file becomes the current
        file and clears `cropData` before processing, so its canvas is the centred crop; a
        mismatch leaves the previous canvas in place. */
    method HandleFileSelect(file: File, sizes: seq<nat>) returns (outcome: Outcome)
      requires ParseRatio(params.ratio).Some? && |sizes| >= MaxAttempts
      modifies this
      ensures !IsImageType(file.mimeType) ==>
        && outcome == NotAnImage
        && currentFile == old(currentFile) && cropData == old(cropData)
        && processedCanvas == old(processedCanvas) && originalImage == old(originalImage)
      ensures IsImageType(file.mimeType) ==> currentFile == Some(file) && cropData.None?
      ensures IsImageType(file.mimeType) && file.decoded.None? ==>
        outcome == Error && processedCanvas == old(processedCanvas) && originalImage == old(originalImage)
      ensures IsImageType(file.mimeType) && file.decoded.Some? ==>
        var img := file.decoded.value;
        && originalImage == Some(img)
        && if CheckImageRatio(img.width, img.height, Target()) then
             var canvas := Render(img, Target(), params.maxW, params.maxH, None);
             && processedCanvas == Some(canvas)
             && outcome.Done? && outcome.canvas == canvas
             && outcome.blob.attempt == FirstFit(params.maxSize, sizes, 0)
             && outcome.blob.size == sizes[outcome.blob.attempt]
             && outcome.blob.request == Request(params.format, outcome.blob.attempt)
           else
             outcome == Mismatch && processedCanvas == old(processedCanvas)
    {
      if !IsImageType(file.mimeType) {
        return NotAnImage;
      }
      currentFile := Some(file);
      cropData := None;
      var result := Process(Some(file), false);
      outcome := Settle(result, sizes);
    }

    /** The auto-crop and the ignore-size buttons (the same code): the current file is processed
        with the ratio gate bypassed, from whatever `cropData` holds. */
    method AutoCrop(sizes: seq<nat>) returns (outcome: Outcome)
      requires ParseRatio(params.ratio).Some? && |sizes| >= MaxAttempts
      modifies this
      ensures currentFile == old(currentFile) && cropData == old(cropData)
      ensures old(currentFile).None? || old(currentFile).value.decoded.None? ==>
        outcome == Error && processedCanvas == old(processedCanvas) && originalImage == old(originalImage)
      ensures old(currentFile).Some? && old(currentFile).value.decoded.Some? ==>
        var img := old(currentFile).value.decoded.value;
        var canvas := Render(img, Target(), params.maxW, params.maxH, old(cropData));
        && originalImage == Some(img) && processedCanvas == Some(canvas)
        && outcome.Done? && outcome.canvas == canvas
        && outcome.blob.attempt == FirstFit(params.maxSize, sizes, 0)
        && outcome.blob.size == sizes[outcome.blob.attempt]
        && outcome.blob.request == Request(params.format, outcome.blob.attempt)
    {
      var result := Process(currentFile, true);
      outcome := Settle(result, sizes);
    }

    /** `executeCrop` and `finalizeCrop`: the overlay, shown at `displayW` x `displayH`, becomes
        `cropData` in source pixels, and the current file is processed again from it with the gate
        bypassed. Without an `originalImage` the handler throws before changing anything. */
    method ExecuteCrop(overlay: Controller, displayW: real, displayH: real, sizes: seq<nat>)
      returns (outcome: Outcome)
      requires ParseRatio(params.ratio).Some? && |sizes| >= MaxAttempts
      requires displayW > 0.0 && displayH > 0.0
      modifies this
      ensures old(originalImage).None? ==>
        && outcome == Error
        && currentFile == old(currentFile) && cropData == old(cropData)
        && processedCanvas == old(processedCanvas) && originalImage == old(originalImage)
      ensures old(originalImage).Some? ==>
        var source := old(originalImage).value;
        && cropData == Some(overlay.SourceCrop(source.width, source.height, displayW, displayH))
        && currentFile == old(currentFile)
        && (currentFile.None? || currentFile.value.decoded.None? ==>
              outcome == Error && processedCanvas == old(processedCanvas) && originalImage == old(originalImage))
        && (currentFile.Some? && currentFile.value.decoded.Some? ==>
              var img := currentFile.value.decoded.value;
              var canvas := Render(img, Target(), params.maxW, params.maxH, cropData);
              && originalImage == Some(img) && processedCanvas == Some(canvas)
              && outcome.Done? && outcome.canvas == canvas
              && outcome.blob.attempt == FirstFit(params.maxSize, sizes, 0)
              && outcome.blob.size == sizes[outcome.blob.attempt]
              && outcome.blob.request == Request(params.format, outcome.blob.attempt))
    {
      if originalImage.None? {
        return Error;
      }
      var source := originalImage.value;
      cropData := Some(overlay.SourceCrop(source.width, source.height, displayW, displayH));
      var result := Process(currentFile, true);
      outcome := Settle(result, sizes);
    }

    /** The cancel button: only `cropData` is cleared. */
    method CancelCrop()
      modifies this
      ensures cropData.None?
      ensures currentFile == old(currentFile) && processedCanvas == old(processedCanvas)
      ensures originalImage == old(originalImage)
    {
      cropData := None;
    }

    /** The reset button: all four globals are cleared; the conditions stay. */
    method Reset()
      modifies this
      ensures currentFile.None? && processedCanvas.None? && originalImage.None? && cropData.None?
    {
      currentFile := None;
      processedCanvas := None;
      originalImage := None;
      cropData := None;
    }
  }
}
