/** The geometry of `checkImageRatio` and `processImage` in main.js: the 5 % ratio gate, the centred
    crop, the two-step output size and the canvas that `drawImage` is asked to fill. */
module Geometry {
  import opened Numeric
  import opened Wrappers

  /** A decoded image: its natural width and height and an opaque handle on its pixels. */
  datatype Image = Image(width: nat, height: nat, pixels: nat)

  /** A rectangle `{x, y, width, height}`. */
  datatype Rect = Rect(x: real, y: real, width: real, height: real)

  datatype Size = Size(w: real, h: real)

  /** The canvas `processImage` resolves with: its integer size, and the source rectangle that
      `drawImage(image, x, y, width, height, 0, 0, canvas.width, canvas.height)` scales into it. */
  datatype Canvas = Canvas(width: int, height: int, image: Image, source: Rect)

  /** The relative tolerance of the ratio gate. */
  const Tolerance: real := 0.05

  /** The effective target ratio: W/H, or H/W when the orientation is exactly "portrait". */
  function TargetRatio(ratioW: nat, ratioH: nat, orient: string): (t: real)
    requires ratioW > 0 && ratioH > 0
    ensures t > 0.0
    ensures orient == "portrait" ==> t * ratioW as real == ratioH as real
    ensures orient != "portrait" ==> t * ratioH as real == ratioW as real
  {
    if orient == "portrait" then ratioH as real / ratioW as real else ratioW as real / ratioH as real
  }

  /** JavaScript's `a / b > t` for finite `a`, `b`: a zero divisor gives +Infinity, -Infinity or NaN. */
  predicate QuotientAbove(a: real, b: real, t: real)
    ensures QuotientAbove(a, b, t) ==> !QuotientBelow(a, b, t)
  {
    if b == 0.0 then a > 0.0 else a / b > t
  }

  /** JavaScript's `a / b < t` for finite `a`, `b`. */
  predicate QuotientBelow(a: real, b: real, t: real) {
    if b == 0.0 then a < 0.0 else a / b < t
  }

  /** For a positive divisor, JavaScript's `a / b > t` and `a / b < t` compare `a` with `t * b`. */
  lemma QuotientMeaning(a: real, b: real, t: real)
    ensures b > 0.0 ==> (QuotientAbove(a, b, t) <==> a > t * b)
    ensures b > 0.0 ==> (QuotientBelow(a, b, t) <==> a < t * b)
  {
    if b > 0.0 {
      var q := a / b;
      assert a == q * b;
      assert a - t * b == (q - t) * b;
      if q > t {
        MulPositive(q - t, b);
      } else if q < t {
        MulPositive(t - q, b);
        assert (t - q) * b == t * b - a;
      }
    }
  }

  /** Dividing by a positive `t` preserves the comparison with `h`. */
  lemma DivisionMeaning(a: real, t: real, h: real)
    requires t > 0.0
    ensures a > t * h <==> a / t > h
    ensures a / t * t == a
  {
    var q := a / t;
    assert a == q * t;
    assert a - t * h == t * (q - h);
  }

  /** `checkImageRatio`: the image's ratio deviates from the target by strictly less than 5 %
      of the target. An image of zero height (ratio Infinity or NaN) never passes. */
  function CheckImageRatio(width: nat, height: nat, t: real): (matches: bool)
    requires t > 0.0
    ensures matches <==> 19.0 * t * height as real < 20.0 * width as real < 21.0 * t * height as real
  {
    var w, h := width as real, height as real;
    if h == 0.0 then false
    else
      var q := w / h;
      WithinTolerance(q, t);
      QuotientMeaning(w, h, 0.95 * t);
      QuotientMeaning(w, h, 1.05 * t);
      Abs(q - t) / t < Tolerance
  }

  /** A relative deviation below 5 % puts the ratio strictly between 0.95 and 1.05 times the target. */
  lemma WithinTolerance(q: real, t: real)
    requires t > 0.0
    ensures Abs(q - t) / t < Tolerance <==> 0.95 * t < q < 1.05 * t
  {
    var a := Abs(q - t);
    QuotientMeaning(a, t, Tolerance);
    assert a / t < Tolerance <==> a < 0.05 * t;
  }

  /** A deviation of exactly 5 %, either way, is a mismatch. */
  lemma DeviationOfExactlyFivePercentFails(width: nat, height: nat, t: real)
    requires t > 0.0
    requires 20.0 * width as real == 21.0 * t * height as real
      || 20.0 * width as real == 19.0 * t * height as real
    ensures !CheckImageRatio(width, height, t)
  {
  }

  /** The automatic crop of `processImage`: too wide an image loses width, too tall an image loses
      height, and the kept part is centred. */
  function CenteredCrop(w: real, h: real, t: real): (r: Rect)
    requires t > 0.0
    ensures r.width == t * r.height
    ensures 2.0 * r.x + r.width == w && 2.0 * r.y + r.height == h
    ensures r.width == w || r.height == h
    ensures 0.0 <= w && 0.0 <= h ==>
      0.0 <= r.x && 0.0 <= r.y && r.x + r.width <= w && r.y + r.height <= h
    ensures w == t * h ==> r == Rect(0.0, 0.0, w, h)
  {
    QuotientMeaning(w, h, t);
    if QuotientAbove(w, h, t) then
      var sw := h * t;
      Rect((w - sw) / 2.0, 0.0, sw, h)
    else if QuotientBelow(w, h, t) then
      var sh := w / t;
      assert h > 0.0 ==> sh < h by {
        if h > 0.0 {
          assert w < t * h;
          assert w / t * t == w;
        }
      }
      Rect(0.0, (h - sh) / 2.0, w, sh)
    else
      assert h != 0.0 ==> w / h == t && w == w / h * h;
      Rect(0.0, 0.0, w, h)
  }

  /** No rectangle of the target ratio that fits in the image is larger than the centred crop. */
  lemma {:induction false} CenteredCropIsLargest(w: real, h: real, t: real, q: Rect)
    requires t > 0.0 && 0.0 <= w && 0.0 <= h
    requires 0.0 <= q.x && 0.0 <= q.y && q.x + q.width <= w && q.y + q.height <= h
    requires 0.0 <= q.height && q.width == t * q.height
    ensures q.width <= CenteredCrop(w, h, t).width && q.height <= CenteredCrop(w, h, t).height
  {
    var r := CenteredCrop(w, h, t);
    if r.width == w {
      assert t * q.height <= t * r.height;
    } else {
      assert r.height == h;
      assert q.height <= r.height;
      assert t * q.height <= t * r.height;
    }
  }

  /** Cropping the crop again changes nothing: the crop already has the target ratio. */
  lemma CenteredCropIsFixedPoint(w: real, h: real, t: real)
    requires t > 0.0
    ensures var r := CenteredCrop(w, h, t);
      CenteredCrop(r.width, r.height, t) == Rect(0.0, 0.0, r.width, r.height)
  {
  }

  /** The ratio reconcile shared by the output size and the crop-overlay resize: when `w / h`
      exceeds the target, width follows height, otherwise height follows width. For non-negative
      sides the result is the largest rectangle of ratio `t` inside `w` x `h`. */
  function Reconcile(w: real, h: real, t: real): (r: Size)
    requires t > 0.0
    ensures r.w == t * r.h
    ensures r.w == w || r.h == h
    ensures 0.0 <= h ==> r.w <= w && r.h <= h
    ensures 0.0 <= w && 0.0 <= h ==> r.h == Min(h, w / t)
  {
    QuotientMeaning(w, h, t);
    DivisionMeaning(w, t, h);
    if QuotientAbove(w, h, t) then
      assert h > 0.0 ==> h < w / t;
      Size(h * t, h)
    else
      assert h > 0.0 ==> w / t <= h;
      Size(w, w / t)
  }

  /** The output size of `processImage` before rounding: first each side is capped by its bound,
      then the ratio is reconciled, so only ever one side shrinks further. */
  function OutputSize(sw: real, sh: real, maxW: int, maxH: int, t: real): (r: Size)
    requires t > 0.0
    ensures r.w == t * r.h
    ensures r.w == Min(maxW as real, sw) || r.h == Min(maxH as real, sh)
    ensures 0.0 <= Min(maxH as real, sh) ==>
      r.w <= Min(maxW as real, sw) && r.h <= Min(maxH as real, sh)
  {
    Reconcile(Min(maxW as real, sw), Min(maxH as real, sh), t)
  }

  /** The canvas of `processImage`: the user's crop verbatim when there is one, else the centred
      crop; its size is the output size, each side rounded with `Math.round` (no lower clamp). */
  function Render(img: Image, t: real, maxW: int, maxH: int, cropData: Option<Rect>): (c: Canvas)
    requires t > 0.0
    ensures c.image == img
    ensures cropData.Some? ==> c.source == cropData.value
    ensures cropData.None? ==> c.source == CenteredCrop(img.width as real, img.height as real, t)
    ensures 0.0 <= Min(maxH as real, c.source.height) ==> c.width <= maxW && c.height <= maxH
    ensures 0.0 <= Min(maxH as real, c.source.height) ==>
      c.width <= Round(c.source.width) && c.height <= Round(c.source.height)
    ensures var out := OutputSize(c.source.width, c.source.height, maxW, maxH, t);
      c.width == Round(out.w) && c.height == Round(out.h)
    ensures NearRatio(c.width, c.height, t)
  {
    var source := match cropData
      case Some(r) => r
      case None => CenteredCrop(img.width as real, img.height as real, t);
    OutputRoundingBounds(source.width, source.height, maxW, maxH, t);
    OutputRoundingRatio(source.width, source.height, maxW, maxH, t);
    var out := OutputSize(source.width, source.height, maxW, maxH, t);
    Canvas(Round(out.w), Round(out.h), img, source)
  }

  /** An integer bound on the output size survives `Math.round`, and so does the bound by the source. */
  lemma OutputRoundingBounds(sw: real, sh: real, maxW: int, maxH: int, t: real)
    requires t > 0.0
    ensures var out := OutputSize(sw, sh, maxW, maxH, t);
      0.0 <= Min(maxH as real, sh) ==>
        Round(out.w) <= maxW && Round(out.h) <= maxH && Round(out.w) <= Round(sw) && Round(out.h) <= Round(sh)
  {
    var out := OutputSize(sw, sh, maxW, maxH, t);
    if 0.0 <= Min(maxH as real, sh) {
      RoundBelowIntegerBound(out.w, maxW);
      RoundBelowIntegerBound(out.h, maxH);
      RoundMonotone(out.w, sw);
      RoundMonotone(out.h, sh);
    }
  }

  /** Whole-pixel sides whose ratio is `t` up to half a pixel on each side. */
  predicate NearRatio(w: int, h: int, t: real) {
    -(1.0 + t) / 2.0 <= w as real - t * h as real <= (1.0 + t) / 2.0
  }

  /** After `Math.round` the output keeps the target ratio up to half a pixel on each side. */
  lemma OutputRoundingRatio(sw: real, sh: real, maxW: int, maxH: int, t: real)
    requires t > 0.0
    ensures var out := OutputSize(sw, sh, maxW, maxH, t); NearRatio(Round(out.w), Round(out.h), t)
  {
    var out := OutputSize(sw, sh, maxW, maxH, t);
    assert out.w == t * out.h;
    RoundedRatio(out, t);
  }

  /** Rounding both sides of an exact-ratio size keeps the ratio up to half a pixel per side. */
  lemma RoundedRatio(out: Size, t: real)
    requires t > 0.0 && out.w == t * out.h
    ensures NearRatio(Round(out.w), Round(out.h), t)
  {
    RatioSlack(out.w, out.h, Round(out.w) as real, Round(out.h) as real, t);
  }

  lemma RatioSlack(w: real, h: real, rw: real, rh: real, t: real)
    requires t > 0.0 && w == t * h
    requires -0.5 <= rw - w <= 0.5 && -0.5 <= rh - h <= 0.5
    ensures -(1.0 + t) / 2.0 <= rw - t * rh <= (1.0 + t) / 2.0
  {
    var d := rh - h;
    assert t * rh == w + t * d;
    MulNonNegative(t, 0.5 - d);
    assert t * (0.5 - d) == 0.5 * t - t * d;
    MulNonNegative(t, d + 0.5);
    assert t * (d + 0.5) == t * d + 0.5 * t;
    assert rw - t * rh <= (1.0 + t) / 2.0;
    assert -(1.0 + t) / 2.0 <= rw - t * rh;
  }

  /** 1000 x 500 against 16:9 landscape deviates by about 11 %: a mismatch. */
  lemma WideImageIsAMismatch()
    ensures !CheckImageRatio(1000, 500, TargetRatio(16, 9, "landscape"))
  {
  }

  /** 1920 x 1080 against 16:9 landscape with bounds 1920 x 1080: accepted, uncropped, unscaled. */
  lemma FullHdIsKeptAsIs(pixels: nat)
    ensures var t := TargetRatio(16, 9, "landscape");
      var img := Image(1920, 1080, pixels);
      CheckImageRatio(1920, 1080, t)
      && Render(img, t, 1920, 1080, None) == Canvas(1920, 1080, img, Rect(0.0, 0.0, 1920.0, 1080.0))
  {
    var t := TargetRatio(16, 9, "landscape");
    assert 1920.0 == t * 1080.0;
  }

  /** An 800 x 450 crop with bounds 400 x 400: both sides are capped to 400, then the height
      follows the width to 225. */
  lemma DownscaleFollowsWidth()
    ensures OutputSize(800.0, 450.0, 400, 400, TargetRatio(16, 9, "landscape")) == Size(400.0, 225.0)
  {
  }
}
