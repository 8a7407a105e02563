/** The generator page's `adjustMaxDimensions`: when the typed maximum width and height are off the
    chosen ratio by more than 0.01, one of them is recomputed from the other. */
module Dimensions {
  import opened Wrappers
  import opened Numeric
  import opened JsText
  import opened Geometry
  import opened UrlParams

  /** The absolute tolerance on `maxW / maxH - ratio`. */
  const RatioTolerance: real := 0.01

  /** The range a recomputed height must fall in for the height to be the side recomputed. */
  const MinAdjusted: real := 100.0
  const MaxAdjusted: real := 4000.0

  /** `parseInt(input.value) || default`. */
  function CurrentValue(text: string, default: int): (v: int)
    ensures default != 0 ==> v != 0
  {
    NumberOr(ParseInt(text), default)
  }

  /** The pair of input texts after `adjustMaxDimensions`. Nothing changes when the ratio field is
      missing or not a positive `W:H`; otherwise the pair is adjusted to the ratio the
      orientation selects. */
  function AdjustedDimensions(f: Form, maxW: string, maxH: string): (r: (string, string))
    ensures r.0 == maxW || r.1 == maxH
    ensures ParseRatio(f.ratio.GetOr("")).None? ==> r == (maxW, maxH)
    ensures r.1 != maxH ==> var h := ParseInt(r.1);
      h.Some? && MinAdjusted <= h.value as real <= MaxAdjusted
    ensures match ParseRatio(f.ratio.GetOr(""))
      case None => true
      case Some((ratioW, ratioH)) => r == AdjustedTo(maxW, maxH, TargetRatio(ratioW, ratioH, f.orient.GetOr("")))
  {
    match ParseRatio(f.ratio.GetOr(""))
    case None => (maxW, maxH)
    case Some((ratioW, ratioH)) => AdjustedTo(maxW, maxH, TargetRatio(ratioW, ratioH, f.orient.GetOr("")))
  }

  /** The pair of input texts adjusted to the ratio `t`. A pair within the tolerance of `t` is kept.
      Otherwise the height becomes the width over `t`, rounded, when that lies in [100, 4000], and
      else the width becomes the height times `t`, rounded; either new text reads back through
      `parseInt` as the rounded number. */
  function AdjustedTo(maxW: string, maxH: string, t: real): (r: (string, string))
    requires t > 0.0
    ensures var w, h := CurrentValue(maxW, DefaultMaxW), CurrentValue(maxH, DefaultMaxH);
      if Abs(w as real / h as real - t) <= RatioTolerance then r == (maxW, maxH)
      else if HeightCandidateFits(w as real / t) then
        r.0 == maxW && ParseInt(r.1) == Some(Round(w as real / t))
        && MinAdjusted <= Round(w as real / t) as real <= MaxAdjusted
      else
        r.1 == maxH && ParseInt(r.0) == Some(Round(h as real * t))
  {
    var w := CurrentValue(maxW, DefaultMaxW);
    var h := CurrentValue(maxH, DefaultMaxH);
    if Abs(w as real / h as real - t) <= RatioTolerance then (maxW, maxH)
    else if HeightCandidateFits(w as real / t) then
      RoundInRange(w as real / t);
      (maxW, RecomputedHeight(w, t))
    else
      (RecomputedWidth(h, t), maxH)
  }

  /** `String(Math.round(maxW / ratio))` and `String(Math.round(maxH * ratio))`. */
  function RecomputedHeight(w: int, t: real): (text: string)
    requires t > 0.0
    ensures ParseInt(text) == Some(Round(w as real / t))
  {
    ParseIntOfIntToString(Round(w as real / t));
    IntToString(Round(w as real / t))
  }

  function RecomputedWidth(h: int, t: real): (text: string)
    ensures ParseInt(text) == Some(Round(h as real * t))
  {
    ParseIntOfIntToString(Round(h as real * t));
    IntToString(Round(h as real * t))
  }

  /** The test `x <= 4000 && x >= 100` on the recomputed height before rounding. */
  predicate HeightCandidateFits(x: real)
    ensures HeightCandidateFits(x) ==> MinAdjusted <= Round(x) as real <= MaxAdjusted
  {
    x <= MaxAdjusted && x >= MinAdjusted
  }

  lemma RoundInRange(x: real)
    ensures MinAdjusted <= x <= MaxAdjusted ==> MinAdjusted <= Round(x) as real <= MaxAdjusted
  {
    if x <= MaxAdjusted {
      RoundBelowIntegerBound(x, 4000);
    }
  }

  /** A height rounded from `w / t` puts `w / height` within the tolerance of `t` when `t <= 2`:
      the rounding moves the height by at most 1/2, so the ratio by at most t/200. */
  lemma RoundedHeightWithinTolerance(w: real, t: real, n: int)
    requires 0.0 < t <= 2.0 && 100 <= n
    requires n as real - 0.5 <= w / t < n as real + 0.5
    ensures Abs(w / n as real - t) <= RatioTolerance
  {
    var x := w / t;
    var h := n as real;
    var d := x - h;
    assert w == x * t;
    assert w - t * h == t * d;
    assert w / h - t == (t * d) / h;
    MulNonNegative(t, d + 0.5);
    MulNonNegative(t, 0.5 - d);
    var e := (t * d) / h;
    assert e * h == t * d;
    if e > RatioTolerance {
      ScaleMonotone(RatioTolerance, e, h);
      assert false;
    }
    if e < -RatioTolerance {
      ScaleMonotone(e, -RatioTolerance, h);
      assert false;
    }
  }

  /** Adjusting twice is adjusting once while the ratio is at most 2 and the height is the side
      recomputed: the new height already meets the tolerance, so a second call changes nothing. */
  lemma HeightAdjustmentIsStable(f: Form, maxW: string, maxH: string)
    requires var r := ParseRatio(f.ratio.GetOr(""));
      && r.Some? && TargetRatio(r.value.0, r.value.1, f.orient.GetOr("")) <= 2.0
      && HeightCandidateFits(CurrentValue(maxW, DefaultMaxW) as real
           / TargetRatio(r.value.0, r.value.1, f.orient.GetOr("")))
    ensures var r := AdjustedDimensions(f, maxW, maxH);
      AdjustedDimensions(f, r.0, r.1) == r
  {
    var ratio := ParseRatio(f.ratio.GetOr("")).value;
    var t := TargetRatio(ratio.0, ratio.1, f.orient.GetOr(""));
    var w := CurrentValue(maxW, DefaultMaxW);
    var r := AdjustedDimensions(f, maxW, maxH);
    if r != (maxW, maxH) {
      var n := Round(w as real / t);
      RoundInRange(w as real / t);
      assert r == (maxW, RecomputedHeight(w, t));
      ParseIntOfIntToString(n);
      assert CurrentValue(r.1, DefaultMaxH) == n;
      RoundedHeightWithinTolerance(w as real, t, n);
    }
  }

  /** The generator page's two number inputs, as the texts of their values. */
  class DimensionInputs {
    var maxW: string
    var maxH: string

    constructor (maxW: string, maxH: string)
      ensures this.maxW == maxW && this.maxH == maxH
    {
      this.maxW := maxW;
      this.maxH := maxH;
    }

    /** `adjustMaxDimensions` with the form's current ratio and orientation. */
    method AdjustMaxDimensions(f: Form)
      modifies this
      ensures (maxW, maxH) == AdjustedDimensions(f, old(maxW), old(maxH))
    {
      if f.ratio.None? || f.ratio.value == "" {
        assert Split("", ':') == [""];
        return;
      }
      var parsed := ParseRatio(f.ratio.value);
      if parsed.None? {
        return;
      }
      var actualRatio := TargetRatio(parsed.value.0, parsed.value.1, f.orient.GetOr(""));
      var currentMaxW := CurrentValue(maxW, DefaultMaxW);
      var currentMaxH := CurrentValue(maxH, DefaultMaxH);
      var currentRatio := currentMaxW as real / currentMaxH as real;
      if Abs(currentRatio - actualRatio) > RatioTolerance {
        if HeightCandidateFits(currentMaxW as real / actualRatio) {
          maxH := RecomputedHeight(currentMaxW, actualRatio);
        } else {
          maxW := RecomputedWidth(currentMaxH, actualRatio);
        }
      }
    }
  }
}
