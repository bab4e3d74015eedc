/**
 * `UIProgressbar`: a percentage clamped to `[0, 100]` becomes a whole number
 * of filled pixels, drawn as a left cap, a stretched middle and a right cap,
 * plus a clipped finishing cap when the fill nears the end of the bar.
 * `capLeft` and `capRight` are the intrinsic widths of the two foreground caps.
 */
module Progressbars {

  /** The percentage held to `[0, 100]`. */
  function ClampPercent(val: real): (p: real)
    ensures 0.0 <= p <= 100.0
    ensures 0.0 <= val <= 100.0 ==> p == val
    ensures val < 0.0 ==> p == 0.0
    ensures val > 100.0 ==> p == 100.0
  {
    var m := if 100.0 <= val then 100.0 else val;
    if 0.0 >= m then 0.0 else m
  }

  /** The whole pixels of `width` the clamped percentage covers, computed in exact arithmetic and truncated. */
  function ProgressPixels(val: real, width: nat): (px: int)
    ensures 0 <= px <= width
    ensures px as real <= ClampPercent(val) / 100.0 * width as real < px as real + 1.0
  {
    var pct := ClampPercent(val);
    assert 0.0 <= pct / 100.0 * width as real <= width as real by {
      assert pct / 100.0 * width as real == pct * width as real / 100.0;
    }
    (pct / 100.0 * width as real).Floor
  }

  /** A larger percentage never fills fewer pixels. */
  lemma ProgressPixelsMonotonic(a: real, b: real, width: nat)
    requires a <= b
    ensures ProgressPixels(a, width) <= ProgressPixels(b, width)
  {
    var x := ClampPercent(a) / 100.0 * width as real;
    var y := ClampPercent(b) / 100.0 * width as real;
    assert x <= y by {
      assert ClampPercent(a) <= ClampPercent(b);
      assert (ClampPercent(b) - ClampPercent(a)) / 100.0 * width as real >= 0.0;
    }
  }

  /** The empty bar and the full bar. */
  lemma ProgressPixelsEnds(width: nat)
    ensures ProgressPixels(0.0, width) == 0
    ensures ProgressPixels(100.0, width) == width
  {
  }

  class Progressbar {
    const width: nat
    const capLeft: nat
    const capRight: nat

    var progressPixel: int
    var midVisible: bool
    var midLeft: int
    var midWidth: int
    var rightLeft: int
    var finishVisible: bool
    var finishRight: int
    var finishClip: int

    ghost predicate Valid()
      reads this
    {
      0 <= progressPixel <= width && FillMatches()
    }

    /**
     * The three regimes of `_update_progress`: below `capLeft + capRight` the
     * middle is hidden and the right cap abuts the left one; above it the
     * three parts tile exactly `progressPixel`; and from `width - capRight`
     * on the finishing cap shows the unfilled remainder. (The left cap has no
     * flag: nothing ever hides it.)
     */
    ghost predicate FillMatches()
      reads this
    {
      && (midVisible <==> progressPixel > capLeft + capRight)
      && (!midVisible ==> rightLeft == capLeft)
      && (midVisible ==> midLeft == capLeft && capLeft + midWidth + capRight == progressPixel
                         && rightLeft + capRight == progressPixel)
      && (finishVisible <==> midVisible && progressPixel >= width - capRight)
      && (finishVisible ==> finishClip == width - progressPixel && finishRight == -(width - progressPixel))
    }

    constructor (width: nat, capLeft: nat, capRight: nat, value: real)
      ensures Valid() && progressPixel == ProgressPixels(value, width)
      ensures this.width == width && this.capLeft == capLeft && this.capRight == capRight
    {
      this.width := width;
      this.capLeft := capLeft;
      this.capRight := capRight;
      progressPixel := 0;
      midVisible := true;
      midLeft := 0;
      midWidth := 0;
      rightLeft := 0;
      finishVisible := true;
      finishRight := 0;
      finishClip := 0;
      new;
      SetValue(value);
      UpdateProgress();
    }

    /** `set_value`: stores the clamped, truncated pixel fill and redraws it. */
    method SetValue(val: real)
      modifies this
      ensures Valid() && progressPixel == ProgressPixels(val, width)
    {
      progressPixel := ProgressPixels(val, width);
      UpdateProgress();
    }

    /** `_update_progress`: lays the foreground parts out for the current fill; hidden parts keep their geometry. */
    method UpdateProgress()
      modifies this
      ensures FillMatches() && progressPixel == old(progressPixel)
      ensures !midVisible ==> midLeft == old(midLeft) && midWidth == old(midWidth)
      ensures !finishVisible ==> finishRight == old(finishRight) && finishClip == old(finishClip)
    {
      finishVisible := false;
      if progressPixel <= capLeft + capRight {
        midVisible := false;
        rightLeft := capLeft;
      } else {
        midVisible := true;
        midLeft := capLeft;
        midWidth := progressPixel - capRight - capLeft;
        rightLeft := midLeft + midWidth;
        if progressPixel >= width - capRight {
          finishVisible := true;
          finishRight := -(width - progressPixel);
          finishClip := width - progressPixel;
        }
      }
    }
  }

  /** With the bar wider than its two caps, a full bar shows the finishing cap with nothing left to clip. */
  lemma FullBarShowsFinish(width: nat, capLeft: nat, capRight: nat)
    requires width > capLeft + capRight
    ensures var px := ProgressPixels(100.0, width);
            px > capLeft + capRight && px >= width - capRight && width - px == 0
  {
    ProgressPixelsEnds(width);
  }
}
