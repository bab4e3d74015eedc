/**
 * `UISlider`: a knob dragged along a track. The state is a pixel offset
 * `currentVal` on `[0, effectiveWidth]`; the value it stands for is the affine
 * image of that offset on `[min_value, max_value]`. Pixel quantities are reals.
 */
module Sliders {
  import opened Options
  import opened Callbacks

  /** `v` lies between the two ends of a range, whichever is larger. */
  ghost predicate Between(v: real, a: real, b: real) {
    a <= v <= b || b <= v <= a
  }

  /** `v` is an offset `_set_current_val` can produce on a track of length `hi`. */
  ghost predicate OnTrack(v: real, hi: real) {
    0.0 <= v && (v <= hi || v == 0.0)
  }

  /** The offset `p` held to the track `[0, hi]`; a track of negative length holds only 0. */
  function Clamp(p: real, hi: real): (r: real)
    ensures OnTrack(r, hi)
    ensures 0.0 <= p <= hi ==> r == p
    ensures p < 0.0 || hi < 0.0 ==> r == 0.0
    ensures 0.0 <= hi < p ==> r == hi
  {
    var m := if hi <= p then hi else p;
    if 0.0 >= m then 0.0 else m
  }

  /** The offset `set_value` computes for `v`. */
  function PixelOffset(v: real, lo: real, hi: real, ew: real): (px: real)
    requires hi != lo
    ensures v == lo ==> px == 0.0
    ensures v == hi ==> px == ew
  {
    (v - lo) / (hi - lo) * ew
  }

  /** The value `get_value` reports for offset `px`. */
  function ValueAt(px: real, lo: real, hi: real, ew: real): (v: real)
    requires ew != 0.0
    ensures px == 0.0 ==> v == lo
    ensures px == ew ==> v == hi
  {
    px / ew * (hi - lo) + lo
  }

  /** `ValueAt` undoes `PixelOffset`. */
  lemma ValueAtPixelOffset(v: real, lo: real, hi: real, ew: real)
    requires hi != lo && ew != 0.0
    ensures ValueAt(PixelOffset(v, lo, hi, ew), lo, hi, ew) == v
  {
    var t := (v - lo) / (hi - lo);
    assert t * (hi - lo) == v - lo;
    assert t * ew / ew == t;
  }

  /** `PixelOffset` undoes `ValueAt`. */
  lemma PixelOffsetValueAt(px: real, lo: real, hi: real, ew: real)
    requires hi != lo && ew != 0.0
    ensures PixelOffset(ValueAt(px, lo, hi, ew), lo, hi, ew) == px
  {
    var t := px / ew;
    assert t * (hi - lo) / (hi - lo) == t;
    assert t * ew == px;
  }

  /** A quotient of two numbers of one sign, the first no larger, lies in `[0, 1]`. */
  lemma DivUnit(x: real, d: real)
    requires d != 0.0 && (0.0 <= x <= d || d <= x <= 0.0)
    ensures 0.0 <= x / d <= 1.0
  {
    var t := x / d;
    assert t * d == x;
    assert (1.0 - t) * d == d - x;
  }

  /** A quotient of positives, the first the larger, exceeds 1. */
  lemma DivAbove(x: real, d: real)
    requires 0.0 < d < x
    ensures x / d > 1.0
  {
    var t := x / d;
    assert t * d == x;
    assert (t - 1.0) * d == x - d;
  }

  /** A fraction in `[0, 1]` of `e` lies between 0 and `e`. */
  lemma MulUnit(t: real, e: real)
    requires 0.0 <= t <= 1.0
    ensures Between(t * e, 0.0, e)
  {
    if e < 0.0 { assert (1.0 - t) * e <= 0.0; }
  }

  /** A value inside the range maps onto the track. */
  lemma PixelOffsetOnTrack(v: real, lo: real, hi: real, ew: real)
    requires hi != lo && ew >= 0.0 && Between(v, lo, hi)
    ensures 0.0 <= PixelOffset(v, lo, hi, ew) <= ew
  {
    DivUnit(v - lo, hi - lo);
    MulUnit((v - lo) / (hi - lo), ew);
  }

  /** An offset on the track maps into the range. */
  lemma ValueAtBetween(px: real, lo: real, hi: real, ew: real)
    requires ew > 0.0 && OnTrack(px, ew)
    ensures Between(ValueAt(px, lo, hi, ew), lo, hi)
  {
    DivUnit(px, ew);
    MulUnit(px / ew, hi - lo);
  }

  /** `set_value(v)` then `get_value()` returns `v` for every `v` in the range. */
  lemma SetThenGet(v: real, lo: real, hi: real, ew: real)
    requires hi != lo && ew > 0.0 && Between(v, lo, hi)
    ensures ValueAt(Clamp(PixelOffset(v, lo, hi, ew), ew), lo, hi, ew) == v
  {
    PixelOffsetOnTrack(v, lo, hi, ew);
    var px := PixelOffset(v, lo, hi, ew);
    assert Clamp(px, ew) == px;
    ValueAtPixelOffset(v, lo, hi, ew);
  }

  /** A value past `max_value` pins the knob at the far end, so `get_value()` returns `max_value`. */
  lemma SetPastMax(v: real, lo: real, hi: real, ew: real)
    requires lo < hi && ew > 0.0 && hi < v
    ensures ValueAt(Clamp(PixelOffset(v, lo, hi, ew), ew), lo, hi, ew) == hi
  {
    DivAbove(v - lo, hi - lo);
    var t := (v - lo) / (hi - lo);
    assert (t - 1.0) * ew > 0.0;
  }

  /** A value below `min_value` pins the knob at the near end, so `get_value()` returns `min_value`. */
  lemma SetBelowMin(v: real, lo: real, hi: real, ew: real)
    requires lo < hi && ew > 0.0 && v < lo
    ensures ValueAt(Clamp(PixelOffset(v, lo, hi, ew), ew), lo, hi, ew) == lo
  {
    var d := hi - lo;
    var t := (v - lo) / d;
    assert t * d == v - lo;
    assert t * ew < 0.0;
  }

  class Slider {
    const width: real
    const knobWidth: real
    const sideMargin: real
    const effectiveWidth: real
    const minValue: real
    const maxValue: real
    const filled: bool
    const fillLeftWidth: real
    const registry: CallbackRegistry

    var currentVal: real
    var dragging: bool
    var dragStartX: Option<real>
    var dragStartVal: real
    var knobLeft: real
    var fillMidWidth: real

    ghost predicate Valid()
      reads this
    {
      Tracked() && KnobPlaced()
    }

    /** The offsets stay on the track and a drag has a start point exactly while it lasts. */
    ghost predicate Tracked()
      reads this
    {
      && sideMargin == knobWidth / 4.0
      && effectiveWidth == width - 2.0 * sideMargin
      && effectiveWidth != 0.0 && maxValue != minValue
      && OnTrack(currentVal, effectiveWidth)
      && OnTrack(dragStartVal, effectiveWidth)
      && (dragging <==> dragStartX.Some?)
    }

    /** `_update_knob`'s geometry: the knob's left edge sits `knobWidth / 4` left of the offset. */
    ghost predicate KnobPlaced()
      reads this
    {
      && knobLeft == currentVal - knobWidth / 2.0 + sideMargin
      && (filled ==> fillMidWidth == currentVal - fillLeftWidth + sideMargin)
    }

    /** `get_value`: the value the current offset stands for. */
    function GetValue(): (v: real)
      reads this
      requires Valid()
      ensures effectiveWidth > 0.0 ==> Between(v, minValue, maxValue)
    {
      var v := ValueAt(currentVal, minValue, maxValue, effectiveWidth);
      if effectiveWidth > 0.0 then
        ValueAtBetween(currentVal, minValue, maxValue, effectiveWidth);
        v
      else
        v
    }

    /**
     * The constructor. `set_value` divides by `max_value - min_value` and
     * `get_value` by `effectiveWidth`, so both must be non-zero. Its call to
     * `set_value` notifies nobody: the registry is still empty.
     */
    constructor (width: real, knobWidth: real, fillLeftWidth: real, filled: bool,
                 minValue: real, maxValue: real, value: Option<real>)
      requires maxValue != minValue && width - knobWidth / 2.0 != 0.0
      ensures Valid() && fresh(registry) && registry.Valid() && registry.callbacks == []
      ensures this.width == width && this.knobWidth == knobWidth && this.fillLeftWidth == fillLeftWidth
      ensures this.filled == filled && this.minValue == minValue && this.maxValue == maxValue
      ensures !dragging && dragStartVal == 0.0
      ensures var start := if value.Some? then value.value else (minValue + maxValue) / 2.0;
              currentVal == Clamp(PixelOffset(start, minValue, maxValue, effectiveWidth), effectiveWidth)
    {
      var margin := knobWidth / 4.0;
      var ew := width - 2.0 * margin;
      var start := if value.Some? then value.value else (minValue + maxValue) / 2.0;
      var pixels := Clamp(PixelOffset(start, minValue, maxValue, ew), ew);
      this.width := width;
      this.knobWidth := knobWidth;
      this.fillLeftWidth := fillLeftWidth;
      this.filled := filled;
      this.minValue := minValue;
      this.maxValue := maxValue;
      sideMargin := margin;
      effectiveWidth := ew;
      registry := new CallbackRegistry();
      dragStartX := None;
      dragging := false;
      dragStartVal := 0.0;
      currentVal := pixels;
      knobLeft := pixels - knobWidth / 2.0 + margin;
      fillMidWidth := if filled then pixels - fillLeftWidth + margin else 0.0;
    }

    /** `_update_knob`: places the knob, and the fill when there is one, at the current offset. */
    method UpdateKnob()
      modifies this
      ensures KnobPlaced()
      ensures currentVal == old(currentVal) && dragging == old(dragging)
      ensures dragStartX == old(dragStartX) && dragStartVal == old(dragStartVal)
      ensures !filled ==> fillMidWidth == old(fillMidWidth)
    {
      knobLeft := currentVal - knobWidth / 2.0 + sideMargin;
      if filled {
        fillMidWidth := currentVal - fillLeftWidth + sideMargin;
      }
    }

    /** `_set_current_val`: clamps onto the track and notifies every observer once with the new value. */
    method SetCurrentVal(pixels: real, log: NotificationLog)
      requires Valid()
      modifies this, log
      ensures Valid() && currentVal == Clamp(pixels, effectiveWidth)
      ensures dragging == old(dragging) && dragStartX == old(dragStartX) && dragStartVal == old(dragStartVal)
      ensures log.entries == old(log.entries) + Broadcast(registry.callbacks, this, Number(GetValue()))
    {
      currentVal := Clamp(pixels, effectiveWidth);
      registry.Trigger(log, this, Number(ValueAt(currentVal, minValue, maxValue, effectiveWidth)));
      UpdateKnob();
    }

    /** `set_value`: moves the knob to the offset of `value`; reading it back gives `value` when it is in range. */
    method SetValue(value: real, log: NotificationLog)
      requires Valid()
      modifies this, log
      ensures Valid() && currentVal == Clamp(PixelOffset(value, minValue, maxValue, effectiveWidth), effectiveWidth)
      ensures dragging == old(dragging) && dragStartX == old(dragStartX) && dragStartVal == old(dragStartVal)
      ensures log.entries == old(log.entries) + Broadcast(registry.callbacks, this, Number(GetValue()))
      ensures effectiveWidth > 0.0 && Between(value, minValue, maxValue) ==> GetValue() == value
    {
      var scaled := PixelOffset(value, minValue, maxValue, effectiveWidth);
      SetCurrentVal(scaled, log);
      if effectiveWidth > 0.0 && Between(value, minValue, maxValue) {
        SetThenGet(value, minValue, maxValue, effectiveWidth);
      }
    }

    /** `_start_drag`: starts a drag at mouse position `x` unless one is under way. */
    method StartDrag(x: real)
      requires Valid()
      modifies this
      ensures Valid() && dragging && currentVal == old(currentVal) && knobLeft == old(knobLeft)
      ensures old(dragging) ==> dragStartX == old(dragStartX) && dragStartVal == old(dragStartVal)
      ensures !old(dragging) ==> dragStartX == Some(x) && dragStartVal == currentVal
      ensures fillMidWidth == old(fillMidWidth)
    {
      if !dragging {
        dragStartX := Some(x);
        dragging := true;
        dragStartVal := currentVal;
      }
    }

    /** `_update_drag`: while dragging, follows the mouse from where the drag started; otherwise does nothing. */
    method UpdateDrag(x: real, log: NotificationLog)
      requires Valid()
      modifies this, log
      ensures Valid()
      ensures !old(dragging) ==> unchanged(this) && log.entries == old(log.entries)
      ensures old(dragging) ==>
        && currentVal == Clamp(old(dragStartVal) + (x - old(dragStartX).value), effectiveWidth)
        && dragging && dragStartX == old(dragStartX) && dragStartVal == old(dragStartVal)
        && log.entries == old(log.entries) + Broadcast(registry.callbacks, this, Number(GetValue()))
    {
      if dragging {
        var dragOffset := x - dragStartX.value;
        var finalValue := dragStartVal + dragOffset;
        SetCurrentVal(finalValue, log);
      }
    }

    /** `_stop_drag` (on mouse-up and blur): ends the drag; the drag-start offset becomes the current one. */
    method StopDrag()
      requires Tracked()
      modifies this
      ensures Tracked() && (old(KnobPlaced()) ==> KnobPlaced()) && !dragging && dragStartX == None && dragStartVal == currentVal
      ensures currentVal == old(currentVal) && knobLeft == old(knobLeft) && fillMidWidth == old(fillMidWidth)
    {
      dragStartX := None;
      dragging := false;
      dragStartVal := currentVal;
    }

    /**
     * `_on_keydown` (and key repeat): the arrows nudge the offset by 2 pixels
     * and notify; escape puts back the drag-start offset by direct assignment,
     * and so notifies nobody.
     */
    method OnKeyDown(key: string, log: NotificationLog)
      requires Valid()
      modifies this, log
      ensures Valid()
      ensures key == "arrow_right" ==>
        && currentVal == Clamp(old(currentVal) + 2.0, effectiveWidth)
        && dragging == old(dragging) && dragStartX == old(dragStartX) && dragStartVal == old(dragStartVal)
        && log.entries == old(log.entries) + Broadcast(registry.callbacks, this, Number(GetValue()))
      ensures key == "arrow_left" ==>
        && currentVal == Clamp(old(currentVal) - 2.0, effectiveWidth)
        && dragging == old(dragging) && dragStartX == old(dragStartX) && dragStartVal == old(dragStartVal)
        && log.entries == old(log.entries) + Broadcast(registry.callbacks, this, Number(GetValue()))
      ensures key == "escape" ==>
        && currentVal == old(dragStartVal) && dragStartVal == old(dragStartVal)
        && !dragging && dragStartX == None
        && log.entries == old(log.entries)
      ensures key !in {"arrow_right", "arrow_left", "escape"} ==> unchanged(this) && log.entries == old(log.entries)
    {
      if key == "arrow_right" {
        SetCurrentVal(currentVal + 2.0, log);
      } else if key == "arrow_left" {
        SetCurrentVal(currentVal - 2.0, log);
      } else if key == "escape" {
        currentVal := dragStartVal;
        StopDrag();
        UpdateKnob();
      }
    }
  }
}
