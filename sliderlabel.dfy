/**
 * `UISliderWithLabel`: a slider with a numeric label at its right. The
 * label's room is reserved from the width before the slider is built: 7 px
 * per character of the widest formatted bound, and 5 px more.
 */
module SliderLabels {
  import opened Options
  import opened Lists
  import opened Callbacks
  import opened Sliders

  function DigitChar(d: nat): (c: char)
    requires d < 10
    ensures '0' <= c <= '9' && c as int - '0' as int == d
  {
    ('0' as int + d) as char
  }

  /** `str(n)` for a non-negative integer: decimal digits, most significant first, no leading zeros. */
  function Digits(n: nat): (s: string)
    ensures |s| >= 1 && (n > 0 ==> s[0] != '0')
    ensures forall k :: 0 <= k < |s| ==> '0' <= s[k] <= '9'
  {
    if n < 10 then [DigitChar(n)] else Digits(n / 10) + [DigitChar(n % 10)]
  }

  /** The value of a string of decimal digits. */
  function ParseDigits(s: string): nat
    requires forall k :: 0 <= k < |s| ==> '0' <= s[k] <= '9'
  {
    if s == [] then 0 else ParseDigits(s[..|s| - 1]) * 10 + (s[|s| - 1] as int - '0' as int)
  }

  /** Reading the digits back gives the number. */
  lemma {:induction false} ParseDigitsOfDigits(n: nat)
    ensures ParseDigits(Digits(n)) == n
  {
    if n >= 10 {
      ParseDigitsOfDigits(n / 10);
      var s := Digits(n);
      assert s[..|s| - 1] == Digits(n / 10);
    }
  }

  function Pow10(k: nat): (p: nat)
    ensures p >= 1
  {
    if k == 0 then 1 else 10 * Pow10(k - 1)
  }

  /** `str(n)` has `k` characters exactly when `n` lies in `[10^(k-1), 10^k)` (or `n == 0` and `k == 1`). */
  lemma {:induction false} DigitsLength(n: nat)
    ensures n < Pow10(|Digits(n)|)
    ensures n > 0 ==> Pow10(|Digits(n)| - 1) <= n
  {
    if n >= 10 {
      DigitsLength(n / 10);
    }
  }

  /** `str(n)` for any integer: a minus sign before the digits of a negative number. */
  function IntString(n: int): (s: string)
    ensures n >= 0 ==> s == Digits(n)
    ensures n < 0 ==> s == "-" + Digits(-n)
  {
    if n < 0 then "-" + Digits(-n) else Digits(n)
  }

  /** Python's `int(x)` on a float: truncation toward zero. */
  function Trunc(x: real): (t: int)
    ensures x >= 0.0 ==> 0 <= t && t as real <= x < t as real + 1.0
    ensures x < 0.0 ==> t <= 0 && t as real - 1.0 < x <= t as real
  {
    if x >= 0.0 then x.Floor else -((-x).Floor)
  }

  /** `number_space_required`: characters for the longer integer part, plus a point and the decimals. */
  function NumberSpace(minValue: real, maxValue: real, precision: int): (n: nat)
    ensures n >= |IntString(Trunc(maxValue))| && n >= |IntString(Trunc(minValue))|
    ensures precision <= 0 ==> n == Max(|IntString(Trunc(maxValue))|, |IntString(Trunc(minValue))|)
    ensures precision > 0 ==> n == Max(|IntString(Trunc(maxValue))|, |IntString(Trunc(minValue))|) + 1 + precision
  {
    var before := Max(|IntString(Trunc(maxValue))|, |IntString(Trunc(minValue))|);
    if precision > 0 then before + 1 + precision else before
  }

  function Max(a: nat, b: nat): (m: nat)
    ensures m >= a && m >= b && (m == a || m == b)
  {
    if a >= b then a else b
  }

  /** The absolute value of `n`. */
  function Abs(n: int): nat {
    if n < 0 then -n else n
  }

  /** Larger exponents give larger powers of ten. */
  lemma {:induction false} Pow10Monotone(j: nat, k: nat)
    requires j <= k
    ensures Pow10(j) <= Pow10(k)
  {
    if j < k {
      Pow10Monotone(j, k - 1);
    }
  }

  /** `n` can be written in `w` characters: a sign if negative, and at least one digit for `abs(n)`. */
  ghost predicate FitsIn(n: int, w: int) {
    var d := w - (if n < 0 then 1 else 0);
    d >= 1 && Abs(n) < Pow10(d)
  }

  /** `len(str(n))` is the least number of characters `n` fits in. */
  lemma IntStringLeastWidth(n: int, w: int)
    ensures FitsIn(n, w) <==> w >= |IntString(n)|
  {
    var sign := if n < 0 then 1 else 0;
    var d0 := |Digits(Abs(n))|;
    assert |IntString(n)| == sign + d0;
    DigitsLength(Abs(n));
    var d := w - sign;
    if d >= d0 {
      Pow10Monotone(d0, d);
    } else if d >= 1 {
      assert d0 > 1 && Abs(n) > 0;
      Pow10Monotone(d, d0 - 1);
    }
  }

  /**
   * Without the point and the decimals, `number_space_required` is the least
   * width that holds the integer parts of both bounds.
   */
  lemma NumberSpaceLeast(minValue: real, maxValue: real, precision: int, w: int)
    ensures FitsIn(Trunc(minValue), w) && FitsIn(Trunc(maxValue), w)
        <==> w >= NumberSpace(minValue, maxValue, precision) - (if precision > 0 then 1 + precision else 0)
  {
    IntStringLeastWidth(Trunc(minValue), w);
    IntStringLeastWidth(Trunc(maxValue), w);
  }

  /** The width handed to the inner slider: what is left after 7 px per reserved character and 5 px. */
  function TrackWidth(width: real, minValue: real, maxValue: real, precision: int): (r: real)
    ensures width - r == 7.0 * NumberSpace(minValue, maxValue, precision) as real + 5.0
    ensures r <= width - 12.0
    ensures precision > 0 ==> r <= width - 7.0 * (2 + precision) as real - 5.0
  {
    width - 7.0 * NumberSpace(minValue, maxValue, precision) as real - 5.0
  }

  /** The defaults (`width=100`, bounds `0` and `1.0`, two decimals) reserve four characters, leaving 67 px. */
  lemma DefaultTrackWidth()
    ensures NumberSpace(0.0, 1.0, 2) == 4
    ensures TrackWidth(100.0, 0.0, 1.0, 2) == 67.0
  {
    assert IntString(Trunc(1.0)) == Digits(1) == "1";
    assert IntString(Trunc(0.0)) == Digits(0) == "0";
  }

  /** A negative bound costs its sign: `-12.5` with one decimal needs five characters. */
  lemma NegativeBoundNumberSpace()
    ensures NumberSpace(-12.5, 3.0, 1) == 5
  {
    assert Trunc(-12.5) == -12;
    assert Digits(12) == Digits(1) + [DigitChar(2)];
    assert |IntString(-12)| == 3;
    assert IntString(Trunc(3.0)) == Digits(3);
  }

  class SliderWithLabel {
    const precision: int
    const slider: Slider

    /**
     * Builds the inner slider on the reduced width and subscribes the label
     * updater, then the forwarder to this object's own observers.
     */
    constructor (width: real, knobWidth: real, fillLeftWidth: real, filled: bool,
                 minValue: real, maxValue: real, precision: int, value: Option<real>,
                 labelUpdater: ObserverId, forwarder: ObserverId)
      requires maxValue != minValue
      requires TrackWidth(width, minValue, maxValue, precision) - knobWidth / 2.0 != 0.0
      ensures this.precision == precision && fresh(slider) && fresh(slider.registry)
      ensures slider.Valid() && slider.registry.Valid()
      ensures slider.width == TrackWidth(width, minValue, maxValue, precision)
      ensures slider.minValue == minValue && slider.maxValue == maxValue && slider.filled == filled
      ensures slider.registry.callbacks == AppendNew([labelUpdater], forwarder)
    {
      this.precision := precision;
      var s := new Slider(TrackWidth(width, minValue, maxValue, precision), knobWidth, fillLeftWidth, filled,
                          minValue, maxValue, value);
      s.registry.Add(labelUpdater);
      s.registry.Add(forwarder);
      slider := s;
    }
  }
}
