/** The value an `<input type="range">` holds, as the HTML Living Standard's
    range state defines it: a value is clamped to [min, max] (a max below the
    min counts as the min) and then moved to the nearest value min + k·step
    inside that range, the upper one on a tie. The bet forms' sliders submit
    and display this value, not the number they were given. */
module RangeInput {

  /** The range's maximum: the `max` attribute, raised to `min` when it is below it. */
  function EffectiveMax(lo: int, hi: int): (top: int)
    ensures top >= lo && top >= hi
    ensures top == lo || top == hi
  {
    if hi < lo then lo else hi
  }

  /** A value the slider can hold: inside the range and a whole number of steps above `min`. */
  predicate OnSlider(lo: int, hi: int, step: int, v: int)
    requires step > 0
  {
    lo <= v <= EffectiveMax(lo, hi) && (v - lo) % step == 0
  }

  /** The requested value clamped into [min, effective max]. */
  function Clamp(lo: int, hi: int, v: int): (c: int)
    ensures lo <= c <= EffectiveMax(lo, hi)
    ensures lo <= v <= EffectiveMax(lo, hi) ==> c == v
  {
    if v < lo then lo else if v > EffectiveMax(lo, hi) then EffectiveMax(lo, hi) else v
  }

  /** The slider's value after sanitizing the requested value `v`. */
  function Sanitize(lo: int, hi: int, step: int, v: int): (r: int)
    requires step > 0
    ensures OnSlider(lo, hi, step, r)
    ensures OnSlider(lo, hi, step, v) ==> r == v
    ensures forall w :: OnSlider(lo, hi, step, w) ==> Distance(r, Clamp(lo, hi, v)) <= Distance(w, Clamp(lo, hi, v))
  {
    var top, c := EffectiveMax(lo, hi), Clamp(lo, hi, v);
    var k := (c - lo) / step;
    var down := lo + k * step;
    StepGrid(lo, step, k, c);
    forall w | OnSlider(lo, hi, step, w)
      ensures w <= down || w >= down + step
    {
      NoGridPointBetween(lo, step, k, w);
    }
    if down == c then c
    else if down + step <= top && down + step - c <= c - down then down + step
    else down
  }

  function Distance(a: int, b: int): nat {
    if a <= b then b - a else a - b
  }

  /** The grid point at or below `c` is a whole number of steps above `lo`, and
      the next one lies above `c`. */
  lemma StepGrid(lo: int, step: int, k: int, c: int)
    requires step > 0 && c >= lo && k == (c - lo) / step
    ensures k >= 0
    ensures lo + k * step <= c < lo + k * step + step
    ensures (lo + k * step - lo) % step == 0 && (lo + (k + 1) * step - lo) % step == 0
    ensures lo + (k + 1) * step == lo + k * step + step
  {
    assert (k * step) % step == 0 && ((k + 1) * step) % step == 0 by {
      MultipleModZero(k, step);
      MultipleModZero(k + 1, step);
    }
  }

  lemma MultipleModZero(k: int, step: int)
    requires step > 0
    ensures (k * step) % step == 0
  {
    var q, r := (k * step) / step, (k * step) % step;
    assert k * step == q * step + r && 0 <= r < step;
    assert (k - q) * step == r;
    if k - q >= 1 {
      MonotoneTimes(1, k - q, step);
    } else if k - q <= -1 {
      MonotoneTimes(k - q, -1, step);
    }
  }

  /** No value a whole number of steps above `lo` lies strictly between two
      neighbouring grid points. */
  lemma NoGridPointBetween(lo: int, step: int, k: int, w: int)
    requires step > 0 && (w - lo) % step == 0
    ensures w <= lo + k * step || w >= lo + k * step + step
  {
    var a := (w - lo) / step;
    assert w == lo + a * step;
    if a <= k {
      assert a * step <= k * step by { MonotoneTimes(a, k, step); }
    } else {
      assert (k + 1) * step <= a * step by { MonotoneTimes(k + 1, a, step); }
    }
  }

  lemma MonotoneTimes(x: int, y: int, step: int)
    requires x <= y && step > 0
    ensures x * step <= y * step
  {
    assert y * step - x * step == (y - x) * step;
  }
}
