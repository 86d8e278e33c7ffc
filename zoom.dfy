/**
 * The capture screen's per-view zoom rules. A zoom value is held as whole
 * tenths (10 stands for 1.0x, 30 for 3.0x), which is exactly what the
 * one-decimal rounding in the handlers produces, so every step is exact.
 */
module Zoom {
  import Crop

  const MinTenths: int := 10
  const MaxTenths: int := 30

  /** The zoom every view starts at: 1.0x for landscape, 1.4x for portrait. */
  const InitialLandscape: int := 10
  const InitialPortrait: int := 14

  predicate InRange(t: int) { MinTenths <= t <= MaxTenths }

  /** The zoom factor a value in tenths stands for. */
  function ToReal(t: int): real { t as real / 10.0 }

  /** The whole tenths of a zoom factor that lies on the tenths grid. */
  function ToTenths(z: real): int { (z * 10.0).Floor }

  /** Whole tenths clamped to [1.0x, 3.0x]. */
  function InRangeTenths(n: int): int
  {
    if n < MinTenths then MinTenths else if n > MaxTenths then MaxTenths else n
  }

  /** Clamping a tenths value to [1, 3] as a real keeps it on the grid: it is the clamped tenths. */
  lemma ClampOnGrid(n: int)
    ensures ToTenths(Crop.Clamp(ToReal(n), Crop.MinZoom, Crop.MaxZoom)) == InRangeTenths(n)
  {
    var c := InRangeTenths(n);
    assert Crop.Clamp(ToReal(n), Crop.MinZoom, Crop.MaxZoom) == ToReal(c);
    assert ToReal(c) * 10.0 == c as real;
  }

  /**
   * Number(x.toFixed(1)) counted in tenths: the nearest multiple of 0.1,
   * the larger one on a tie.
   */
  function RoundToTenths(x: real): (r: int)
    ensures r as real - 0.5 <= x * 10.0 < r as real + 0.5
  {
    (x * 10.0 + 0.5).Floor
  }

  /** Rounding a whole number of tenths plus d tenths gives exactly t + d. */
  lemma RoundShiftedTenths(t: int, d: int)
    ensures RoundToTenths(ToReal(t) + d as real / 10.0) == t + d
  {
    var x := ToReal(t) + d as real / 10.0;
    assert x * 10.0 == (t + d) as real;
    assert x * 10.0 + 0.5 == (t + d) as real + 0.5;
  }

  /** The wheel moves the zoom down 0.1 for a positive deltaY and up 0.1 otherwise. */
  function WheelDelta(deltaY: real): (d: real)
    ensures d == 0.1 || d == -0.1
    ensures d < 0.0 <==> deltaY > 0.0
  {
    if deltaY > 0.0 then -0.1 else 0.1
  }

  /** One wheel event: step by 0.1, round to one decimal, clamp to [1, 3]. */
  function WheelStep(t: int, deltaY: real): (r: int)
    ensures InRange(r)
  {
    ToTenths(Crop.Clamp(ToReal(RoundToTenths(ToReal(t) + WheelDelta(deltaY))), Crop.MinZoom, Crop.MaxZoom))
  }

  /** One click on the "1.0x" zoom button: step up by 0.1, round, clamp to [1, 3]. */
  function ButtonStep(t: int): (r: int)
    ensures InRange(r)
  {
    ToTenths(Crop.Clamp(ToReal(RoundToTenths(ToReal(t) + 0.1)), Crop.MinZoom, Crop.MaxZoom))
  }

  /** A double click: below 1.2 go to 1.4, below 1.8 go to 2.0, otherwise back to 1.0. */
  function PresetNext(t: int): (r: int)
    ensures r == 10 || r == 14 || r == 20
  {
    if ToReal(t) < 1.2 then 14
    else if ToReal(t) < 1.8 then 20
    else 10
  }

  /**
   * A wheel step is exactly one tenth down (positive deltaY) or up (zero or
   * negative deltaY), clamped to [1.0, 3.0], and so always lands in range.
   */
  lemma WheelStepExact(t: int, deltaY: real)
    ensures WheelStep(t, deltaY) == InRangeTenths(if deltaY > 0.0 then t - 1 else t + 1)
    ensures InRange(WheelStep(t, deltaY))
  {
    if deltaY > 0.0 {
      RoundShiftedTenths(t, -1);
      ClampOnGrid(t - 1);
    } else {
      RoundShiftedTenths(t, 1);
      ClampOnGrid(t + 1);
    }
  }

  /** The zoom button adds exactly one tenth, stopping at 3.0. */
  lemma ButtonStepExact(t: int)
    requires InRange(t)
    ensures ButtonStep(t) == if t < MaxTenths then t + 1 else MaxTenths
    ensures InRange(ButtonStep(t))
  {
    RoundShiftedTenths(t, 1);
    ClampOnGrid(t + 1);
  }

  /** Scrolling in by one notch and back out by one returns to the same zoom below the top. */
  lemma WheelInThenOut(t: int, inY: real, outY: real)
    requires InRange(t) && t < MaxTenths && inY <= 0.0 && outY > 0.0
    ensures WheelStep(WheelStep(t, inY), outY) == t
  {
    WheelStepExact(t, inY);
    WheelStepExact(t + 1, outY);
  }

  /** Scrolling out by one notch and back in by one returns to the same zoom above the bottom. */
  lemma WheelOutThenIn(t: int, outY: real, inY: real)
    requires InRange(t) && MinTenths < t && outY > 0.0 && inY <= 0.0
    ensures WheelStep(WheelStep(t, outY), inY) == t
  {
    WheelStepExact(t, outY);
    WheelStepExact(t - 1, inY);
  }

  /**
   * The preset cycle's thresholds 1.2 and 1.8 fall between tenths 11/12 and
   * 17/18, its result is always one of 1.0, 1.4 and 2.0, and from those three
   * it cycles 1.0 -> 1.4 -> 2.0 -> 1.0.
   */
  lemma PresetCycle(t: int)
    ensures PresetNext(t) == (if t < 12 then 14 else if t < 18 then 20 else 10)
    ensures PresetNext(t) in {10, 14, 20} && InRange(PresetNext(t))
    ensures PresetNext(10) == 14 && PresetNext(14) == 20 && PresetNext(20) == 10
    ensures PresetNext(PresetNext(PresetNext(10))) == 10
  {
    assert ToReal(t) < 1.2 <==> t < 12;
    assert ToReal(t) < 1.8 <==> t < 18;
  }
}
