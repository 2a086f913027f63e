/**
 The crop, scale and pad arithmetic that fits an image into a square canvas, over exact
 rationals, with the round-half-even rule of the source's `round`.
 */
module ImageTransform {
  /** One axis: what is cut, kept, scaled and padded. */
  datatype Axis = Axis(cropBefore: int, cropped: int, cropAfter: int, padBefore: int, resized: int, padAfter: int)

  datatype Plan = Plan(x: Axis, y: Axis, scale: real, outputSize: nat)

  datatype TransformError = BadSize | BadCanvas | BadThreshold | DivisionByZero | Oversized

  datatype Outcome = Planned(plan: Plan) | Raised(error: TransformError)

  function RoundHalfEven(x: real): int {
    var down := x.Floor;
    var rest := x - down as real;
    if rest < 0.5 then down
    else if rest > 0.5 then down + 1
    else if down % 2 == 0 then down
    else down + 1
  }

  function Max(a: int, b: int): int {
    if a >= b then a else b
  }

  function Min(a: int, b: int): int {
    if a <= b then a else b
  }

  predicate OverThreshold(long: int, short: int, threshold: real)
    requires short > 0
  {
    long as real / short as real > threshold
  }

  /** The long side an over-long image is cut to. */
  function Target(short: int, threshold: real): int {
    RoundHalfEven(short as real * threshold)
  }

  /** The pixels to keep on each axis; the rest is the excess to cut. */
  function Kept(width: int, height: int, threshold: real): (int, int)
    requires width > 0 && height > 0
  {
    if !OverThreshold(Max(width, height), Min(width, height), threshold) then (width, height)
    else if width > height then (Target(height, threshold), height)
    else (width, Target(width, threshold))
  }

  function ScaleOf(canvas: int, long: int): real
    requires long != 0
  {
    canvas as real / long as real
  }

  /** The length of a kept side on the canvas, before rounding. */
  function Scaled(kept: int, scale: real): real {
    kept as real * scale
  }

  /** `exact` is the length of the kept side on the canvas before rounding. */
  function Resized(exact: real): int {
    Max(1, RoundHalfEven(exact))
  }

  /** The excess is cut half on each side; so are the pads, negative when the side does not fit. */
  function PlanAxis(side: int, kept: int, exact: real, canvas: int): Axis {
    var excess := side - kept;
    var resized := Resized(exact);
    var pad := canvas - resized;
    Axis(excess / 2, kept, excess - excess / 2, pad / 2, resized, pad - pad / 2)
  }

  function ComputeTransform(width: int, height: int, canvas: int, threshold: real): Outcome {
    if width <= 0 || height <= 0 then Raised(BadSize)
    else if canvas <= 0 then Raised(BadCanvas)
    else if threshold < 1.0 then Raised(BadThreshold)
    else
      var (keptX, keptY) := Kept(width, height, threshold);
      var long := Max(keptX, keptY);
      if long == 0 then Raised(DivisionByZero)
      else
        var scale := ScaleOf(canvas, long);
        Assemble(PlanAxis(width, keptX, Scaled(keptX, scale), canvas),
                 PlanAxis(height, keptY, Scaled(keptY, scale), canvas), scale, canvas)
  }

  function Assemble(x: Axis, y: Axis, scale: real, canvas: nat): Outcome {
    if canvas - x.resized < 0 || canvas - y.resized < 0 then Raised(Oversized)
    else Planned(Plan(x, y, scale, canvas))
  }

  function ToCanvas(t: real, a: Axis, scale: real): real {
    (t - a.cropBefore as real) * scale + a.padBefore as real
  }

  function FromCanvas(t: real, a: Axis, scale: real): real
    requires scale != 0.0
  {
    (t - a.padBefore as real) / scale + a.cropBefore as real
  }

  function OriginalToStandardized(x: real, y: real, plan: Plan): (real, real) {
    (ToCanvas(x, plan.x, plan.scale), ToCanvas(y, plan.y, plan.scale))
  }

  function StandardizedToOriginal(x: real, y: real, plan: Plan): (real, real)
    requires plan.scale != 0.0
  {
    (FromCanvas(x, plan.x, plan.scale), FromCanvas(y, plan.y, plan.scale))
  }

  // ----- arithmetic -----

  /** The nearest integer, and of two equally near ones the even one. */
  lemma RoundIsNear(x: real)
    ensures -0.5 <= RoundHalfEven(x) as real - x <= 0.5
    ensures RoundHalfEven(x) as real - x in {-0.5, 0.5} ==> RoundHalfEven(x) % 2 == 0
  {
  }

  lemma RoundKeepsOrder(x: real, n: int)
    ensures x <= n as real ==> RoundHalfEven(x) <= n
    ensures x >= n as real ==> RoundHalfEven(x) >= n
  {
  }

  lemma MulOrder(a: real, b: real, k: real)
    requires a <= b && k >= 0.0
    ensures a * k <= b * k
  {
  }

  lemma AtLeast(a: real, k: real, product: real)
    requires a >= 0.0 && k >= 1.0 && product == a * k
    ensures product >= a
  {
    MulOrder(0.0, k - 1.0, a);
    assert product == a + (k - 1.0) * a;
  }

  lemma AtMost(a: real, b: real, k: real, product: real, whole: real)
    requires a <= b && k >= 0.0 && product == a * k && whole == b * k
    ensures product <= whole
  {
    MulOrder(a, b, k);
  }

  lemma MulStrict(a: real, b: real, k: real)
    requires a < b && k > 0.0
    ensures a * k < b * k
  {
  }

  lemma QuotientTimes(a: real, b: real)
    requires b > 0.0
    ensures (a / b) * b == a
    ensures a > 0.0 ==> a / b > 0.0
  {
  }

  lemma ThereAndBack(a: real, k: real)
    requires k != 0.0
    ensures (a * k) / k == a && (a / k) * k == a
  {
  }

  // ----- cropping -----

  lemma ThresholdAsProduct(long: int, short: int, threshold: real)
    requires short > 0
    ensures OverThreshold(long, short, threshold) <==> short as real * threshold < long as real
  {
    var quotient := long as real / short as real;
    QuotientTimes(long as real, short as real);
    if quotient > threshold {
      MulStrict(threshold, quotient, short as real);
    } else {
      MulOrder(quotient, threshold, short as real);
    }
  }

  /** The long side is cut to the rounded threshold, never below the short side. */
  lemma TargetFits(long: int, short: int, threshold: real)
    requires 1 <= short <= long && threshold >= 1.0 && OverThreshold(long, short, threshold)
    ensures short <= Target(short, threshold) <= long && short < long
    ensures -0.5 <= Target(short, threshold) as real - short as real * threshold <= 0.5
  {
    ThresholdAsProduct(long, short, threshold);
    var exact := short as real * threshold;
    AtLeast(short as real, threshold, exact);
    RoundKeepsOrder(exact, short);
    RoundKeepsOrder(exact, long);
    RoundIsNear(exact);
  }

  /** The cut leaves both sides positive and keeps the short side whole. */
  lemma KeptFits(width: int, height: int, threshold: real)
    requires width > 0 && height > 0 && threshold >= 1.0
    ensures var (keptX, keptY) := Kept(width, height, threshold);
            1 <= keptX <= width && 1 <= keptY <= height && Min(keptX, keptY) == Min(width, height)
  {
    if OverThreshold(Max(width, height), Min(width, height), threshold) {
      TargetFits(Max(width, height), Min(width, height), threshold);
    }
  }

  /**
   What is kept of the long side is within half a pixel of the threshold, and an image that is
   not over the threshold stays whole.
   */
  lemma CropMeetsThreshold(width: int, height: int, threshold: real)
    requires width > 0 && height > 0 && threshold >= 1.0
    ensures var (keptX, keptY) := Kept(width, height, threshold);
            var long, limit := Max(keptX, keptY), Min(width, height) as real * threshold;
            && long as real <= limit + 0.5
            && (long < Max(width, height) ==> long as real >= limit - 0.5)
            && (Max(width, height) as real <= limit ==> keptX == width && keptY == height)
  {
    ThresholdAsProduct(Max(width, height), Min(width, height), threshold);
    if OverThreshold(Max(width, height), Min(width, height), threshold) {
      TargetFits(Max(width, height), Min(width, height), threshold);
    }
  }

  // ----- one axis -----

  lemma ScaleFacts(canvas: int, long: int)
    requires canvas > 0 && long > 0
    ensures ScaleOf(canvas, long) > 0.0
    ensures long as real * ScaleOf(canvas, long) == canvas as real
  {
    QuotientTimes(canvas as real, long as real);
  }

  /** Parts are not negative, add up to the whole and split the excess evenly. */
  predicate SplitsEvenly(before: int, kept: int, after: int, whole: int) {
    0 <= before <= after <= before + 1 && before + kept + after == whole
  }

  /** `exact` is the unrounded length on the canvas. */
  ghost predicate AxisFits(a: Axis, side: int, long: int, canvas: int, exact: real) {
    && 1 <= a.cropped <= long && 1 <= a.resized <= canvas
    && SplitsEvenly(a.cropBefore, a.cropped, a.cropAfter, side)
    && SplitsEvenly(a.padBefore, a.resized, a.padAfter, canvas)
    && (a.cropped == long ==> a.resized == canvas)
    && 0.0 < exact <= canvas as real && exact <= a.resized as real + 0.5
    && (a.resized > 1 ==> exact >= a.resized as real - 0.5)
  }

  lemma PlanAxisFits(side: int, kept: int, long: int, exact: real, canvas: int)
    requires 1 <= kept <= side && kept <= long && canvas > 0
    requires 0.0 < exact <= canvas as real && (kept == long ==> exact == canvas as real)
    ensures AxisFits(PlanAxis(side, kept, exact, canvas), side, long, canvas, exact)
  {
    RoundIsNear(exact);
    RoundKeepsOrder(exact, canvas);
  }

  lemma ScaledLength(kept: int, long: int, scale: real, canvas: int, exact: real)
    requires 1 <= kept <= long && scale > 0.0 && long as real * scale == canvas as real
    requires exact == Scaled(kept, scale)
    ensures 0.0 < exact <= canvas as real && (kept == long ==> exact == canvas as real)
  {
    AtMost(kept as real, long as real, scale, exact, canvas as real);
    MulStrict(0.0, kept as real, scale);
  }

  /** Any point of the retained stretch lands on the canvas. */
  lemma AxisPointFits(t: real, a: Axis, side: int, long: int, canvas: int, scale: real, exact: real)
    requires scale > 0.0 && exact == Scaled(a.cropped, scale)
    requires AxisFits(a, side, long, canvas, exact)
    requires a.cropBefore as real <= t <= (side - a.cropAfter) as real
    ensures 0.0 <= ToCanvas(t, a, scale) <= canvas as real
  {
    hide AxisFits;
    var moved := ToCanvas(t, a, scale) - a.padBefore as real;
    MovedBetween(t - a.cropBefore as real, side, a, long, canvas, scale, moved, exact);
    PadsLeaveRoom(a, side, long, canvas, exact, moved);
  }

  lemma MovedBetween(
    offset: real, side: int, a: Axis, long: int, canvas: int, scale: real, moved: real, exact: real)
    requires AxisFits(a, side, long, canvas, exact) && scale > 0.0
    requires 0.0 <= offset <= (side - a.cropAfter - a.cropBefore) as real
    requires moved == offset * scale && exact == Scaled(a.cropped, scale)
    ensures 0.0 <= moved <= exact
  {
    AtMost(offset, a.cropped as real, scale, moved, exact);
    AtMost(0.0, offset, scale, 0.0, moved);
  }

  lemma PadsLeaveRoom(a: Axis, side: int, long: int, canvas: int, exact: real, moved: real)
    requires AxisFits(a, side, long, canvas, exact) && 0.0 <= moved <= exact
    ensures 0.0 <= moved + a.padBefore as real <= canvas as real
  {
    assert a.padAfter >= 1 || a.padBefore == 0;
  }

  // ----- the plan -----

  ghost predicate PlanFor(p: Plan, width: int, height: int, canvas: int, exactX: real, exactY: real) {
    var long := Max(p.x.cropped, p.y.cropped);
    && p.outputSize == canvas && p.scale > 0.0
    && AxisFits(p.x, width, long, canvas, exactX)
    && AxisFits(p.y, height, long, canvas, exactY)
  }

  /**
   For all positive sizes and every threshold of at least one, a plan exists: parts are not
   negative, sum exactly and split within one, each side is rounded from its exact length,
   and the longer side fills the canvas.
   */
  lemma PlanFits(width: int, height: int, canvas: int, threshold: real) returns (exactX: real, exactY: real)
    requires width > 0 && height > 0 && canvas > 0 && threshold >= 1.0
    ensures var o := ComputeTransform(width, height, canvas, threshold);
            && o.Planned? && PlanFor(o.plan, width, height, canvas, exactX, exactY)
            && (o.plan.x.cropped, o.plan.y.cropped) == Kept(width, height, threshold)
            && exactX == Scaled(o.plan.x.cropped, o.plan.scale)
            && exactY == Scaled(o.plan.y.cropped, o.plan.scale)
  {
    hide Scaled, Kept, RoundHalfEven, ToCanvas;
    KeptFits(width, height, threshold);
    var (keptX, keptY) := Kept(width, height, threshold);
    var long := Max(keptX, keptY);
    var scale := ScaleOf(canvas, long);
    ScaleFacts(canvas, long);
    exactX, exactY := Scaled(keptX, scale), Scaled(keptY, scale);
    ScaledLength(keptX, long, scale, canvas, exactX);
    ScaledLength(keptY, long, scale, canvas, exactY);
    PlanAxisFits(width, keptX, long, exactX, canvas);
    PlanAxisFits(height, keptY, long, exactY, canvas);
  }

  /** Exactly the invalid arguments fail: the oversize and zero-division errors cannot happen. */
  lemma FailsOnlyOnBadArguments(width: int, height: int, canvas: int, threshold: real)
    ensures var o := ComputeTransform(width, height, canvas, threshold);
            && (o.Planned? <==> width > 0 && height > 0 && canvas > 0 && threshold >= 1.0)
            && (o.Raised? ==> o.error in {BadSize, BadCanvas, BadThreshold})
  {
    if width > 0 && height > 0 && canvas > 0 && threshold >= 1.0 {
      var _, _ := PlanFits(width, height, canvas, threshold);
    }
  }

  /** Every point of the retained box maps onto the canvas. */
  lemma RetainedPointsStayInside(width: int, height: int, canvas: int, threshold: real, x: real, y: real)
    requires ComputeTransform(width, height, canvas, threshold).Planned?
    requires var p := ComputeTransform(width, height, canvas, threshold).plan;
             && p.x.cropBefore as real <= x <= (width - p.x.cropAfter) as real
             && p.y.cropBefore as real <= y <= (height - p.y.cropAfter) as real
    ensures var (u, v) := OriginalToStandardized(x, y, ComputeTransform(width, height, canvas, threshold).plan);
            0.0 <= u <= canvas as real && 0.0 <= v <= canvas as real
  {
    hide Scaled, Kept, ComputeTransform, RoundHalfEven, ToCanvas;
    FailsOnlyOnBadArguments(width, height, canvas, threshold);
    var exactX, exactY := PlanFits(width, height, canvas, threshold);
    var p := ComputeTransform(width, height, canvas, threshold).plan;
    var long := Max(p.x.cropped, p.y.cropped);
    AxisPointFits(x, p.x, width, long, canvas, p.scale, exactX);
    AxisPointFits(y, p.y, height, long, canvas, p.scale, exactY);
  }

  /** On one axis the kept part is mapped to where the resized image lies, up to half a pixel. */
  lemma BoxMapsToImage(width: int, height: int, canvas: int, threshold: real)
    requires ComputeTransform(width, height, canvas, threshold).Planned?
    ensures var p := ComputeTransform(width, height, canvas, threshold).plan;
      BoxFits(p.x, width, p.scale) && BoxFits(p.y, height, p.scale)
  {
    hide Kept, ComputeTransform, RoundHalfEven;
    FailsOnlyOnBadArguments(width, height, canvas, threshold);
    var exactX, exactY := PlanFits(width, height, canvas, threshold);
    var p := ComputeTransform(width, height, canvas, threshold).plan;
    AxisBoxFits(p.x, width, Max(p.x.cropped, p.y.cropped), canvas, p.scale, exactX);
    AxisBoxFits(p.y, height, Max(p.x.cropped, p.y.cropped), canvas, p.scale, exactY);
  }

  /** The left edge of the kept part lands on the left pad, its right edge next to the right one. */
  predicate BoxFits(a: Axis, side: int, scale: real) {
    var end := ToCanvas((side - a.cropAfter) as real, a, scale) - (a.padBefore + a.resized) as real;
    && ToCanvas(a.cropBefore as real, a, scale) == a.padBefore as real
    && end <= 0.5 && (a.resized > 1 ==> end >= -0.5)
  }

  lemma AxisBoxFits(a: Axis, side: int, long: int, canvas: int, scale: real, exact: real)
    requires AxisFits(a, side, long, canvas, exact) && exact == Scaled(a.cropped, scale)
    ensures BoxFits(a, side, scale)
  {
    assert side - a.cropAfter - a.cropBefore == a.cropped;
    assert (side - a.cropAfter) as real - a.cropBefore as real == a.cropped as real;
  }

  lemma AxisMapsAreInverse(t: real, a: Axis, scale: real)
    requires scale > 0.0
    ensures FromCanvas(ToCanvas(t, a, scale), a, scale) == t
    ensures ToCanvas(FromCanvas(t, a, scale), a, scale) == t
  {
    ThereAndBack(t - a.cropBefore as real, scale);
    ThereAndBack(t - a.padBefore as real, scale);
  }

  /** The two coordinate maps of every plan undo each other. */
  lemma MapsAreInverse(width: int, height: int, canvas: int, threshold: real, x: real, y: real)
    requires ComputeTransform(width, height, canvas, threshold).Planned?
    ensures var p := ComputeTransform(width, height, canvas, threshold).plan;
      && p.scale > 0.0
      && (var (u, v) := OriginalToStandardized(x, y, p); StandardizedToOriginal(u, v, p) == (x, y))
      && (var (u, v) := StandardizedToOriginal(x, y, p); OriginalToStandardized(u, v, p) == (x, y))
  {
    FailsOnlyOnBadArguments(width, height, canvas, threshold);
    var _, _ := PlanFits(width, height, canvas, threshold);
    var p := ComputeTransform(width, height, canvas, threshold).plan;
    AxisMapsAreInverse(x, p.x, p.scale);
    AxisMapsAreInverse(y, p.y, p.scale);
  }
}
