/** The size calculator: from the 33 pose landmarks and the customer's height it estimates
    shoulder, chest, waist and hip, picks a size by the largest of chest, waist and hip,
    classifies the body by the shoulder-to-hip ratio and widens the size to a range when
    the pose's visibility is low.

    Arithmetic is on `real`: floating-point rounding is not modelled, and the square root is
    a parameter (nothing below depends on what it returns, since every estimate is clamped). */
module SizeCalculator {
  import opened Prelude
  import opened SizeRecModels

  /** The largest chest-waist-hip reference each size but the largest admits, in size order. */
  const SIZE_THRESHOLDS: seq<(Size, real)> := [(XS, 84.0), (S, 92.0), (M, 100.0), (L, 108.0), (XL, 116.0)]

  const LEFT_SHOULDER: nat := 11
  const RIGHT_SHOULDER: nat := 12
  const LEFT_HIP: nat := 23
  const RIGHT_HIP: nat := 24

  /** The smallest vertical extent the body is taken to have, in landmark units. */
  const MIN_BODY_HEIGHT_UNITS: real := 0.25
  /** From this confidence on, the range is the recommended size alone. */
  const DEFINITE_CONFIDENCE: real := 0.8

  /** A pose landmark; `visibility` may be missing, and then counts as 1. */
  datatype Landmark = Landmark(x: real, y: real, z: real, visibility: Option<real>)

  function RMax(a: real, b: real): real {
    if a >= b then a else b
  }

  function RMin(a: real, b: real): real {
    if a <= b then a else b
  }

  /** `_clamp`: `value` moved into `[lo, hi]`. */
  function Clamp(value: real, lo: real, hi: real): (r: real)
    ensures lo <= hi ==> lo <= r <= hi
    ensures lo <= value <= hi ==> r == value
    ensures lo <= hi && value < lo ==> r == lo
    ensures lo <= hi && value > hi ==> r == hi
  {
    RMax(lo, RMin(hi, value))
  }

  /** Clamping keeps the order of values. */
  lemma ClampMonotone(v1: real, v2: real, lo: real, hi: real)
    requires lo <= hi && v1 <= v2
    ensures Clamp(v1, lo, hi) <= Clamp(v2, lo, hi)
  {
  }

  /** Size `s` admits a chest-waist-hip reference; the largest size admits any. */
  predicate Admits(s: Size, reference: real) {
    s == XXL || reference <= SIZE_THRESHOLDS[SizeIndex(s)].1
  }

  /** The first size of the table, from the `i`-th on, that admits `reference`. */
  function FirstFit(reference: real, i: nat): Size
    requires i <= |SIZE_THRESHOLDS|
    decreases |SIZE_THRESHOLDS| - i
  {
    if i == |SIZE_THRESHOLDS| then XXL
    else if reference <= SIZE_THRESHOLDS[i].1 then SIZE_THRESHOLDS[i].0
    else FirstFit(reference, i + 1)
  }

  /** `max(chest, waist, hip)`. */
  function Reference(chest: real, waist: real, hip: real): (r: real)
    ensures r >= chest && r >= waist && r >= hip
    ensures r == chest || r == waist || r == hip
  {
    RMax(RMax(chest, waist), hip)
  }

  /** `_choose_size`: the smallest size that admits the largest of chest, waist and hip. */
  function ChooseSize(chest: real, waist: real, hip: real): (s: Size)
    ensures Admits(s, Reference(chest, waist, hip))
    ensures forall t :: SizeIndex(t) < SizeIndex(s) ==> !Admits(t, Reference(chest, waist, hip))
  {
    FirstFitFrom(Reference(chest, waist, hip), 0);
    FirstFit(Reference(chest, waist, hip), 0)
  }

  lemma {:induction false} FirstFitFrom(reference: real, i: nat)
    requires i <= |SIZE_THRESHOLDS|
    requires forall t :: SizeIndex(t) < i ==> !Admits(t, reference)
    ensures Admits(FirstFit(reference, i), reference)
    ensures SizeIndex(FirstFit(reference, i)) >= i
    ensures forall t :: SizeIndex(t) < SizeIndex(FirstFit(reference, i)) ==> !Admits(t, reference)
    decreases |SIZE_THRESHOLDS| - i
  {
    if i < |SIZE_THRESHOLDS| {
      assert SIZE_THRESHOLDS[i].0 == SIZE_ORDER[i];
      if reference > SIZE_THRESHOLDS[i].1 {
        assert !Admits(SIZE_ORDER[i], reference);
        FirstFitFrom(reference, i + 1);
      }
    }
  }

  /** A larger reference never gets a smaller size. */
  lemma ChooseSizeMonotone(r1: real, r2: real)
    requires r1 <= r2
    ensures SizeIndex(FirstFit(r1, 0)) <= SizeIndex(FirstFit(r2, 0))
  {
    FirstFitFrom(r1, 0);
    FirstFitFrom(r2, 0);
    var s1, s2 := FirstFit(r1, 0), FirstFit(r2, 0);
    assert Admits(s2, r1);
    assert !(SizeIndex(s2) < SizeIndex(s1));
  }

  /** `_body_type`, in centimetres: with `d` the hip width floored at 1, broad when the
      shoulders exceed 1.12 d, athletic above 1.03 d, slim below 0.93 d, else average. */
  function BodyTypeOf(shoulderCm: real, hipCm: real): (b: BodyType)
    ensures var d := RMax(hipCm, 1.0);
            && (b == Broad <==> shoulderCm > 1.12 * d)
            && (b == Athletic <==> 1.03 * d < shoulderCm <= 1.12 * d)
            && (b == Slim <==> shoulderCm < 0.93 * d)
            && (b == Average <==> 0.93 * d <= shoulderCm <= 1.03 * d)
  {
    var d := RMax(hipCm, 1.0);
    var ratio := shoulderCm / d;
    DivCompare(shoulderCm, d, 1.12);
    DivCompare(shoulderCm, d, 1.03);
    DivCompare(shoulderCm, d, 0.93);
    BodyTypeBands(ratio, ratio);
    TypeOfRatio(ratio)
  }

  function TypeOfRatio(ratio: real): BodyType {
    if ratio > 1.12 then Broad
    else if ratio > 1.03 then Athletic
    else if ratio < 0.93 then Slim
    else Average
  }

  /** Comparing a quotient with a constant is comparing the dividend with the constant times
      the (positive) divisor. */
  lemma DivCompare(x: real, d: real, c: real)
    requires d > 0.0
    ensures x / d > c <==> x > c * d
    ensures x / d < c <==> x < c * d
  {
    assert x == (x / d) * d;
    if x / d > c {
      assert (x / d) * d > c * d;
    }
    if x > c * d {
      assert (x / d) * d > c * d;
    }
    if x / d < c {
      assert (x / d) * d < c * d;
    }
    if x < c * d {
      assert (x / d) * d < c * d;
    }
  }

  /** The body types from narrowest to broadest shoulders relative to hips. */
  function BodyTypeRank(b: BodyType): nat {
    match b
    case Slim => 0
    case Average => 1
    case Athletic => 2
    case Broad => 3
  }

  /** The ratio bands: broad above 1.12, athletic in (1.03, 1.12], average in [0.93, 1.03],
      slim below 0.93; and broader shoulders never give a narrower type. */
  lemma BodyTypeBands(ratio: real, other: real)
    ensures TypeOfRatio(ratio) == Broad <==> ratio > 1.12
    ensures TypeOfRatio(ratio) == Athletic <==> 1.03 < ratio <= 1.12
    ensures TypeOfRatio(ratio) == Average <==> 0.93 <= ratio <= 1.03
    ensures TypeOfRatio(ratio) == Slim <==> ratio < 0.93
    ensures ratio <= other ==> BodyTypeRank(TypeOfRatio(ratio)) <= BodyTypeRank(TypeOfRatio(other))
  {
  }

  /** `_size_range`: a confident range is the size alone; otherwise it spans the size's
      neighbours, clipped at the smallest and largest size, so it holds two or three sizes. */
  function SizeRangeFor(size: Size, confidence: real): (r: SizeRange)
    ensures SizeIndex(r.lower) <= SizeIndex(size) <= SizeIndex(r.upper)
    ensures confidence >= DEFINITE_CONFIDENCE ==> r.lower == size && r.upper == size
    ensures confidence < DEFINITE_CONFIDENCE ==>
              && r.lower != r.upper
              && SizeIndex(size) - SizeIndex(r.lower) <= 1
              && SizeIndex(r.upper) - SizeIndex(size) <= 1
              && (size != XS ==> SizeIndex(r.lower) == SizeIndex(size) - 1)
              && (size != XXL ==> SizeIndex(r.upper) == SizeIndex(size) + 1)
  {
    assert SizeIndex(SIZE_ORDER[0]) == 0 && SizeIndex(SIZE_ORDER[1]) == 1 && SizeIndex(SIZE_ORDER[2]) == 2;
    assert SizeIndex(SIZE_ORDER[3]) == 3 && SizeIndex(SIZE_ORDER[4]) == 4 && SizeIndex(SIZE_ORDER[5]) == 5;
    var i := SizeIndex(size);
    if confidence >= DEFINITE_CONFIDENCE then SizeRange(size, size)
    else
      SizeRange(SIZE_ORDER[if i >= 1 then i - 1 else 0],
                SIZE_ORDER[if i + 1 <= |SIZE_ORDER| - 1 then i + 1 else |SIZE_ORDER| - 1])
  }

  /** The lowest `y` of the landmarks. */
  function MinY(lms: seq<Landmark>): (m: real)
    requires |lms| > 0
    ensures forall k :: 0 <= k < |lms| ==> m <= lms[k].y
    ensures exists k :: 0 <= k < |lms| && m == lms[k].y
  {
    if |lms| == 1 then lms[0].y
    else
      var rest := MinY(lms[1..]);
      assert forall k :: 1 <= k < |lms| ==> lms[k] == lms[1..][k - 1];
      RMin(lms[0].y, rest)
  }

  function MaxY(lms: seq<Landmark>): (m: real)
    requires |lms| > 0
    ensures forall k :: 0 <= k < |lms| ==> m >= lms[k].y
    ensures exists k :: 0 <= k < |lms| && m == lms[k].y
  {
    if |lms| == 1 then lms[0].y
    else
      var rest := MaxY(lms[1..]);
      assert forall k :: 1 <= k < |lms| ==> lms[k] == lms[1..][k - 1];
      RMax(lms[0].y, rest)
  }

  /** The body's vertical extent in landmark units, never below the minimum, so the scale
      from units to centimetres is defined. */
  function BodyHeightUnits(lms: seq<Landmark>): (u: real)
    requires |lms| > 0
    ensures u >= MIN_BODY_HEIGHT_UNITS && u >= MaxY(lms) - MinY(lms)
    ensures u == MaxY(lms) - MinY(lms) || u == MIN_BODY_HEIGHT_UNITS
  {
    RMax(MaxY(lms) - MinY(lms), MIN_BODY_HEIGHT_UNITS)
  }

  /** The landmarks' visibilities added up, a missing one counting as 1. */
  function SumVisibility(lms: seq<Landmark>): real
    decreases |lms|
  {
    if lms == [] then 0.0 else lms[0].visibility.GetOr(1.0) + SumVisibility(lms[1..])
  }

  /** A square is never negative. */
  lemma Square(v: real)
    ensures v * v >= 0.0
  {
    if v < 0.0 {
      var u := -v;
      assert u * u > 0.0;
      assert v * v == u * u;
    }
  }

  /** The squared Euclidean gap between two landmarks: never negative, and zero for two
      landmarks at the same position. */
  function SquaredGap(a: Landmark, b: Landmark): (g: real)
    ensures g >= 0.0
    ensures a.x == b.x && a.y == b.y && a.z == b.z ==> g == 0.0
  {
    var dx, dy, dz := a.x - b.x, a.y - b.y, a.z - b.z;
    Square(dx);
    Square(dy);
    Square(dz);
    dx * dx + dy * dy + dz * dz
  }

  /** With every visibility in [0, 1], the visibilities add up to between 0 and the number of
      landmarks. */
  lemma {:induction false} SumVisibilityBounds(lms: seq<Landmark>)
    ensures (forall k :: 0 <= k < |lms| ==> 0.0 <= lms[k].visibility.GetOr(1.0) <= 1.0) ==>
              0.0 <= SumVisibility(lms) <= |lms| as real
    decreases |lms|
  {
    if lms != [] {
      assert forall k :: 0 <= k < |lms[1..]| ==> lms[1..][k] == lms[k + 1];
      SumVisibilityBounds(lms[1..]);
    }
  }

  /** `_distance`: the square root of the squared gap between the two landmarks; it is the
      same whichever of them comes first. */
  function Distance(lms: seq<Landmark>, first: nat, second: nat, sqrt: real -> real): (d: real)
    requires first < |lms| && second < |lms|
    ensures d == sqrt(SquaredGap(lms[second], lms[first]))
  {
    var a, b := lms[first], lms[second];
    assert (b.x - a.x) * (b.x - a.x) == (a.x - b.x) * (a.x - b.x);
    assert (b.y - a.y) * (b.y - a.y) == (a.y - b.y) * (a.y - b.y);
    assert (b.z - a.z) * (b.z - a.z) == (a.z - b.z) * (a.z - b.z);
    sqrt(SquaredGap(a, b))
  }

  /** The pose confidence: 0.55 plus 0.35 times the mean visibility, clamped to [0.4, 0.98];
      with every visibility in [0, 1] it lies in [0.55, 0.9]. */
  function Confidence(lms: seq<Landmark>): (c: real)
    requires |lms| > 0
    ensures 0.4 <= c <= 0.98
    ensures (forall k :: 0 <= k < |lms| ==> 0.0 <= lms[k].visibility.GetOr(1.0) <= 1.0) ==> 0.55 <= c <= 0.9
  {
    SumVisibilityBounds(lms);
    var n := |lms| as real;
    DivCompare(SumVisibility(lms), n, 0.0);
    DivCompare(SumVisibility(lms), n, 1.0);
    Clamp(0.55 + 0.35 * (SumVisibility(lms) / (|lms| as real)), 0.4, 0.98)
  }

  /** `calculate_size_recommendation`, before the fields are rounded. The landmark list must
      reach the right hip's index. */
  function CalculateSizeRecommendation(lms: seq<Landmark>, heightCm: real, sqrt: real -> real): (r: EstimateBodyResponse)
    requires |lms| > RIGHT_HIP
    ensures ResponseValid(r)
    ensures 30.0 <= r.measurements.shoulderCm <= 65.0 && 70.0 <= r.measurements.chestCm <= 150.0
    ensures 58.0 <= r.measurements.waistCm <= 140.0 && 70.0 <= r.measurements.hipCm <= 160.0
    ensures 0.4 <= r.confidence <= 0.98
    ensures r.recommendedSize == ChooseSize(r.measurements.chestCm, r.measurements.waistCm, r.measurements.hipCm)
    ensures r.bodyType == BodyTypeOf(r.measurements.shoulderCm, r.measurements.hipCm)
    ensures r.sizeRange == SizeRangeFor(r.recommendedSize, r.confidence)
    ensures r.confidence == Confidence(lms)
  {
    var cmPerUnit := heightCm / BodyHeightUnits(lms);
    var shoulderWidth := Distance(lms, LEFT_SHOULDER, RIGHT_SHOULDER, sqrt) * cmPerUnit;
    var hipWidth := Distance(lms, LEFT_HIP, RIGHT_HIP, sqrt) * cmPerUnit;
    var shoulder := Clamp(shoulderWidth, 30.0, 65.0);
    var chest := Clamp(shoulderWidth * 2.15, 70.0, 150.0);
    var waist := Clamp(hipWidth * 1.55, 58.0, 140.0);
    var hip := Clamp(hipWidth * 1.95, 70.0, 160.0);
    var confidence := Confidence(lms);
    var size := ChooseSize(chest, waist, hip);
    EstimateBodyResponse(size, Measurements(chest, waist, hip, shoulder), confidence,
                         BodyTypeOf(shoulder, hip), SizeRangeFor(size, confidence))
  }

  lemma {:induction false} SumOfConstant(lms: seq<Landmark>, c: real)
    requires forall k :: 0 <= k < |lms| ==> lms[k].visibility.GetOr(1.0) == c
    ensures SumVisibility(lms) == (|lms| as real) * c
    decreases |lms|
  {
    if lms != [] {
      assert forall k :: 0 <= k < |lms[1..]| ==> lms[1..][k] == lms[k + 1];
      SumOfConstant(lms[1..], c);
    }
  }

  /** A pose seen fully (every visibility 1 or missing) gives confidence 0.9 and a range of
      the recommended size alone; a pose not seen at all (every visibility 0) gives 0.55 and
      a range of two or three sizes. */
  lemma ConfidenceOfVisibility(lms: seq<Landmark>, heightCm: real, sqrt: real -> real)
    requires |lms| > RIGHT_HIP
    ensures var r := CalculateSizeRecommendation(lms, heightCm, sqrt);
            (forall k :: 0 <= k < |lms| ==> lms[k].visibility.GetOr(1.0) == 1.0) ==>
              && r.confidence == 0.9
              && r.sizeRange.lower == r.recommendedSize && r.sizeRange.upper == r.recommendedSize
    ensures var r := CalculateSizeRecommendation(lms, heightCm, sqrt);
            (forall k :: 0 <= k < |lms| ==> lms[k].visibility.GetOr(1.0) == 0.0) ==>
              && r.confidence == 0.55
              && r.sizeRange.lower != r.sizeRange.upper
  {
    var r := CalculateSizeRecommendation(lms, heightCm, sqrt);
    if forall k :: 0 <= k < |lms| ==> lms[k].visibility.GetOr(1.0) == 1.0 {
      ConfidenceOfConstant(lms, 1.0);
    }
    if forall k :: 0 <= k < |lms| ==> lms[k].visibility.GetOr(1.0) == 0.0 {
      ConfidenceOfConstant(lms, 0.0);
    }
  }

  /** Landmarks all of visibility `c` in [0, 1] give confidence 0.55 + 0.35 c. */
  lemma ConfidenceOfConstant(lms: seq<Landmark>, c: real)
    requires |lms| > 0 && 0.0 <= c <= 1.0
    requires forall k :: 0 <= k < |lms| ==> lms[k].visibility.GetOr(1.0) == c
    ensures Confidence(lms) == 0.55 + 0.35 * c
  {
    var n := |lms| as real;
    SumOfConstant(lms, c);
    assert SumVisibility(lms) / n == c by {
      assert SumVisibility(lms) == n * c;
    }
  }
}
