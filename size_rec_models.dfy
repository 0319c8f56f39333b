/** The size-recommendation API's request and response records and the constraints they
    declare. A literal-typed field is a datatype here, so a record can only hold an allowed
    value; `ParseSize` and `ParseBodyType` are the literal checks on the names. */
module SizeRecModels {
  import opened Prelude

  /** The garment sizes, smallest first. */
  datatype Size = XS | S | M | L | XL | XXL

  /** The sizes in `SIZE_ORDER`. */
  const SIZE_ORDER: seq<Size> := [XS, S, M, L, XL, XXL]

  function SizeName(s: Size): string {
    match s
    case XS => "XS"
    case S => "S"
    case M => "M"
    case L => "L"
    case XL => "XL"
    case XXL => "XXL"
  }

  const SIZE_NAMES: set<string> := {"XS", "S", "M", "L", "XL", "XXL"}

  /** The literal check of a size field: only the six names are sizes. */
  function ParseSize(name: string): (r: Option<Size>)
    ensures r.Some? ==> SizeName(r.value) == name
  {
    if name == "XS" then Some(XS)
    else if name == "S" then Some(S)
    else if name == "M" then Some(M)
    else if name == "L" then Some(L)
    else if name == "XL" then Some(XL)
    else if name == "XXL" then Some(XXL)
    else None
  }

  /** A size's position in `SIZE_ORDER`. */
  function SizeIndex(s: Size): (i: nat)
    ensures i < |SIZE_ORDER| && SIZE_ORDER[i] == s
  {
    match s
    case XS => 0
    case S => 1
    case M => 2
    case L => 3
    case XL => 4
    case XXL => 5
  }

  datatype BodyType = Athletic | Slim | Average | Broad

  function BodyTypeName(b: BodyType): string {
    match b
    case Athletic => "athletic"
    case Slim => "slim"
    case Average => "average"
    case Broad => "broad"
  }

  const BODY_TYPE_NAMES: set<string> := {"athletic", "slim", "average", "broad"}

  function ParseBodyType(name: string): (r: Option<BodyType>)
    ensures r.Some? ==> BodyTypeName(r.value) == name
  {
    if name == "athletic" then Some(Athletic)
    else if name == "slim" then Some(Slim)
    else if name == "average" then Some(Average)
    else if name == "broad" then Some(Broad)
    else None
  }

  /** The literal checks accept exactly the declared names, and every value's name. */
  lemma LiteralsAccepted(name: string, s: Size, b: BodyType)
    ensures ParseSize(name).Some? <==> name in SIZE_NAMES
    ensures ParseBodyType(name).Some? <==> name in BODY_TYPE_NAMES
    ensures ParseSize(SizeName(s)) == Some(s) && SizeName(s) in SIZE_NAMES
    ensures ParseBodyType(BodyTypeName(b)) == Some(b) && BodyTypeName(b) in BODY_TYPE_NAMES
  {
    match s
    case XS =>
    case S =>
    case M =>
    case L =>
    case XL =>
    case XXL =>
  }

  /** `EstimateBodyRequest`; the image URL is only passed on. */
  datatype EstimateBodyRequest = EstimateBodyRequest(imageUrl: string, heightCm: real)

  const MIN_HEIGHT_CM: real := 100.0
  const MAX_HEIGHT_CM: real := 250.0

  predicate RequestValid(q: EstimateBodyRequest) {
    MIN_HEIGHT_CM <= q.heightCm <= MAX_HEIGHT_CM
  }

  datatype Measurements = Measurements(chestCm: real, waistCm: real, hipCm: real, shoulderCm: real)

  /** Every measurement is strictly positive. */
  predicate MeasurementsValid(m: Measurements) {
    m.chestCm > 0.0 && m.waistCm > 0.0 && m.hipCm > 0.0 && m.shoulderCm > 0.0
  }

  datatype SizeRange = SizeRange(lower: Size, upper: Size)

  datatype EstimateBodyResponse = EstimateBodyResponse(
    recommendedSize: Size,
    measurements: Measurements,
    confidence: real,
    bodyType: BodyType,
    sizeRange: SizeRange)

  /** The response's declared constraints: positive measurements and a confidence in [0, 1]. */
  predicate ResponseValid(r: EstimateBodyResponse) {
    MeasurementsValid(r.measurements) && 0.0 <= r.confidence <= 1.0
  }
}
