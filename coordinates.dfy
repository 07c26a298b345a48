/** What both implementations share around the converters: the point they
    produce, the fields a range check can name, the list of range checks run
    in order with the first failure reported, the format chosen from the
    number of tokens, and the reply handed back to the caller. */
module Coordinates {

  /** A point in decimal degrees. */
  datatype Point = Point(lat: real, lng: real)

  /** The field a failed range check names in its message. */
  datatype Label =
    | LatitudeDegrees | LongitudeDegrees
    | LatitudeMinutes | LongitudeMinutes
    | LatitudeSeconds | LongitudeSeconds
    | Zone | Easting | Northing

  /** The text a failed check's message starts with, up to the value it
      observed (the value's own formatting is not modelled). */
  function Caption(l: Label): string {
    match l
    case LatitudeDegrees => "Latitude degrees out of bounds [Expected:-90,90 Value: "
    case LongitudeDegrees => "Longitude degrees out of bounds [Expected:-180,180 Value: "
    case LatitudeMinutes => "Latitude minutes out of bounds [Expected:0,60 Value: "
    case LongitudeMinutes => "Longitude minutes out of bounds [Expected:0,60 Value: "
    case LatitudeSeconds => "Latitude seconds out of bounds [Expected:0,60 Value: "
    case LongitudeSeconds => "Longitude seconds out of bounds [Expected:0,60 Value: "
    case Zone => "Zone out of bounds [Expected:0,60 Value: "
    case Easting => "Easting out of bounds [Expected:100000,999999 Value: "
    case Northing => "Northing out of bounds [Expected:0,10000000 Value: "
  }

  /** What a converter returns: a point, or the one range check that failed
      with the value it saw. */
  datatype Outcome = Ok(pt: Point) | OutOfBounds(field: Label, observed: real)

  /** One range check: the label its message carries, the value it tests and
      whether the value is in range. */
  datatype Check = Check(field: Label, observed: real, passed: bool)

  predicate AllPassed(cs: seq<Check>) {
    forall k :: 0 <= k < |cs| ==> cs[k].passed
  }

  /** The position of the first failed check, or the length of the list when
      every check passes. */
  function FirstFailure(cs: seq<Check>): (k: nat)
    ensures k <= |cs|
    ensures forall j :: 0 <= j < k ==> cs[j].passed
    ensures k < |cs| ==> !cs[k].passed
    ensures k == |cs| <==> AllPassed(cs)
  {
    if cs == [] then 0
    else if !cs[0].passed then 0
    else 1 + FirstFailure(cs[1..])
  }

  /** One step of FirstFailure, taken at position `i`. */
  lemma FirstFailureStep(cs: seq<Check>, i: nat)
    requires i < |cs|
    ensures FirstFailure(cs[i..]) == (if !cs[i].passed then 0 else 1 + FirstFailure(cs[i + 1..]))
  {
  }

  /** The error a list of checks run in order reports: the first one that fails. */
  function Reported(cs: seq<Check>): (r: Outcome)
    requires !AllPassed(cs)
    ensures r.OutOfBounds?
    ensures exists k :: (0 <= k < |cs| && !cs[k].passed && r == OutOfBounds(cs[k].field, cs[k].observed)
                         && forall j :: 0 <= j < k ==> cs[j].passed)
  {
    var k := FirstFailure(cs);
    OutOfBounds(cs[k].field, cs[k].observed)
  }

  /** A value negated when the hemisphere hint says so (`x *= -1`). */
  function Signed(negate: bool, v: real): (r: real)
    ensures v >= 0.0 ==> (r < 0.0 <==> negate && v > 0.0)
    ensures r == v || r == -v
  {
    if negate then -v else v
  }

  /** `Math.sign` in index.js, on the reals. */
  function Sign(x: real): (r: real)
    ensures x > 0.0 ==> r == 1.0
    ensures x < 0.0 ==> r == -1.0
    ensures x == 0.0 ==> r == 0.0
  {
    if x > 0.0 then 1.0 else if x < 0.0 then -1.0 else 0.0
  }

  /** `math.copysign(m, d)` in coparse.py for a non-negative `m`: `m` with the
      sign of `d`, where `d` is a reading negated iff `negated` holds. A
      negated zero is `-0.0`, whose sign is negative; that is why the hint
      flag, not the value of `d`, decides. */
  function CopySign(m: real, negated: bool): (r: real)
    requires m >= 0.0
    ensures r == m || r == -m
    ensures r < 0.0 <==> negated && m > 0.0
  {
    if negated then -m else m
  }

  /** The two degree checks every geographic converter runs first: latitude
      strictly inside ±90, then longitude strictly inside ±180. */
  function DegreeChecks(lat: real, lng: real): seq<Check> {
    [Check(LatitudeDegrees, lat, -90.0 < lat < 90.0), Check(LongitudeDegrees, lng, -180.0 < lng < 180.0)]
  }

  /** The UTM checks, the same in both implementations: the zone in 1..60,
      the easting in [100000, 1000000] and the northing in [0, 10000000],
      ends included. */
  function GridChecks(zone: int, easting: real, northing: real): seq<Check> {
    [ Check(Zone, zone as real, 0 < zone <= 60),
      Check(Easting, easting, 100000.0 <= easting <= 1000000.0),
      Check(Northing, northing, 0.0 <= northing <= 10000000.0) ]
  }

  /** A UTM position as the converters read it: zone number, easting,
      northing and whether the hemisphere is southern. */
  datatype Grid = Grid(zone: int, easting: real, northing: real, south: bool)

  /** The inverse Transverse Mercator series, from a position in the zone's
      own plane to latitude and longitude offset in degrees. Each
      implementation has its own series; it is a parameter of the model. */
  type Series = (real, real) -> Point

  /** The plane a grid position is handed to the series in: the two
      coordinates after the false easting and northing are taken off, and
      the zone's central meridian. */
  datatype Frame = Frame(x: real, y: real, meridian: int)

  /** A coordinate format, guessed from the number of tokens alone. */
  datatype Format = DD | UTM | DM | DMS | Unknown

  /** The number of tokens each format is made of. */
  function Arity(f: Format): nat
    requires !f.Unknown?
  {
    match f
    case DD => 2
    case UTM => 3
    case DM => 4
    case DMS => 6
  }

  /** The classifier: 2 tokens are DD, 3 UTM, 4 DM, 6 DMS and any other
      count is no known format. */
  function Classify(count: nat): (f: Format)
    ensures f.Unknown? <==> count !in {2, 3, 4, 6}
    ensures !f.Unknown? ==> Arity(f) == count
  {
    if count == 2 then DD
    else if count == 3 then UTM
    else if count == 4 then DM
    else if count == 6 then DMS
    else Unknown
  }

  /** Each format is recognised from its own arity. */
  lemma ClassifyArity(f: Format)
    requires !f.Unknown?
    ensures Classify(Arity(f)) == f
  {
  }

  /** The key of the result object a failure message is stored under. */
  datatype Key = ErrorKey | ErrorMsgKey

  /** Why a query was refused. */
  datatype Reason = NoQuery | UnknownFormat | OutOfRange(field: Label, observed: real)

  /** The result object: on success the `result` pair `x`, `y` and the two
      numbers the `display` string shows, in order; on failure the key and
      the message. */
  datatype Reply =
    | Success(x: real, y: real, display: (real, real))
    | Failure(key: Key, reason: Reason)
}
