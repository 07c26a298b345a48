/** The converters of coparse.py: `fromDD`, `fromDM`, `fromDMS` and `fromUTM`
    with the part of `utmToLatLng` that is not the projection series. Each
    reads the value groups of its tokens with `float()`, applies the
    hemisphere hints, runs its range checks in order and returns at the
    first that fails. */
module PyConvert {
  import opened Lexer
  import opened Numbers
  import opened Coordinates

  /** The longitude hint of `fromDD`: prefix in `["w","-"]` or suffix `w`. */
  predicate West(t: Token)
    ensures Shaped(t) ==> (West(t) <==> 'w' in t.prefix + t.suffix || t.prefix == "-")
  {
    HintLetter(t, 'w');
    t.prefix in ["w", "-"] || t.suffix == "w"
  }

  /** The latitude hint of `fromDD`: prefix in `["s","-"]` or suffix `s`. */
  predicate South(t: Token)
    ensures Shaped(t) ==> (South(t) <==> 's' in t.prefix + t.suffix || t.prefix == "-")
  {
    HintLetter(t, 's');
    t.prefix in ["s", "-"] || t.suffix == "s"
  }

  /** The checks of `fromDD`: the second token is the latitude, the first the longitude. */
  function DDChecks(parts: seq<Token>): seq<Check>
    requires |parts| == 2
  {
    DegreeChecks(Signed(South(parts[1]), Value(parts[1])), Signed(West(parts[0]), Value(parts[0])))
  }

  /** `fromDD`: the two readings, signed by their hints, are the point when
      both are in range. */
  function FromDD(parts: seq<Token>): (r: Outcome)
    requires |parts| == 2
    ensures r.Ok? ==> r.pt == Point(Signed(South(parts[1]), Value(parts[1])), Signed(West(parts[0]), Value(parts[0])))
    ensures r.Ok? ==> -90.0 < r.pt.lat < 90.0 && -180.0 < r.pt.lng < 180.0
  {
    var lng := Signed(West(parts[0]), Value(parts[0]));
    var lat := Signed(South(parts[1]), Value(parts[1]));
    if lat >= 90.0 || lat <= -90.0 then OutOfBounds(LatitudeDegrees, lat)
    else if lng >= 180.0 || lng <= -180.0 then OutOfBounds(LongitudeDegrees, lng)
    else Ok(Point(lat, lng))
  }

  /** `fromDD` runs its checks in the order of DDChecks and reports the first that fails. */
  lemma DDChecksOrder(parts: seq<Token>)
    requires |parts| == 2
    ensures FromDD(parts).Ok? <==> AllPassed(DDChecks(parts))
    ensures !FromDD(parts).Ok? ==> FromDD(parts) == Reported(DDChecks(parts))
  {
    var cs := DDChecks(parts);
    assert cs[2..] == [];
    FirstFailureStep(cs, 1);
    FirstFailureStep(cs, 0);
  }

  /** The longitude hint of `fromDM`: on the degrees token, or a `w` suffix on the minutes token. */
  predicate WestDM(parts: seq<Token>)
    requires |parts| == 4
    ensures Shaped(parts[1]) ==> (WestDM(parts) <==> West(parts[0]) || 'w' in parts[1].suffix)
  {
    parts[0].prefix in ["w", "-"] || parts[0].suffix == "w" || parts[1].suffix == "w"
  }

  /** The latitude hint of `fromDM`: on the degrees token, or an `s` suffix on the minutes token. */
  predicate SouthDM(parts: seq<Token>)
    requires |parts| == 4
    ensures Shaped(parts[3]) ==> (SouthDM(parts) <==> South(parts[2]) || 's' in parts[3].suffix)
  {
    parts[2].prefix in ["s", "-"] || parts[2].suffix == "s" || parts[3].suffix == "s"
  }

  /** The checks of `fromDM` in order: latitude degrees, longitude degrees,
      then latitude and longitude minutes, each minutes in (0, 60). */
  function DMChecks(parts: seq<Token>): seq<Check>
    requires |parts| == 4
  {
    DegreeChecks(Signed(SouthDM(parts), Value(parts[2])), Signed(WestDM(parts), Value(parts[0])))
    + [ Check(LatitudeMinutes, Value(parts[3]), 0.0 < Value(parts[3]) < 60.0),
        Check(LongitudeMinutes, Value(parts[1]), 0.0 < Value(parts[1]) < 60.0) ]
  }

  /** `fromDM`: tokens are longitude degrees, longitude minutes, latitude
      degrees, latitude minutes. `copysign` gives the minutes the sign of
      the hint even when the degrees are 0. */
  function FromDM(parts: seq<Token>): (r: Outcome)
    requires |parts| == 4
    ensures r.Ok? ==> r.pt.lat == Signed(SouthDM(parts), Value(parts[2]) + Value(parts[3]) / 60.0)
    ensures r.Ok? ==> r.pt.lng == Signed(WestDM(parts), Value(parts[0]) + Value(parts[1]) / 60.0)
    ensures r.Ok? ==> -91.0 < r.pt.lat < 91.0 && -181.0 < r.pt.lng < 181.0
  {
    var dlng := Signed(WestDM(parts), Value(parts[0]));
    var mlng := Value(parts[1]);
    var dlat := Signed(SouthDM(parts), Value(parts[2]));
    var mlat := Value(parts[3]);
    if dlat >= 90.0 || dlat <= -90.0 then OutOfBounds(LatitudeDegrees, dlat)
    else if dlng >= 180.0 || dlng <= -180.0 then OutOfBounds(LongitudeDegrees, dlng)
    else if mlat <= 0.0 || mlat >= 60.0 then OutOfBounds(LatitudeMinutes, mlat)
    else if mlng <= 0.0 || mlng >= 60.0 then OutOfBounds(LongitudeMinutes, mlng)
    else Ok(Point(dlat + CopySign(mlat, SouthDM(parts)) / 60.0, dlng + CopySign(mlng, WestDM(parts)) / 60.0))
  }

  /** `fromDM` runs its checks in the order of DMChecks and reports the first that fails. */
  lemma DMChecksOrder(parts: seq<Token>)
    requires |parts| == 4
    ensures FromDM(parts).Ok? <==> AllPassed(DMChecks(parts))
    ensures !FromDM(parts).Ok? ==> FromDM(parts) == Reported(DMChecks(parts))
  {
    var cs := DMChecks(parts);
    assert cs[4..] == [];
    FirstFailureStep(cs, 3);
    FirstFailureStep(cs, 2);
    FirstFailureStep(cs, 1);
    FirstFailureStep(cs, 0);
  }

  /** The longitude hint of `fromDMS`: on the degrees token, or a `w` suffix on the seconds token. */
  predicate WestDMS(parts: seq<Token>)
    requires |parts| == 6
    ensures Shaped(parts[2]) ==> (WestDMS(parts) <==> West(parts[0]) || 'w' in parts[2].suffix)
  {
    parts[0].prefix in ["w", "-"] || parts[0].suffix == "w" || parts[2].suffix == "w"
  }

  /** The latitude hint of `fromDMS`: on the degrees token, or an `s` suffix on the seconds token. */
  predicate SouthDMS(parts: seq<Token>)
    requires |parts| == 6
    ensures Shaped(parts[5]) ==> (SouthDMS(parts) <==> South(parts[3]) || 's' in parts[5].suffix)
  {
    parts[3].prefix in ["s", "-"] || parts[3].suffix == "s" || parts[5].suffix == "s"
  }

  /** The checks of `fromDMS` in order: degrees, then latitude minutes,
      longitude minutes, latitude seconds, longitude seconds, each in (0, 60). */
  function DMSChecks(parts: seq<Token>): seq<Check>
    requires |parts| == 6
  {
    DegreeChecks(Signed(SouthDMS(parts), Value(parts[3])), Signed(WestDMS(parts), Value(parts[0])))
    + [ Check(LatitudeMinutes, Value(parts[4]), 0.0 < Value(parts[4]) < 60.0),
        Check(LongitudeMinutes, Value(parts[1]), 0.0 < Value(parts[1]) < 60.0),
        Check(LatitudeSeconds, Value(parts[5]), 0.0 < Value(parts[5]) < 60.0),
        Check(LongitudeSeconds, Value(parts[2]), 0.0 < Value(parts[2]) < 60.0) ]
  }

  /** `fromDMS`: tokens are longitude degrees, minutes, seconds, then
      latitude degrees, minutes, seconds. */
  function FromDMS(parts: seq<Token>): (r: Outcome)
    requires |parts| == 6
    ensures r.Ok? ==> r.pt.lat == Signed(SouthDMS(parts), Value(parts[3]) + Value(parts[4]) / 60.0 + Value(parts[5]) / 3600.0)
    ensures r.Ok? ==> r.pt.lng == Signed(WestDMS(parts), Value(parts[0]) + Value(parts[1]) / 60.0 + Value(parts[2]) / 3600.0)
  {
    var dlng := Signed(WestDMS(parts), Value(parts[0]));
    var mlng := Value(parts[1]);
    var slng := Value(parts[2]);
    var dlat := Signed(SouthDMS(parts), Value(parts[3]));
    var mlat := Value(parts[4]);
    var slat := Value(parts[5]);
    if dlat >= 90.0 || dlat <= -90.0 then OutOfBounds(LatitudeDegrees, dlat)
    else if dlng >= 180.0 || dlng <= -180.0 then OutOfBounds(LongitudeDegrees, dlng)
    else if mlat <= 0.0 || mlat >= 60.0 then OutOfBounds(LatitudeMinutes, mlat)
    else if mlng <= 0.0 || mlng >= 60.0 then OutOfBounds(LongitudeMinutes, mlng)
    else if slat <= 0.0 || slat >= 60.0 then OutOfBounds(LatitudeSeconds, slat)
    else if slng <= 0.0 || slng >= 60.0 then OutOfBounds(LongitudeSeconds, slng)
    else Ok(Point(dlat + CopySign(mlat, SouthDMS(parts)) / 60.0 + CopySign(slat, SouthDMS(parts)) / 3600.0,
                  dlng + CopySign(mlng, WestDMS(parts)) / 60.0 + CopySign(slng, WestDMS(parts)) / 3600.0))
  }

  /** `fromDMS` runs its checks in the order of DMSChecks and reports the first that fails. */
  lemma DMSChecksOrder(parts: seq<Token>)
    requires |parts| == 6
    ensures FromDMS(parts).Ok? <==> AllPassed(DMSChecks(parts))
    ensures !FromDMS(parts).Ok? ==> FromDMS(parts) == Reported(DMSChecks(parts))
  {
    var cs := DMSChecks(parts);
    assert cs[6..] == [];
    FirstFailureStep(cs, 5);
    FirstFailureStep(cs, 4);
    FirstFailureStep(cs, 3);
    FirstFailureStep(cs, 2);
    FirstFailureStep(cs, 1);
    FirstFailureStep(cs, 0);
  }

  /** The hemisphere of `fromUTM`: southern iff the zone token has prefix `s`
      or `-`, or suffix `s`, the same hint as the latitude of `fromDD`. */
  predicate SouthUTM(t: Token)
    ensures SouthUTM(t) <==> South(t)
  {
    t.prefix == "s" || t.prefix == "-" || t.suffix == "s"
  }

  /** The central meridian of `utmToLatLng`, `(zone > 0) and (6 * zone - 183) or 3`:
      for every zone above 0 it is `6 * zone - 183`, since that is never
      0 for a whole zone; otherwise 3. */
  function CentralMeridian(zone: int): (m: int)
    ensures zone > 0 ==> m == 6 * zone - 183
    ensures zone <= 0 ==> m == 3
  {
    if zone > 0 && 6 * zone - 183 != 0 then 6 * zone - 183 else 3
  }

  /** The frame `utmToLatLng` hands to its series: the false easting less
      the easting, the southern northing measured down from the false
      northing, and the zone's central meridian. */
  function GridFrame(g: Grid): (f: Frame)
    ensures f.x + g.easting == 500000.0
    ensures f.y == (if g.south then 10000000.0 - g.northing else g.northing)
    ensures f.meridian == CentralMeridian(g.zone)
  {
    Frame(500000.0 - g.easting, if g.south then 10000000.0 - g.northing else g.northing, CentralMeridian(g.zone))
  }

  /** `utmToLatLng` around its series: the series gives a latitude, negated
      in the southern hemisphere, and a longitude offset taken away from the
      central meridian. */
  function Project(g: Grid, series: Series): (p: Point)
    ensures var q := series(500000.0 - g.easting, if g.south then 10000000.0 - g.northing else g.northing);
            p.lat == (if g.south then -q.lat else q.lat) && p.lng == CentralMeridian(g.zone) as real - q.lng
  {
    var f := GridFrame(g);
    var p := series(f.x, f.y);
    Point(if g.south then -p.lat else p.lat, f.meridian as real - p.lng)
  }

  /** For zones above 0 the zone only places the point: the same grid
      position in another such zone has the same latitude and a longitude
      six degrees further east per zone. */
  lemma ProjectZoneShift(g: Grid, series: Series, zone: int)
    requires g.zone > 0 && zone > 0
    ensures Project(g.(zone := zone), series).lat == Project(g, series).lat
    ensures Project(g.(zone := zone), series).lng == Project(g, series).lng + 6.0 * (zone - g.zone) as real
  {
  }

  /** `fromUTM`: tokens are zone, easting, northing. The zone is `int()` of
      its value group, which raises on a point before any check runs; the
      projection is reached only when every check passes. */
  function FromUTM(parts: seq<Token>, series: Series): (r: Raising<Outcome>)
    requires |parts| == 3
    ensures r.ValueError? <==> parts[0].point
    ensures r.Returns? && r.value.Ok? ==>
              r.value.pt == Project(Grid(Whole(parts[0]), Value(parts[1]), Value(parts[2]), SouthUTM(parts[0])), series)
  {
    var south := SouthUTM(parts[0]);
    match PyInt(parts[0])
    case ValueError => ValueError
    case Returns(zone) =>
      var easting := Value(parts[1]);
      var northing := Value(parts[2]);
      if zone <= 0 || zone > 60 then Returns(OutOfBounds(Zone, zone as real))
      else if easting < 100000.0 || easting > 1000000.0 then Returns(OutOfBounds(Easting, easting))
      else if northing < 0.0 || northing > 10000000.0 then Returns(OutOfBounds(Northing, northing))
      else Returns(Ok(Project(Grid(zone, easting, northing, south), series)))
  }

  /** When `int()` succeeds, `fromUTM` runs the grid checks in order and
      reports the first that fails; what it reports does not depend on the
      projection series. */
  lemma UTMChecksOrder(parts: seq<Token>, series: Series)
    requires |parts| == 3 && !parts[0].point
    ensures FromUTM(parts, series).Returns?
    ensures FromUTM(parts, series).value.Ok? <==> AllPassed(GridChecks(Whole(parts[0]), Value(parts[1]), Value(parts[2])))
    ensures !FromUTM(parts, series).value.Ok? ==>
              FromUTM(parts, series).value == Reported(GridChecks(Whole(parts[0]), Value(parts[1]), Value(parts[2])))
  {
    var cs := GridChecks(Whole(parts[0]), Value(parts[1]), Value(parts[2]));
    assert cs[3..] == [];
    FirstFailureStep(cs, 2);
    FirstFailureStep(cs, 1);
    FirstFailureStep(cs, 0);
  }
}
