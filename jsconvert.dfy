/** The converters of index.js: `fromDD`, `fromDM`, `fromDMS` and `fromUTM`
    with the part of `convertUtmToLatLng` that is not the projection series.
    Each reads the value groups of its tokens, applies the hemisphere hints,
    runs its range checks in order and returns at the first that fails. */
module JsConvert {
  import opened Lexer
  import opened Numbers
  import opened Coordinates

  /** The longitude hint of `fromDD`: prefix `w` or `-`, or suffix `w`. */
  predicate West(t: Token)
    ensures Shaped(t) ==> (West(t) <==> 'w' in t.prefix + t.suffix || t.prefix == "-")
  {
    t.prefix == "w" || t.suffix == "w" || t.prefix == "-"
  }

  /** The latitude hint of `fromDD`: prefix `s` or `-`, or suffix `s`. */
  predicate South(t: Token)
    ensures Shaped(t) ==> (South(t) <==> 's' in t.prefix + t.suffix || t.prefix == "-")
  {
    t.prefix == "s" || t.suffix == "s" || t.prefix == "-"
  }

  /** The checks of `fromDD`: the second token is the latitude, the first the longitude. */
  function DDChecks(parts: seq<Token>): seq<Check>
    requires |parts| == 2
  {
    DegreeChecks(Signed(South(parts[1]), Value(parts[1])), Signed(West(parts[0]), Value(parts[0])))
  }

  /** `fromDD`: the two readings, signed by their hints, are the point when
      both are in range; otherwise the first check that fails is reported. */
  function FromDD(parts: seq<Token>): (r: Outcome)
    requires |parts| == 2
    ensures r.Ok? ==> r.pt == Point(Signed(South(parts[1]), Value(parts[1])), Signed(West(parts[0]), Value(parts[0])))
    ensures r.Ok? ==> -90.0 < r.pt.lat < 90.0 && -180.0 < r.pt.lng < 180.0
  {
    var lng := Signed(West(parts[0]), Value(parts[0]));
    var lat := Signed(South(parts[1]), Value(parts[1]));
    if lat >= 90.0 || lat <= -90.0 then OutOfBounds(LatitudeDegrees, lat)
    else if lng >= 180.0 || lng <= -180.0 then OutOfBounds(LongitudeDegrees, lng)
    else Ok(Point(lat, lng))
  }

  /** `fromDD` runs its checks in the order of DDChecks and reports the first that fails. */
  lemma DDChecksOrder(parts: seq<Token>)
    requires |parts| == 2
    ensures FromDD(parts).Ok? <==> AllPassed(DDChecks(parts))
    ensures !FromDD(parts).Ok? ==> FromDD(parts) == Reported(DDChecks(parts))
  {
    var cs := DDChecks(parts);
    assert cs[2..] == [];
    FirstFailureStep(cs, 1);
    FirstFailureStep(cs, 0);
  }

  /** `n` and `e` never negate: with only those hints, or none, the point
      is the two readings as they are. */
  lemma NorthEastKeepSign(parts: seq<Token>)
    requires |parts| == 2
    requires forall k :: 0 <= k < 2 ==> parts[k].prefix in {"", "n", "e"} && parts[k].suffix in {"", "n", "e"}
    ensures FromDD(parts).Ok? ==> FromDD(parts).pt == Point(Value(parts[1]), Value(parts[0]))
  {
  }

  /** The longitude hint of `fromDM`: on the degrees token, or a `w` suffix on the minutes token. */
  predicate WestDM(parts: seq<Token>)
    requires |parts| == 4
    ensures Shaped(parts[1]) ==> (WestDM(parts) <==> West(parts[0]) || 'w' in parts[1].suffix)
  {
    parts[0].prefix == "w" || parts[0].suffix == "w" || parts[1].suffix == "w" || parts[0].prefix == "-"
  }

  /** The latitude hint of `fromDM`: on the degrees token, or an `s` suffix on the minutes token. */
  predicate SouthDM(parts: seq<Token>)
    requires |parts| == 4
    ensures Shaped(parts[3]) ==> (SouthDM(parts) <==> South(parts[2]) || 's' in parts[3].suffix)
  {
    parts[2].prefix == "s" || parts[2].suffix == "s" || parts[3].suffix == "s" || parts[2].prefix == "-"
  }

  /** The checks of `fromDM` in order: latitude degrees, longitude degrees,
      then latitude and longitude minutes, each minutes in [0, 60). */
  function DMChecks(parts: seq<Token>): seq<Check>
    requires |parts| == 4
  {
    DegreeChecks(Signed(SouthDM(parts), Value(parts[2])), Signed(WestDM(parts), Value(parts[0])))
    + [ Check(LatitudeMinutes, Value(parts[3]), 0.0 <= Value(parts[3]) < 60.0),
        Check(LongitudeMinutes, Value(parts[1]), 0.0 <= Value(parts[1]) < 60.0) ]
  }

  /** `d + Math.sign(d) * m / 60` for a reading `v` negated iff `negate`:
      the minutes go the way of the degrees, and vanish when the degrees are 0. */
  function AddMinutes(negate: bool, v: real, m: real): (r: real)
    requires v >= 0.0 && m >= 0.0
    ensures r == (if v == 0.0 then 0.0 else Signed(negate, v + m / 60.0))
  {
    var d := Signed(negate, v);
    d + Sign(d) * m / 60.0
  }

  /** `fromDM`: tokens are longitude degrees, longitude minutes, latitude
      degrees, latitude minutes. */
  function FromDM(parts: seq<Token>): (r: Outcome)
    requires |parts| == 4
    ensures r.Ok? ==> r.pt.lat == (if Value(parts[2]) == 0.0 then 0.0 else Signed(SouthDM(parts), Value(parts[2]) + Value(parts[3]) / 60.0))
    ensures r.Ok? ==> r.pt.lng == (if Value(parts[0]) == 0.0 then 0.0 else Signed(WestDM(parts), Value(parts[0]) + Value(parts[1]) / 60.0))
    ensures r.Ok? ==> -91.0 < r.pt.lat < 91.0 && -181.0 < r.pt.lng < 181.0
  {
    var dlng := Signed(WestDM(parts), Value(parts[0]));
    var mlng := Value(parts[1]);
    var dlat := Signed(SouthDM(parts), Value(parts[2]));
    var mlat := Value(parts[3]);
    if dlat >= 90.0 || dlat <= -90.0 then OutOfBounds(LatitudeDegrees, dlat)
    else if dlng >= 180.0 || dlng <= -180.0 then OutOfBounds(LongitudeDegrees, dlng)
    else if mlat < 0.0 || mlat >= 60.0 then OutOfBounds(LatitudeMinutes, mlat)
    else if mlng < 0.0 || mlng >= 60.0 then OutOfBounds(LongitudeMinutes, mlng)
    else Ok(Point(AddMinutes(SouthDM(parts), Value(parts[2]), mlat), AddMinutes(WestDM(parts), Value(parts[0]), mlng)))
  }

  /** `fromDM` runs its checks in the order of DMChecks and reports the first that fails. */
  lemma DMChecksOrder(parts: seq<Token>)
    requires |parts| == 4
    ensures FromDM(parts).Ok? <==> AllPassed(DMChecks(parts))
    ensures !FromDM(parts).Ok? ==> FromDM(parts) == Reported(DMChecks(parts))
  {
    var cs := DMChecks(parts);
    assert cs[4..] == [];
    FirstFailureStep(cs, 3);
    FirstFailureStep(cs, 2);
    FirstFailureStep(cs, 1);
    FirstFailureStep(cs, 0);
  }

  /** The longitude hint of `fromDMS`: on the degrees token, or a `w` suffix on the seconds token. */
  predicate WestDMS(parts: seq<Token>)
    requires |parts| == 6
    ensures Shaped(parts[2]) ==> (WestDMS(parts) <==> West(parts[0]) || 'w' in parts[2].suffix)
  {
    parts[0].prefix == "w" || parts[0].suffix == "w" || parts[2].suffix == "w" || parts[0].prefix == "-"
  }

  /** The latitude hint of `fromDMS`: on the degrees token, or an `s` suffix on the seconds token. */
  predicate SouthDMS(parts: seq<Token>)
    requires |parts| == 6
    ensures Shaped(parts[5]) ==> (SouthDMS(parts) <==> South(parts[3]) || 's' in parts[5].suffix)
  {
    parts[3].prefix == "s" || parts[3].suffix == "s" || parts[5].suffix == "s" || parts[3].prefix == "-"
  }

  /** The checks of `fromDMS` in order. The longitude minutes come before the
      latitude minutes, carry the latitude label and alone exclude 0; the
      labels of the other minutes and seconds checks are swapped too. */
  function DMSChecks(parts: seq<Token>): seq<Check>
    requires |parts| == 6
  {
    DegreeChecks(Signed(SouthDMS(parts), Value(parts[3])), Signed(WestDMS(parts), Value(parts[0])))
    + [ Check(LatitudeMinutes, Value(parts[1]), 0.0 < Value(parts[1]) < 60.0),
        Check(LongitudeMinutes, Value(parts[4]), 0.0 <= Value(parts[4]) < 60.0),
        Check(LatitudeSeconds, Value(parts[2]), 0.0 <= Value(parts[2]) < 60.0),
        Check(LongitudeSeconds, Value(parts[5]), 0.0 <= Value(parts[5]) < 60.0) ]
  }

  /** `d + Math.sign(d) * m / 60 + Math.sign(d) * s / 3600` for a reading `v`
      negated iff `negate`. */
  function AddMinutesSeconds(negate: bool, v: real, m: real, s: real): (r: real)
    requires v >= 0.0 && m >= 0.0 && s >= 0.0
    ensures r == (if v == 0.0 then 0.0 else Signed(negate, v + m / 60.0 + s / 3600.0))
  {
    var d := Signed(negate, v);
    d + Sign(d) * m / 60.0 + Sign(d) * s / 3600.0
  }

  /** `fromDMS`: tokens are longitude degrees, minutes, seconds, then
      latitude degrees, minutes, seconds. */
  function FromDMS(parts: seq<Token>): (r: Outcome)
    requires |parts| == 6
    ensures r.Ok? ==> r.pt.lat == (if Value(parts[3]) == 0.0 then 0.0
                                   else Signed(SouthDMS(parts), Value(parts[3]) + Value(parts[4]) / 60.0 + Value(parts[5]) / 3600.0))
    ensures r.Ok? ==> r.pt.lng == (if Value(parts[0]) == 0.0 then 0.0
                                   else Signed(WestDMS(parts), Value(parts[0]) + Value(parts[1]) / 60.0 + Value(parts[2]) / 3600.0))
  {
    var dlng := Signed(WestDMS(parts), Value(parts[0]));
    var mlng := Value(parts[1]);
    var slng := Value(parts[2]);
    var dlat := Signed(SouthDMS(parts), Value(parts[3]));
    var mlat := Value(parts[4]);
    var slat := Value(parts[5]);
    if dlat >= 90.0 || dlat <= -90.0 then OutOfBounds(LatitudeDegrees, dlat)
    else if dlng >= 180.0 || dlng <= -180.0 then OutOfBounds(LongitudeDegrees, dlng)
    else if mlng <= 0.0 || mlng >= 60.0 then OutOfBounds(LatitudeMinutes, mlng)
    else if mlat < 0.0 || mlat >= 60.0 then OutOfBounds(LongitudeMinutes, mlat)
    else if slng < 0.0 || slng >= 60.0 then OutOfBounds(LatitudeSeconds, slng)
    else if slat < 0.0 || slat >= 60.0 then OutOfBounds(LongitudeSeconds, slat)
    else Ok(Point(AddMinutesSeconds(SouthDMS(parts), Value(parts[3]), mlat, slat),
                  AddMinutesSeconds(WestDMS(parts), Value(parts[0]), mlng, slng)))
  }

  /** `fromDMS` runs its checks in the order of DMSChecks and reports the first that fails. */
  lemma DMSChecksOrder(parts: seq<Token>)
    requires |parts| == 6
    ensures FromDMS(parts).Ok? <==> AllPassed(DMSChecks(parts))
    ensures !FromDMS(parts).Ok? ==> FromDMS(parts) == Reported(DMSChecks(parts))
  {
    var cs := DMSChecks(parts);
    assert cs[6..] == [];
    FirstFailureStep(cs, 5);
    FirstFailureStep(cs, 4);
    FirstFailureStep(cs, 3);
    FirstFailureStep(cs, 2);
    FirstFailureStep(cs, 1);
    FirstFailureStep(cs, 0);
  }

  /** The hemisphere of `fromUTM`: southern iff the zone token has prefix `s`
      or `-`, or suffix `s`, the same hint as the latitude of `fromDD`. */
  predicate SouthUTM(t: Token)
    ensures SouthUTM(t) <==> South(t)
  {
    t.prefix == "s" || t.prefix == "-" || t.suffix == "s"
  }

  /** The central meridian of a zone, `(zone - 1) * 6 - 180 + 3`: the middle
      of the zone's six-degree band, counted east from 180 degrees west. */
  function CentralMeridian(zone: int): (m: int)
    ensures -180 + 6 * (zone - 1) < m < -180 + 6 * zone
    ensures 1 <= zone <= 60 ==> -180 < m < 180
  {
    (zone - 1) * 6 - 180 + 3
  }

  /** The frame `convertUtmToLatLng` hands to its series: easting less the
      false easting, northing less the false northing of the southern
      hemisphere, and the zone's central meridian. */
  function GridFrame(g: Grid): (f: Frame)
    ensures f.x + 500000.0 == g.easting
    ensures f.y == (if g.south then g.northing - 10000000.0 else g.northing)
    ensures f.meridian == CentralMeridian(g.zone)
  {
    Frame(g.easting - 500000.0, if g.south then g.northing - 10000000.0 else g.northing, CentralMeridian(g.zone))
  }

  /** `convertUtmToLatLng` around its series: the series, handed the grid
      position relative to the false origin, gives the latitude and the
      longitude offset east of the zone's central meridian. */
  function Project(g: Grid, series: Series): (p: Point)
    ensures p.lat == series(g.easting - 500000.0, if g.south then g.northing - 10000000.0 else g.northing).lat
    ensures p.lng - CentralMeridian(g.zone) as real ==
            series(g.easting - 500000.0, if g.south then g.northing - 10000000.0 else g.northing).lng
  {
    var f := GridFrame(g);
    var p := series(f.x, f.y);
    Point(p.lat, f.meridian as real + p.lng)
  }

  /** The zone only places the point: the same grid position in another
      zone has the same latitude and a longitude six degrees further east
      per zone. */
  lemma ProjectZoneShift(g: Grid, series: Series, zone: int)
    ensures Project(g.(zone := zone), series).lat == Project(g, series).lat
    ensures Project(g.(zone := zone), series).lng == Project(g, series).lng + 6.0 * (zone - g.zone) as real
  {
  }

  /** `fromUTM`: tokens are zone, easting, northing. The zone is `parseInt`
      of its value group. The projection is reached only when every check passes. */
  function FromUTM(parts: seq<Token>, series: Series): (r: Outcome)
    requires |parts| == 3
    ensures r.Ok? ==> r.pt == Project(Grid(Whole(parts[0]), Value(parts[1]), Value(parts[2]), SouthUTM(parts[0])), series)
  {
    var south := SouthUTM(parts[0]);
    var zone := Whole(parts[0]);
    var easting := Value(parts[1]);
    var northing := Value(parts[2]);
    if zone <= 0 || zone > 60 then OutOfBounds(Zone, zone as real)
    else if easting < 100000.0 || easting > 1000000.0 then OutOfBounds(Easting, easting)
    else if northing < 0.0 || northing > 10000000.0 then OutOfBounds(Northing, northing)
    else Ok(Project(Grid(zone, easting, northing, south), series))
  }

  /** `fromUTM` runs the grid checks in order and reports the first that
      fails; what it reports does not depend on the projection series. */
  lemma UTMChecksOrder(parts: seq<Token>, series: Series)
    requires |parts| == 3
    ensures FromUTM(parts, series).Ok? <==> AllPassed(GridChecks(Whole(parts[0]), Value(parts[1]), Value(parts[2])))
    ensures !FromUTM(parts, series).Ok? ==> FromUTM(parts, series) == Reported(GridChecks(Whole(parts[0]), Value(parts[1]), Value(parts[2])))
  {
    var cs := GridChecks(Whole(parts[0]), Value(parts[1]), Value(parts[2]));
    assert cs[3..] == [];
    FirstFailureStep(cs, 2);
    FirstFailureStep(cs, 1);
    FirstFailureStep(cs, 0);
  }
}
