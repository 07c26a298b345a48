/** Worked queries and tokens: what the scanner makes of hints set apart
    by spaces, a DM reading that lands beyond the pole, the UTM frame at the
    equator, and one query followed through both implementations. */
module Worked {
  import opened Cleaning
  import opened Lexer
  import opened Numbers
  import opened Coordinates
  import Js = JsConvert
  import Py = PyConvert
  import JsService
  import PyService

  /** A hint set apart from its number by a space is not captured:
      `45 n 75 w` scans into the two bare numbers 45 and 75. */
  lemma SpacedHints()
    ensures Scan("45 n 75 w", 0) == [Match(0, 0, 2, 2, 2, 2), Match(5, 5, 7, 7, 7, 7)]
    ensures Parts("45 n 75 w") == [Token("", "45", false, "", ""), Token("", "75", false, "", "")]
  {
    var s := "45 n 75 w";
    assert !CanStart(s, 8) && !CanStart(s, 7) && !CanStart(s, 4) && !CanStart(s, 3) && !CanStart(s, 2);
    assert Scan(s, 9) == [];
    assert Scan(s, 7) == [] by {
      assert Scan(s, 8) == Scan(s, 9);
    }
    assert DigitsEnd(s, 5) == 7 by {
      assert DigitsEnd(s, 7) == 7;
    }
    assert MatchAt(s, 5) == Some(Match(5, 5, 7, 7, 7, 7));
    assert Scan(s, 2) == [Match(5, 5, 7, 7, 7, 7)] by {
      assert Scan(s, 2) == Scan(s, 3) == Scan(s, 4) == Scan(s, 5);
    }
    assert DigitsEnd(s, 0) == 2 by {
      assert DigitsEnd(s, 2) == 2;
    }
    assert MatchAt(s, 0) == Some(Match(0, 0, 2, 2, 2, 2));
    ScanGreedy(s, 0);
    var ts := Parts(s);
    assert ts[0] == TokenOf(s, Match(0, 0, 2, 2, 2, 2));
    assert ts[1] == TokenOf(s, Match(5, 5, 7, 7, 7, 7));
    assert s[0..2] == "45" && s[5..7] == "75";
  }

  /** Written next to their numbers, the same hints are captured as suffixes. */
  lemma JoinedHints()
    ensures Parts("45n 75w") == [Token("", "45", false, "", "n"), Token("", "75", false, "", "w")]
  {
    var s := "45n 75w";
    assert Scan(s, 7) == [];
    assert DigitsEnd(s, 4) == 6 by {
      assert DigitsEnd(s, 6) == 6;
    }
    assert MatchAt(s, 4) == Some(Match(4, 4, 6, 6, 6, 7));
    assert Scan(s, 3) == [Match(4, 4, 6, 6, 6, 7)] by {
      assert !CanStart(s, 3);
    }
    assert DigitsEnd(s, 0) == 2 by {
      assert DigitsEnd(s, 2) == 2;
    }
    assert MatchAt(s, 0) == Some(Match(0, 0, 2, 2, 2, 3));
    ScanGreedy(s, 0);
    var ts := Parts(s);
    assert ts[0] == TokenOf(s, Match(0, 0, 2, 2, 2, 3));
    assert ts[1] == TokenOf(s, Match(4, 4, 6, 6, 6, 7));
    assert s[0..2] == "45" && s[2..3] == "n" && s[4..6] == "75" && s[6..7] == "w";
  }

  /** Degrees below 90 and minutes below 60 pass every DM check, yet
      89.5 degrees and 59 minutes make a latitude past 90. */
  lemma DMBeyondPole()
    ensures Js.FromDM([Token("", "10", false, "", ""), Token("", "30", false, "", ""),
                       Token("", "89", true, "5", ""), Token("", "59", false, "", "")]).Ok?
    ensures Js.FromDM([Token("", "10", false, "", ""), Token("", "30", false, "", ""),
                       Token("", "89", true, "5", ""), Token("", "59", false, "", "")]).pt.lat > 90.0
    ensures Py.FromDM([Token("", "10", false, "", ""), Token("", "30", false, "", ""),
                       Token("", "89", true, "5", ""), Token("", "59", false, "", "")]).pt.lat > 90.0
  {
  }

  /** The leading hyphen and a trailing `w` mean the same on a longitude. */
  lemma HyphenIsWest(whole: string, point: bool, frac: string, lat: Token)
    ensures Js.FromDD([Token("-", whole, point, frac, ""), lat]) == Js.FromDD([Token("", whole, point, frac, "w"), lat])
    ensures Py.FromDD([Token("-", whole, point, frac, ""), lat]) == Py.FromDD([Token("", whole, point, frac, "w"), lat])
  {
  }

  /** On the central meridian at the equator both series are handed the
      origin of their plane: zone 33 north at easting 500000, northing 0,
      and zone 17 south at easting 500000, northing 10000000. */
  lemma EquatorFrames()
    ensures Js.GridFrame(Grid(33, 500000.0, 0.0, false)) == Frame(0.0, 0.0, 15)
    ensures Py.GridFrame(Grid(33, 500000.0, 0.0, false)) == Frame(0.0, 0.0, 15)
    ensures Js.GridFrame(Grid(17, 500000.0, 10000000.0, true)) == Frame(0.0, 0.0, -81)
    ensures Py.GridFrame(Grid(17, 500000.0, 10000000.0, true)) == Frame(0.0, 0.0, -81)
  {
  }

  /** `33 500000 0`: zone 33 at the central meridian on the equator. With
      any series that maps the origin of the plane to no offset, index.js
      answers latitude 0 and longitude 15, the zone's central meridian. */
  lemma CentralMeridianPoint(series: Series)
    requires series(0.0, 0.0) == Point(0.0, 0.0)
    ensures Js.FromUTM([Token("", "33", false, "", ""), Token("", "500000", false, "", ""), Token("", "0", false, "", "")], series)
            == Ok(Point(0.0, 15.0))
    ensures Py.FromUTM([Token("", "33", false, "", ""), Token("", "500000", false, "", ""), Token("", "0", false, "", "")], series)
            == Returns(Ok(Point(0.0, 15.0)))
  {
    assert "33"[..1] == "3";
    assert "500000"[..5] == "50000" && "50000"[..4] == "5000" && "5000"[..3] == "500";
    assert "500"[..2] == "50" && "50"[..1] == "5";
    assert Numeral("500000") == 500000;
  }

  /** `17s 500000 10000000`: zone 17 south at the central meridian on the
      equator. With any series that maps the origin of the plane to no
      offset, both answer latitude 0 and longitude -81, the zone's central
      meridian. */
  lemma SouthEquatorPoint(series: Series)
    requires series(0.0, 0.0) == Point(0.0, 0.0)
    ensures Js.FromUTM([Token("", "17", false, "", "s"), Token("", "500000", false, "", ""), Token("", "10000000", false, "", "")], series)
            == Ok(Point(0.0, -81.0))
    ensures Py.FromUTM([Token("", "17", false, "", "s"), Token("", "500000", false, "", ""), Token("", "10000000", false, "", "")], series)
            == Returns(Ok(Point(0.0, -81.0)))
  {
    SouthEquatorReadings();
  }

  /** The readings of `17s 500000 10000000`. */
  lemma SouthEquatorReadings()
    ensures Numeral("17") == 17 && Numeral("500000") == 500000 && Numeral("10000000") == 10000000
  {
    assert "17"[..1] == "1";
    assert "500000"[..5] == "50000" && "50000"[..4] == "5000" && "5000"[..3] == "500";
    assert "500"[..2] == "50" && "50"[..1] == "5";
    assert "10000000"[..7] == "1000000" && "1000000"[..6] == "100000" && "100000"[..5] == "10000";
    assert "10000"[..4] == "1000" && "1000"[..3] == "100" && "100"[..2] == "10" && "10"[..1] == "1";
  }

  /** Every character of `144.9E 37.8S` is kept once lower-cased. */
  lemma QueryKept()
    ensures forall k :: 0 <= k < |"144.9E 37.8S"| ==> Kept(Lower("144.9E 37.8S"[k]))
  {
  }

  /** Lower-casing `144.9E 37.8S`. */
  lemma QueryLowered()
    ensures LowerAll("144.9E 37.8S") == "144.9e 37.8s"
  {
  }

  /** Cleaning `144.9E 37.8S` only lower-cases it. */
  lemma QueryCleaned()
    ensures Clean("144.9E 37.8S") == "144.9e 37.8s"
  {
    QueryKept();
    CleanKeepsAll("144.9E 37.8S");
    QueryLowered();
  }

  /** `144.9e 37.8s` scans into 144.9 with suffix `e` and 37.8 with suffix `s`. */
  lemma QueryScanned()
    ensures Parts("144.9e 37.8s") == [Token("", "144", true, "9", "e"), Token("", "37", true, "8", "s")]
  {
    var s := "144.9e 37.8s";
    assert Scan(s, 12) == [];
    assert DigitsEnd(s, 10) == 11 by { assert DigitsEnd(s, 11) == 11; }
    assert DigitsEnd(s, 7) == 9 by { assert DigitsEnd(s, 9) == 9; }
    assert MatchAt(s, 7) == Some(Match(7, 7, 9, 10, 11, 12));
    assert Scan(s, 6) == [Match(7, 7, 9, 10, 11, 12)] by {
      assert !CanStart(s, 6);
    }
    assert DigitsEnd(s, 4) == 5 by { assert DigitsEnd(s, 5) == 5; }
    assert DigitsEnd(s, 0) == 3 by { assert DigitsEnd(s, 3) == 3; }
    assert MatchAt(s, 0) == Some(Match(0, 0, 3, 4, 5, 6));
    ScanGreedy(s, 0);
    var ts := Parts(s);
    assert ts[0] == TokenOf(s, Match(0, 0, 3, 4, 5, 6));
    assert ts[1] == TokenOf(s, Match(7, 7, 9, 10, 11, 12));
    assert s[0..0] == "" && s[0..3] == "144" && s[4..5] == "9" && s[5..6] == "e";
    assert s[7..7] == "" && s[7..9] == "37" && s[10..11] == "8" && s[11..12] == "s";
  }

  /** The readings of the two value groups. */
  lemma QueryValues()
    ensures Value(Token("", "144", true, "9", "e")) == 144.9
    ensures Value(Token("", "37", true, "8", "s")) == 37.8
  {
    assert "144"[..2] == "14" && "14"[..1] == "1" && "37"[..1] == "3";
  }

  /** Both DD converters read longitude 144.9 east and latitude 37.8 south. */
  lemma QueryOutcome()
    ensures Js.FromDD([Token("", "144", true, "9", "e"), Token("", "37", true, "8", "s")]) == Ok(Point(-37.8, 144.9))
    ensures Py.FromDD([Token("", "144", true, "9", "e"), Token("", "37", true, "8", "s")]) == Ok(Point(-37.8, 144.9))
  {
    QueryValues();
  }

  /** End to end: index.js answers `x` -37.8 and `y` 144.9, Python `x`
      144.9 and `y` -37.8, and both display longitude then latitude. */
  lemma QueryAnswers(jsSeries: Series, pySeries: Series)
    ensures JsService.ReplyTo(Some("144.9E 37.8S"), jsSeries) == Success(-37.8, 144.9, (144.9, -37.8))
    ensures PyService.ReplyTo(Some("144.9E 37.8S"), pySeries) == Returns(Success(144.9, -37.8, (144.9, -37.8)))
  {
    QueryCleaned();
    QueryScanned();
    QueryOutcome();
  }
}
