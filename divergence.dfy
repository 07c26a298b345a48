/** Where the two implementations agree and where they part: the same
    query runs through one shared cleaner, scanner and classifier, then
    through the converters of index.js or of coparse.py. */
module Divergence {
  import opened Cleaning
  import opened Lexer
  import opened Numbers
  import opened Coordinates
  import Js = JsConvert
  import Py = PyConvert
  import JsService
  import PyService

  /** The hints of the two implementations agree: the membership tests of
      coparse.py and the equality tests of index.js name the same letters. */
  lemma HintsAgree(t: Token, parts: seq<Token>)
    ensures Js.West(t) == Py.West(t) && Js.South(t) == Py.South(t) && Js.SouthUTM(t) == Py.SouthUTM(t)
    ensures |parts| == 4 ==> Js.WestDM(parts) == Py.WestDM(parts) && Js.SouthDM(parts) == Py.SouthDM(parts)
    ensures |parts| == 6 ==> Js.WestDMS(parts) == Py.WestDMS(parts) && Js.SouthDMS(parts) == Py.SouthDMS(parts)
  {
  }

  /** The DD converters agree on every input: same hints, same checks, same point. */
  lemma DDAgree(parts: seq<Token>)
    requires |parts| == 2
    ensures Js.FromDD(parts) == Py.FromDD(parts)
  {
  }

  /** DM: Python accepts less (its minutes exclude 0), everything index.js
      refuses Python refuses too, and the points agree whenever both
      accept and neither degrees reading is 0. */
  lemma DMAgree(parts: seq<Token>)
    requires |parts| == 4
    ensures Py.FromDM(parts).Ok? ==> Js.FromDM(parts).Ok?
    ensures Js.FromDM(parts).Ok? && Value(parts[1]) > 0.0 && Value(parts[3]) > 0.0 ==> Py.FromDM(parts).Ok?
    ensures !Js.FromDM(parts).Ok? && Value(parts[3]) > 0.0 ==> Py.FromDM(parts) == Js.FromDM(parts)
    ensures Js.FromDM(parts).Ok? && Py.FromDM(parts).Ok? && Value(parts[0]) > 0.0 && Value(parts[2]) > 0.0 ==>
              Js.FromDM(parts) == Py.FromDM(parts)
  {
  }

  /** A token with just a value, no hints. */
  function Plain(digits: string): Token {
    Token("", digits, false, "", "")
  }

  /** Zero degrees: `-0 30 45 30` is 0 degrees west with 30 minutes. index.js
      drops the minutes (`Math.sign(-0)` is not negative one) and returns
      longitude 0; Python's `copysign` follows the sign of `-0.0` and
      returns -0.5. */
  lemma DMZeroDegrees()
    ensures Js.FromDM([Token("-", "0", false, "", ""), Plain("30"), Plain("45"), Plain("30")]).Ok?
    ensures Js.FromDM([Token("-", "0", false, "", ""), Plain("30"), Plain("45"), Plain("30")]).pt.lng == 0.0
    ensures Py.FromDM([Token("-", "0", false, "", ""), Plain("30"), Plain("45"), Plain("30")]).Ok?
    ensures Py.FromDM([Token("-", "0", false, "", ""), Plain("30"), Plain("45"), Plain("30")]).pt.lng == -0.5
  {
  }

  /** Zero minutes: `45 0 45 30` passes the checks of index.js and fails
      Python's longitude minutes check. */
  lemma DMZeroMinutes()
    ensures Js.FromDM([Plain("45"), Plain("0"), Plain("45"), Plain("30")]).Ok?
    ensures Py.FromDM([Plain("45"), Plain("0"), Plain("45"), Plain("30")]) == OutOfBounds(LongitudeMinutes, 0.0)
  {
  }

  /** DMS: Python accepts less, and the points agree whenever both accept
      and neither degrees reading is 0. */
  lemma DMSAgree(parts: seq<Token>)
    requires |parts| == 6
    ensures Py.FromDMS(parts).Ok? ==> Js.FromDMS(parts).Ok?
    ensures Js.FromDMS(parts).Ok? && Py.FromDMS(parts).Ok? && Value(parts[0]) > 0.0 && Value(parts[3]) > 0.0 ==>
              Js.FromDMS(parts) == Py.FromDMS(parts)
  {
  }

  /** The order of the DMS minutes checks: with longitude minutes 80 and
      latitude minutes 70, both report "Latitude minutes", index.js with
      the longitude's 80 and Python with the latitude's 70. */
  lemma DMSCheckOrder()
    ensures Js.FromDMS([Plain("10"), Plain("80"), Plain("0"), Plain("10"), Plain("70"), Plain("0")])
            == OutOfBounds(LatitudeMinutes, 80.0)
    ensures Py.FromDMS([Plain("10"), Plain("80"), Plain("0"), Plain("10"), Plain("70"), Plain("0")])
            == OutOfBounds(LatitudeMinutes, 70.0)
  {
  }

  /** index.js refuses 0 longitude minutes but accepts 0 latitude minutes
      and 0 seconds. */
  lemma DMSZeroMinutes()
    ensures Js.FromDMS([Plain("10"), Plain("0"), Plain("30"), Plain("10"), Plain("30"), Plain("30")])
            == OutOfBounds(LatitudeMinutes, 0.0)
    ensures Js.FromDMS([Plain("10"), Plain("30"), Plain("0"), Plain("10"), Plain("0"), Plain("0")]).Ok?
  {
  }

  /** UTM: on a zone without a point both read the same zone, run the same
      checks and report the same failure; on a zone with a point Python
      raises while index.js goes on with the integer part. */
  lemma UTMAgree(parts: seq<Token>, jsSeries: Series, pySeries: Series)
    requires |parts| == 3
    ensures !parts[0].point ==> Py.FromUTM(parts, pySeries).Returns?
                                && (Py.FromUTM(parts, pySeries).value.Ok? <==> Js.FromUTM(parts, jsSeries).Ok?)
    ensures !parts[0].point && !Js.FromUTM(parts, jsSeries).Ok? ==> Py.FromUTM(parts, pySeries).value == Js.FromUTM(parts, jsSeries)
    ensures parts[0].point ==> Py.FromUTM(parts, pySeries).ValueError?
  {
  }

  /** The two central-meridian formulas agree on every zone above 0, and
      on the zones the checks let through they lie within ±177. */
  lemma MeridiansAgree(zone: int)
    requires zone > 0
    ensures Js.CentralMeridian(zone) == Py.CentralMeridian(zone)
    ensures zone <= 60 ==> -177 <= Py.CentralMeridian(zone) <= 177
  {
  }

  /** The frames the two series receive mirror each other: the easting
      offset has the opposite sign, and so does the southern northing. */
  lemma FramesMirror(g: Grid)
    requires g.zone > 0
    ensures Py.GridFrame(g).x == -Js.GridFrame(g).x
    ensures Py.GridFrame(g).y == (if g.south then -Js.GridFrame(g).y else Js.GridFrame(g).y)
    ensures Py.GridFrame(g).meridian == Js.GridFrame(g).meridian
  {
  }

  /** For one and the same outcome the two result objects carry the same
      point with the axes swapped and the same reason under different keys. */
  lemma AnswersSwapAxes(o: Outcome)
    ensures JsService.Answer(o).Success? <==> PyService.Answer(o).Success?
    ensures JsService.Answer(o).Success? ==>
              JsService.Answer(o).x == PyService.Answer(o).y && JsService.Answer(o).y == PyService.Answer(o).x
              && JsService.Answer(o).display == PyService.Answer(o).display
    ensures JsService.Answer(o).Failure? ==>
              JsService.Answer(o).key == ErrorMsgKey && PyService.Answer(o).key == ErrorKey
              && JsService.Answer(o).reason == PyService.Answer(o).reason
  {
  }

  /** A DD query gets the same answer from both, up to the swapped axes and
      the key of the message. */
  lemma DDRepliesSwapAxes(q: string, jsSeries: Series, pySeries: Series)
    requires q != "" && |Parts(Clean(q))| == 2
    ensures PyService.ReplyTo(Some(q), pySeries).Returns?
    ensures JsService.ReplyTo(Some(q), jsSeries).Success? <==> PyService.ReplyTo(Some(q), pySeries).value.Success?
    ensures JsService.ReplyTo(Some(q), jsSeries).Success? ==>
              JsService.ReplyTo(Some(q), jsSeries).x == PyService.ReplyTo(Some(q), pySeries).value.y
              && JsService.ReplyTo(Some(q), jsSeries).y == PyService.ReplyTo(Some(q), pySeries).value.x
    ensures JsService.ReplyTo(Some(q), jsSeries).Failure? ==>
              JsService.ReplyTo(Some(q), jsSeries).reason == PyService.ReplyTo(Some(q), pySeries).value.reason
  {
    DDAgree(Parts(Clean(q)));
    AnswersSwapAxes(Js.FromDD(Parts(Clean(q))));
  }

  /** Neither answer depends on the case of the query. */
  lemma RepliesIgnoreCase(q: string, jsSeries: Series, pySeries: Series)
    ensures JsService.ReplyTo(Some(LowerAll(q)), jsSeries) == JsService.ReplyTo(Some(q), jsSeries)
    ensures PyService.ReplyTo(Some(LowerAll(q)), pySeries) == PyService.ReplyTo(Some(q), pySeries)
  {
    CleanCaseInsensitive(q);
  }
}
