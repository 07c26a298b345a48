/** The request handler `exports.main` of index.js, without HTTP: the
    query parameter `q` (absent, or a string) in, the result object out. */
module JsService {
  import opened Cleaning
  import opened Lexer
  import opened Layout
  import opened Coordinates
  import opened JsConvert

  /** The result object built from a converter's outcome: on success
      `x` is the latitude and `y` the longitude, and the display shows the
      longitude first; on failure the message goes under `error_msg`. */
  function Answer(o: Outcome): (r: Reply)
    ensures r.Success? <==> o.Ok?
    ensures r.Success? ==> r.x == o.pt.lat && r.y == o.pt.lng && r.display == (o.pt.lng, o.pt.lat)
    ensures r.Failure? ==> r == Failure(ErrorMsgKey, OutOfRange(o.field, o.observed))
  {
    if o.Ok? then Success(o.pt.lat, o.pt.lng, (o.pt.lng, o.pt.lat))
    else Failure(ErrorMsgKey, OutOfRange(o.field, o.observed))
  }

  /** What `exports.main` answers to a query. */
  function ReplyTo(q: Option<string>, series: Series): (r: Reply)
    ensures r == Failure(ErrorKey, NoQuery) <==> q.None? || q.value == ""
    ensures r.Failure? && r.key == ErrorKey ==> r.reason == NoQuery
    ensures q.Some? && q.value != "" ==>
              (r == Failure(ErrorMsgKey, UnknownFormat) <==> |Parts(Clean(q.value))| !in {2, 3, 4, 6})
    ensures r.Success? ==> r.display == (r.y, r.x)
  {
    if q.None? || q.value == "" then Failure(ErrorKey, NoQuery)
    else
      var parts := Parts(Clean(q.value));
      match Classify(|parts|)
      case DD => Answer(FromDD(parts))
      case UTM => Answer(FromUTM(parts, series))
      case DM => Answer(FromDM(parts))
      case DMS => Answer(FromDMS(parts))
      case Unknown => Failure(ErrorMsgKey, UnknownFormat)
  }

  /** `exports.main`: clean the query, scan it into parts, pick the
      converter by the number of parts and fill in the result. */
  method Respond(q: Option<string>, series: Series) returns (result: Reply)
    ensures result == ReplyTo(q, series)
  {
    if q.Some? && q.value != "" {
      var query := Clean(q.value);
      var ms := Tokenize(query);
      ScanGreedy(query, 0);
      var parts := JsParts(query, ms);
      var tokens := Tokens(query, ms);
      var pt: Outcome;
      var known := true;
      if |parts| == 2 {
        pt := FromDD(tokens);
      } else if |parts| == 3 {
        pt := FromUTM(tokens, series);
      } else if |parts| == 4 {
        pt := FromDM(tokens);
      } else if |parts| == 6 {
        pt := FromDMS(tokens);
      } else {
        known := false;
      }
      if !known {
        result := Failure(ErrorMsgKey, UnknownFormat);
      } else {
        result := Answer(pt);
      }
    } else {
      result := Failure(ErrorKey, NoQuery);
    }
  }
}
