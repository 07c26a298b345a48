/** `parse` of coparse.py, without the debug echo: the query (None or a
    string) in, the result dictionary out, or the `ValueError` that
    `int()` raises on a fractional UTM zone. */
module PyService {
  import opened Cleaning
  import opened Lexer
  import opened Layout
  import opened Numbers
  import opened Coordinates
  import opened PyConvert

  /** The result dictionary built from a converter's outcome: on success
      `x` is the longitude and `y` the latitude, and the display shows the
      longitude first; on failure the message goes under `error`. */
  function Answer(o: Outcome): (r: Reply)
    ensures r.Success? <==> o.Ok?
    ensures r.Success? ==> r.x == o.pt.lng && r.y == o.pt.lat && r.display == (o.pt.lng, o.pt.lat)
    ensures r.Failure? ==> r == Failure(ErrorKey, OutOfRange(o.field, o.observed))
  {
    if o.Ok? then Success(o.pt.lng, o.pt.lat, (o.pt.lng, o.pt.lat))
    else Failure(ErrorKey, OutOfRange(o.field, o.observed))
  }

  /** What `parse` returns for a query. */
  function ReplyTo(q: Option<string>, series: Series): (r: Raising<Reply>)
    ensures r == Returns(Failure(ErrorKey, NoQuery)) <==> q.None? || q.value == ""
    ensures r.Returns? && r.value.Failure? ==> r.value.key == ErrorKey
    ensures q.Some? && q.value != "" ==>
              (r == Returns(Failure(ErrorKey, UnknownFormat)) <==> |Parts(Clean(q.value))| !in {2, 3, 4, 6})
    ensures r.ValueError? <==> q.Some? && |Parts(Clean(q.value))| == 3 && Parts(Clean(q.value))[0].point
    ensures r.Returns? && r.value.Success? ==> r.value.display == (r.value.x, r.value.y)
  {
    if q.None? || q.value == "" then Returns(Failure(ErrorKey, NoQuery))
    else
      var parts := Parts(Clean(q.value));
      match Classify(|parts|)
      case DD => Returns(Answer(FromDD(parts)))
      case UTM => (match FromUTM(parts, series)
                   case ValueError => ValueError
                   case Returns(o) => Returns(Answer(o)))
      case DM => Returns(Answer(FromDM(parts)))
      case DMS => Returns(Answer(FromDMS(parts)))
      case Unknown => Returns(Failure(ErrorKey, UnknownFormat))
  }

  /** `parse`: refuse an empty query, clean it, collect the parts by the
      nested loops, pick the converter by the number of parts and fill in
      the result. */
  method Parse(q: Option<string>, series: Series) returns (result: Raising<Reply>)
    ensures result == ReplyTo(q, series)
  {
    if q.None? || q.value == "" {
      return Returns(Failure(ErrorKey, NoQuery));
    }
    var clean := Clean(q.value);
    var ms := Tokenize(clean);
    ScanGreedy(clean, 0);
    var parts := PyParts(clean, ms);
    var tokens := Tokens(clean, ms);
    var pt: Outcome;
    if |parts| == 2 {
      pt := FromDD(tokens);
    } else if |parts| == 3 {
      var utm := FromUTM(tokens, series);
      if utm.ValueError? {
        return ValueError;
      }
      pt := utm.value;
    } else if |parts| == 4 {
      pt := FromDM(tokens);
    } else if |parts| == 6 {
      pt := FromDMS(tokens);
    } else {
      return Returns(Failure(ErrorKey, UnknownFormat));
    }
    result := Returns(Answer(pt));
  }
}
