# Coordinate-string normaliser of pycoparse, in Dafny

pycoparse turns a free-text coordinate such as `144.9e 37.8s`, `-75 30 45 15`
or `55 320000 5800000` into one point in decimal degrees. It has two
implementations, `index.js` (an HTTP handler) and `coparse.py` (a library
function). Both run the same pipeline:

1. **Cleaning.** The query is lower-cased. Every character other than `-`,
   `a`-`z`, `0`-`9`, `.`, space, `,` and `;` is deleted.
2. **Scanning.** The global pattern `([\-a-z]?)(\d+\.?\d*)([a-z]?)` runs
   left to right. Each match becomes one token: an optional hint character,
   a decimal value and an optional letter.
3. **Classifying.** The number of tokens alone picks the format: 2 is DD,
   3 is UTM, 4 is DM and 6 is DMS.
4. **Converting.** The hints `w`, `s` and `-` set the signs. Range checks
   run in a fixed order, and the first one that fails is reported. The
   parts are combined into degrees. UTM input has its zone, easting and
   northing checked and is then handed to a projection series.
5. **Answering.** The outcome becomes the result object.

The two converter sets differ in small ways. These differences are modelled
side by side and stated as lemmas.

Modules, in pipeline order:

- `Cleaning` (cleaning.dfy): the cleaner, and what it keeps and drops.
- `Lexer` (lexer.dfy): the scanner.
  - `Scan` is the reference: the leftmost greedy match, then resume after it.
  - `Tokenize` is the index loop of `index.js`, proved equal to `Scan`.
- `Layout` (layout.dfy): the two `parts` lists. `index.js` stores
  `[match, prefix, value, suffix]`; `coparse.py` stores `[prefix, value, suffix]`.
- `Numbers` (numbers.dfy): exact readings of value groups.
  - `parseFloat` and `float()` are `Value`.
  - `parseInt` is `Whole`.
  - Python's `int()` is `PyInt`.
- `Coordinates` (coordinates.dfy): shared pieces.
  - points, check labels and outcomes;
  - a list of checks with "first failure reported", the reference the
    converters are proved against;
  - the classifier;
  - the reply.
- `JsConvert` (jsconvert.dfy) and `PyConvert` (pyconvert.dfy): `fromDD`,
  `fromDM`, `fromDMS` and `fromUTM` of each implementation. Each converter
  is written as the source's cascade of early returns and proved to equal
  the first failure of its check list.
- `JsService` (jsservice.dfy) and `PyService` (pyservice.dfy):
  `exports.main` and `parse`. Each has a specification function and an
  imperative method proved equal to it.
- `Divergence` (divergence.dfy): the two implementations compared.
- `Worked` (worked.dfy): concrete queries and tokens.

Inputs and outputs:

- The query is `Option<string>`: the parameter is either absent or a string.
- Values are exact reals.
- The projection series is a parameter of type `(real, real) -> Point`.
  What is modelled of UTM is:
  - the hemisphere;
  - the zone read;
  - the checks;
  - the false easting and northing shifts;
  - the central meridian;
  - how the series' output is turned into a point.

Facts about the code that a reader might not expect:

- DM and DMS results can leave ±90/±180. Every degrees check is strict
  and every minutes check stops at 60, so 89.5 degrees with 59 minutes
  passes and lands past the pole (`Worked.DMBeyondPole`).
- `index.js` accepts DM minutes in [0, 60). `coparse.py` uses (0, 60) for
  every minutes and seconds check.
- In DMS, `index.js` checks the longitude minutes before the latitude
  minutes, and every minutes and seconds message carries the other axis's
  label.
- The doc comments of `fromDD`, `fromDM` and `fromDMS` in both files list
  the latitude first (index.js:168, 205 and 276; coparse.py:77 and 112).
  The code reads the longitude from the first token.
- `coparse.py` keeps the central meridian and the hemisphere shift, but its
  series uses the mirrored frame `500000 - easting` and
  `10000000 - northing`, negates the latitude, and subtracts the offset from
  the meridian (`Divergence.FramesMirror`).

## Model

| member | source | states |
|---|---|---|
| `Cleaning.Lower` | index.js:21 | The result is never an upper-case letter. Upper-case ASCII letters move to lower case; every other character is unchanged. |
| `Cleaning.LowerAll` | index.js:21 | Keeps the length and lower-cases each position. |
| `Cleaning.Clean` | index.js:21 | The cleaned query is no longer than the input. Every character in it is in the kept alphabet and is not upper case. |
| `Cleaning.CleanAppend` | index.js:21 | Cleaning distributes over concatenation, so the kept characters keep their order. |
| `Cleaning.CleanCounts` | coparse.py:16 | Each kept character occurs exactly as often as in the lower-cased query. Any other character does not occur at all. |
| `Cleaning.CleanIdempotent` | index.js:21 | Cleaning a cleaned query changes nothing. |
| `Cleaning.CleanKeepsAll` | coparse.py:16 | A query made only of characters that are kept once lower-cased loses nothing; cleaning just lower-cases it. |
| `Cleaning.CleanCaseInsensitive` | index.js:21 | Cleaning the lower-cased query gives the same result as cleaning the query. |
| `Lexer.MatchAt` | index.js:23 | A match starts at `i` iff a digit, or a hint followed by a digit, is there. The match is non-empty and greedy in every group. |
| `Lexer.GreedyToken` | index.js:23 | A greedy match has the pattern's shape: prefix empty, `-` or a letter; value `digits[.digits]`; suffix empty or one letter. Its groups spell out the matched text. |
| `Lexer.GreedyCanStart` | index.js:23 | A match only starts where a digit, or a hint followed by a digit, is. |
| `Lexer.GreedyIsMatchAt` | index.js:23 | The greedy match at a position is unique. |
| `Lexer.DigitsEnd` | index.js:23 | The digit run from `k` is all digits and is maximal. |
| `Lexer.RunEnd` | index.js:23 | Every maximal digit run ends where `DigitsEnd` says. |
| `Lexer.HintLetter` | index.js:23 | On a token of the pattern's shape, a letter is among the hints iff it is the whole prefix or the whole suffix. |
| `Lexer.Scan` | index.js:23-36 | The global scan from a position: at most one match per character left, and the first match is non-empty and lies in the part not yet scanned. `ScanGreedy`, `ScanOrdered` and `ScanCovers` state the rest. |
| `Lexer.ScanGreedy` | index.js:26-37 | Every match the scan returns is greedy and lies at or after the start position. |
| `Lexer.ScanOrdered` | index.js:26-37 | The matches come left to right and do not overlap. |
| `Lexer.ScanCovers` | index.js:26-37 | Every position where a match could start lies inside a returned match, so the scan skips only positions where no match starts. |
| `Lexer.Tokens` | index.js:31-36 | One token per match, read off the query. |
| `Lexer.Parts` | index.js:23-37 | One token per match of the scan. Every token has the pattern's shape. |
| `Lexer.ScanStep` | index.js:26-30 | The scan takes the match at a position and jumps to its end, or skips one position. |
| `Lexer.SkipDigits` | index.js:23 | The digit loop stops at `DigitsEnd`. |
| `Lexer.MatchHere` | index.js:26 | The match read at a start position is `MatchAt`'s. |
| `Lexer.Tokenize` | index.js:23-37 | The index loop returns exactly `Scan`. Each match is non-empty, so the scan always moves forward and the zero-width guard never fires. |
| `Layout.LayoutShift` | coparse.py:21-25 | Field `g` of a Python part is field `g+1` of the index.js part. Field 0 of the index.js part is the whole match text; the Python fields are prefix, value text and suffix. |
| `Layout.JsPart` | index.js:31-35 | A JS part has four fields: the whole match text, then the three groups, which together spell that text. |
| `Layout.PyPart` | coparse.py:21-24 | A Python part has three fields, the groups, which together spell the match text. |
| `Layout.JsParts` | index.js:31-36 | One part per match, holding the whole match then its three groups. |
| `Layout.PyParts` | coparse.py:19-25 | One part per match, holding groups 1 to 3. |
| `Numbers.DigitValue` | index.js:173 | A digit's value is at most 9 and is its distance from `0`. |
| `Numbers.Pow10` | index.js:173 | Powers of ten are positive. |
| `Numbers.NumeralBound` | index.js:173 | A numeral of `n` digits is below `10^n`. |
| `Numbers.FractionBelowOne` | index.js:173 | A fraction with numerator below its denominator lies in [0, 1). |
| `Numbers.Value` | index.js:173-174 | The decimal reading lies in [integer part, integer part + 1). Without a point it is the integer part. |
| `Numbers.Whole` | index.js:373 | `parseInt` of the value is the `parseFloat` reading rounded down: it lies in (reading - 1, reading], and equals the reading when there is no point. |
| `Numbers.PyInt` | coparse.py:239 | `int()` raises iff the value has a point. Otherwise it reads what `parseInt` reads. |
| `Coordinates.FirstFailure` | index.js:179-194 | Gives the first failing position in a check list: every check before it passes, and it is the length iff all pass. |
| `Coordinates.FirstFailureStep` | index.js:179-194 | The first failure from position `i` is found by one step. |
| `Coordinates.Reported` | index.js:179-194 | The reported error is some failing check that follows only checks that pass. |
| `Coordinates.Signed` | index.js:176-177 | `x *= -1` under a hint: a non-negative reading becomes negative iff the hint is set and the reading is nonzero. |
| `Coordinates.Sign` | index.js:263-264 | `Math.sign` is 1, -1 or 0 by the sign of its argument. |
| `Coordinates.CopySign` | coparse.py:152-153 | `copysign` gives the magnitude a negative sign iff the hint is set and the magnitude is nonzero. |
| `Coordinates.Classify` | index.js:50-69 | Counts 2, 3, 4 and 6 give DD, UTM, DM and DMS, each format's arity being that count. Any other count is Unknown. The same chain is at coparse.py:35-54. |
| `Coordinates.ClassifyArity` | coparse.py:35-54 | Each format is recognised from its own arity. |
| `JsConvert.FromDD` | index.js:171-200 | On success the point is the two hint-signed readings, latitude from the second token; it lies strictly inside ±90/±180. |
| `JsConvert.West` | index.js:176 | On a shaped token, the DD longitude hint holds iff a `w` is the prefix or the suffix, or the prefix is `-`. |
| `JsConvert.South` | index.js:177 | On a shaped token, the DD latitude hint holds iff an `s` is the prefix or the suffix, or the prefix is `-`. |
| `JsConvert.DDChecksOrder` | index.js:179-194 | Accepts iff both degree checks pass, latitude first. Otherwise the first failing check is reported. |
| `JsConvert.NorthEastKeepSign` | index.js:176-177 | With only `n`, `e` or no hints, the point is the readings unchanged. |
| `JsConvert.AddMinutes` | index.js:263-264 | `d + sign(d)*m/60` is 0 when the degrees are 0, and otherwise the hint-signed `d + m/60`. |
| `JsConvert.WestDM` | index.js:215-221 | The DM longitude hint is the DD hint of the degrees token, or a `w` suffix on the minutes token. |
| `JsConvert.SouthDM` | index.js:222-228 | The DM latitude hint is the DD hint of the degrees token, or an `s` suffix on the minutes token. |
| `JsConvert.FromDM` | index.js:208-271 | On success each axis is 0 for zero degrees and otherwise the hint-signed `d + m/60`. The hints include the minutes' suffix. The result lies within ±91/±181. |
| `JsConvert.DMChecksOrder` | index.js:230-261 | Accepts iff dlat, dlng, mlat and mlng (minutes in [0, 60)) all pass. Otherwise the first of them that fails is reported. |
| `JsConvert.AddMinutesSeconds` | index.js:352-353 | `d + sign(d)*m/60 + sign(d)*s/3600` is 0 when the degrees are 0, and otherwise the hint-signed sum. |
| `JsConvert.WestDMS` | index.js:288-294 | The DMS longitude hint is the DD hint of the degrees token, or a `w` suffix on the seconds token. The minutes token is not read. |
| `JsConvert.SouthDMS` | index.js:295-301 | The DMS latitude hint is the DD hint of the degrees token, or an `s` suffix on the seconds token. The minutes token is not read. |
| `JsConvert.FromDMS` | index.js:279-360 | On success each axis is 0 for zero degrees and otherwise the hint-signed `d + m/60 + s/3600`. The hints include the seconds' suffix. |
| `JsConvert.DMSChecksOrder` | index.js:303-350 | The order is dlat, dlng, mlng, mlat, slng, slat. mlng is checked in (0, 60) under the latitude label; the others use [0, 60) with swapped labels. The first failure is reported. |
| `JsConvert.CentralMeridian` | index.js:424 | The meridian lies strictly inside the zone's six-degree band. For zones 1 to 60 it lies strictly inside ±180. |
| `JsConvert.GridFrame` | index.js:419-424 | The series gets easting less 500000, the northing less 10000000 in the south, and the central meridian. |
| `JsConvert.SouthUTM` | index.js:369-372 | The zone token is southern exactly when it carries the DD latitude hint. |
| `JsConvert.Project` | index.js:419-437 | The series gets the easting less 500000 and the northing, less 10000000 in the south. The latitude is the series' latitude. The longitude is the zone's central meridian plus the series' offset. |
| `JsConvert.ProjectZoneShift` | index.js:424-437 | The zone only places the point: the same grid position in another zone has the same latitude and a longitude 6 degrees further east per zone. |
| `JsConvert.FromUTM` | index.js:367-407 | On success the point is the projection of the zone `parseInt` reads, the two readings and the `s`/`-` hemisphere. |
| `JsConvert.UTMChecksOrder` | index.js:377-398 | Accepts iff zone in 1..60, easting in [100000, 1000000] and northing in [0, 10000000] all pass, in that order. Otherwise the first failure is reported, which does not depend on the series. |
| `PyConvert.FromDD` | coparse.py:74-107 | On success the point is the two hint-signed readings; it lies strictly inside ±90/±180. |
| `PyConvert.West` | coparse.py:84-85 | On a shaped token, the DD longitude hint holds iff a `w` is the prefix or the suffix, or the prefix is `-`. |
| `PyConvert.South` | coparse.py:86-87 | On a shaped token, the DD latitude hint holds iff an `s` is the prefix or the suffix, or the prefix is `-`. |
| `PyConvert.DDChecksOrder` | coparse.py:89-101 | Latitude is checked first, then longitude. The first failure is reported. |
| `PyConvert.FromDM` | coparse.py:109-159 | On success each axis is the hint-signed `d + m/60`, also when `d` is 0. The result lies within ±91/±181. |
| `PyConvert.WestDM` | coparse.py:121-122 | The DM longitude hint is the DD hint of the degrees token, or a `w` suffix on the minutes token. |
| `PyConvert.SouthDM` | coparse.py:123-124 | The DM latitude hint is the DD hint of the degrees token, or an `s` suffix on the minutes token. |
| `PyConvert.DMChecksOrder` | coparse.py:126-151 | Accepts iff dlat, dlng, mlat and mlng (minutes in (0, 60)) all pass. Otherwise the first failure is reported. |
| `PyConvert.FromDMS` | coparse.py:161-227 | On success each axis is the hint-signed `d + m/60 + s/3600`. |
| `PyConvert.WestDMS` | coparse.py:175-176 | The DMS longitude hint is the DD hint of the degrees token, or a `w` suffix on the seconds token. |
| `PyConvert.SouthDMS` | coparse.py:177-178 | The DMS latitude hint is the DD hint of the degrees token, or an `s` suffix on the seconds token. |
| `PyConvert.DMSChecksOrder` | coparse.py:180-218 | The order is dlat, dlng, mlat, mlng, slat, slng, every minute and second in (0, 60). The first failure is reported. |
| `PyConvert.CentralMeridian` | coparse.py:329 | For every zone above 0 the meridian is `6*zone - 183`; otherwise it is 3. |
| `PyConvert.GridFrame` | coparse.py:276-277 | The series gets 500000 less the easting, 10000000 less the northing in the south, and the central meridian. |
| `PyConvert.SouthUTM` | coparse.py:237-238 | The zone token is southern exactly when it carries the DD latitude hint. |
| `PyConvert.Project` | coparse.py:264-331 | The series gets 500000 less the easting and the northing, measured down from 10000000 in the south. The latitude is the series' latitude, negated in the south. The longitude is the central meridian less the series' offset. |
| `PyConvert.ProjectZoneShift` | coparse.py:329 | For zones above 0, the same grid position in another zone has the same latitude and a longitude 6 degrees further east per zone. |
| `PyConvert.FromUTM` | coparse.py:229-271 | Raises ValueError iff the zone value has a point. On success the point is the projection of the zone, the readings and the hemisphere. |
| `PyConvert.UTMChecksOrder` | coparse.py:243-262 | Without a point in the zone, it accepts iff the three grid checks pass in order. Otherwise the first failure is reported. |
| `JsService.Answer` | index.js:73-87 | Success iff the outcome is a point. On success `x` is the latitude, `y` the longitude, and the display shows the longitude first. Otherwise the message goes under `error_msg`. |
| `JsService.ReplyTo` | index.js:13-91 | "No query sent" under `error` iff the query is absent or empty. "Cannot determine coordinate type" iff the token count is not 2, 3, 4 or 6. The display is always `y x`. |
| `JsService.Respond` | index.js:19-91 | The imperative handler builds exactly the answer `ReplyTo` specifies. |
| `PyService.Answer` | coparse.py:60-70 | Success iff the outcome is a point. On success `x` is the longitude and `y` the latitude. Every message goes under `error`. |
| `PyService.ReplyTo` | coparse.py:4-72 | "No query sent" iff the query is None or empty. "Cannot determine coordinate type" iff the count is not 2, 3, 4 or 6. ValueError iff there are 3 tokens and the zone has a point. The display is always `x y`. |
| `PyService.Parse` | coparse.py:10-72 | The imperative `parse` returns exactly what `ReplyTo` specifies. |
| `Divergence.DDAgree` | coparse.py:81-107 | The two `fromDD` agree on every input. |
| `Divergence.HintsAgree` | coparse.py:84-87 | The `in ["w","-"]` tests of coparse.py and the equality tests of index.js give the same DD, DM, DMS and UTM hints. |
| `Divergence.DMAgree` | coparse.py:116-153 | Python accepts only what index.js accepts. index.js accepts with nonzero minutes implies Python accepts. An index.js refusal with nonzero latitude minutes is Python's too. The points agree for nonzero degrees. |
| `Divergence.DMZeroDegrees` | coparse.py:152-153 | For `-0 30 45 30`, index.js returns longitude 0 and Python returns -0.5. |
| `Divergence.DMZeroMinutes` | coparse.py:146-151 | Zero longitude minutes pass in index.js and fail in Python. |
| `Divergence.DMSAgree` | coparse.py:180-220 | Python accepts only what index.js accepts. The points agree for nonzero degrees. |
| `Divergence.DMSCheckOrder` | index.js:319-334 | For longitude minutes 80 and latitude minutes 70, both report "Latitude minutes": index.js with 80, Python with 70. |
| `Divergence.DMSZeroMinutes` | index.js:319-350 | index.js refuses zero longitude minutes and accepts zero latitude minutes and zero seconds. |
| `Divergence.UTMAgree` | coparse.py:237-262 | For a zone without a point, both accept the same inputs and report the same failure. For a zone with a point, Python raises. |
| `Divergence.MeridiansAgree` | coparse.py:329 | The two central-meridian formulas agree for every zone above 0, and lie within ±177 up to zone 60. |
| `Divergence.FramesMirror` | coparse.py:276-305 | The Python frame negates the easting offset and the southern northing offset of the index.js frame, with the same meridian. |
| `Divergence.AnswersSwapAxes` | coparse.py:67 | For the same outcome, the two results swap `x` and `y`, show the same display, and carry the same reason under different keys. |
| `Divergence.DDRepliesSwapAxes` | coparse.py:61-70 | A DD query is accepted by both or by neither, with the axes swapped and the same failure reason. |
| `Divergence.RepliesIgnoreCase` | index.js:21 | Neither answer depends on the case of the query. |
| `Worked.SpacedHints` | index.js:23 | `45 n 75 w` scans into two bare tokens, 45 and 75. |
| `Worked.JoinedHints` | index.js:23 | `45n 75w` scans into 45 with suffix `n` and 75 with suffix `w`. |
| `Worked.DMBeyondPole` | index.js:230-264 | 89.5 degrees with 59 minutes passes every DM check and gives a latitude past 90, in both implementations. |
| `Worked.HyphenIsWest` | index.js:176 | A leading `-` and a trailing `w` give the same DD outcome. |
| `Worked.EquatorFrames` | index.js:419-424 | Both series get the origin of their plane for zone 33 north at (500000, 0) and for zone 17 south at (500000, 10000000). |
| `Worked.CentralMeridianPoint` | index.js:367-407 | If a series maps the plane's origin to no offset, `33 500000 0` gives latitude 0 and longitude 15 in both implementations. |
| `Worked.SouthEquatorPoint` | index.js:367-407 | If a series maps the plane's origin to no offset, both converters give `17s 500000 10000000` latitude 0 and longitude -81, the central meridian of zone 17. |
| `Worked.QueryCleaned` | index.js:21 | Cleaning `144.9E 37.8S` gives `144.9e 37.8s`. |
| `Worked.QueryScanned` | index.js:23-37 | `144.9e 37.8s` scans into 144.9 with suffix `e` and 37.8 with suffix `s`. |
| `Worked.QueryOutcome` | index.js:171-200 | Both DD converters read that pair as longitude 144.9 and latitude -37.8. |
| `Worked.QueryAnswers` | coparse.py:61-70 | For `144.9E 37.8S`, index.js answers `x` -37.8, `y` 144.9; Python answers `x` 144.9, `y` -37.8. Both display `144.9 -37.8`. |

## Left out

- HTTP glue is not modelled, because it is I/O and output shaping. This covers `res.header`, `res.status().json`, CORS, the `t` output selector, `toCkanAPI` and `toGeojson` (index.js:93-163).
- The debug echo and the recorded `method` name are not modelled. This covers index.js:17, 39-45 and 71, and coparse.py:28-32 and 57-58; none of it changes the answer.
- The inverse Transverse Mercator series (index.js:416-445, coparse.py:279-324) is a parameter. It is floating-point transcendental arithmetic, and the two implementations use different series.
- Display rounding is not modelled, because it is float rounding for presentation only. This covers `Math.round(x*10000)/10000` (index.js:84-86) and `round(x, 6)` (coparse.py:68-69). `display` holds the unrounded pair.
- The observed value inside a message is not rendered as text (`String(lat)`, `str(lat)`). A reason keeps the label and the value, and `Caption` gives the message text before the value.
- There is no IEEE floating point. Readings are exact reals. Signed zero appears only as the hint flag that decides the sign of `copysign`.
- Lower-casing covers ASCII letters only. `toLowerCase` and Python's `lower()` also map non-ASCII letters. A few of those end up as kept ASCII letters, such as the Kelvin sign, which lower-cases to `k`.
- A `q` parameter that is not a string, such as a repeated parameter that Express delivers as an array, is not modelled.
- Python 3 is not modelled; coparse.py is treated as Python 2. Under Python 3, `re.finditer` with a text pattern on the bytes of `.encode('ascii', 'ignore')` raises TypeError. Under Python 2 that encoding changes nothing, because the cleaned query is already ASCII.
- Undeclared globals in index.js (`query`, `lat`, `lng`) are modelled as locals.
- tests/tests.py is not part of this model. It is a print-based test script over a data file that is not available.
