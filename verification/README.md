# Flight dashboard: marker reconciliation and the OpenSky feed filter

This project models two parts of a small flight-tracking dashboard and proves
properties about them.

**The live map** (`Markers`, in `markers.dfy`). The browser polls
`/api/flights/` and gets back an array of flight records. `updateFlights`
then reconciles the dictionary `flightMarkers`, keyed by callsign, against
that array, in place:

- A callsign that already has a marker gets the same marker moved and rotated.
- An unseen callsign gets a new marker. Its click handler captures the record.
- Every callsign missing from the array loses its marker. The marker is
  removed from the map and deleted from the dictionary.
- A payload that is not an array throws before any change is made.

The class `FlightLayer` holds `flightMarkers`. It also keeps a ghost set
`onMap` of the markers currently added to the Leaflet map. Its methods follow
the two `forEach` loops step by step. Each method is proved equal to a pure
function (`Upsert`, `UpsertAll`, `Reconcile`, `Poll`), and the lemmas state
what those functions promise.

**The feed filter** (`FlightFeed`, in `flightfeed.dfy`, on top of `PyJson`, in
`pyjson.dfy`). The Django view `flight_data` checks the OpenSky reply and
walks its `states` rows. It drops a row when any of these holds:

- the row is falsy or has fewer than 8 entries;
- its latitude or longitude is null;
- its position lies 5 degrees or more from Boston (42.3601, -71.0589), on
  either axis;
- converting it raises ValueError, TypeError or IndexError.

Every other row is normalised into a 17-slot row with defaults for missing
fields. `PyJson` models the Python semantics this relies on:

- truthiness, `or`, `len`, subscripting and `dict.get`;
- `str.strip` over Python's whitespace set;
- `float()` and `int()` on numbers, booleans, strings and containers, with the
  exception each one raises.

`Keys`, `Or`, `Len`, `Index` and `StripMethod` are definitions of Python's
built-ins, written case by case as Python defines them; the lemmas in the table
state the laws the view relies on.

The method `FlightData` runs the loop as the source does, with `continue` and
the inner `try`. It is proved to return `Respond(reply)`, the view as a
function of the reply.

**Where the code and its evident intent differ.** The inner `try` of the loop
(views.py:44-74) evidently means a malformed record to be skipped on its own
while the rest of the batch still applies. The code skips a row only when the
error is one the inner `except (ValueError, TypeError, IndexError)` catches.
Three modelled errors escape to the outer `except Exception`, and the whole
view answers with an error (status 500):

- a truthy callsign that is not a string (`.strip()` raises AttributeError);
- a row that is a JSON object of 8 keys or more (`state[6]` raises KeyError);
- a row that is a number or `true` (`len()` raises TypeError, outside the
  inner `try`).

The model follows the code (`NonStringCallsignFailsRow`,
`ProcessedOkIffNoEscape`). An OverflowError from `float()` or `int()` escapes
in the same way; it is not modelled (see "Left out"). One might also expect a
record without a valid position or callsign never to create a marker.
`updateFlights` does not check either one; the model follows the code and takes
every record as given.

## Model

| member | source | states |
|---|---|---|
| Markers.RotationIsParsedHeadingOrZero | flight_dashboard/dashboard/static/dashboard/js/map.js:94-99 | the rotation is the parsed heading, or 0 when `parseFloat` gives NaN |
| Markers.Callsigns | flight_dashboard/dashboard/static/dashboard/js/map.js:85-89 | every record's callsign is in `activeFlight` |
| Markers.CallsignsMember | flight_dashboard/dashboard/static/dashboard/js/map.js:85-89 | a callsign is in `activeFlight` if and only if some record carries it |
| Markers.UpsertAll | flight_dashboard/dashboard/static/dashboard/js/map.js:87-110 | after the first loop the keys are the old keys plus the snapshot's callsigns, and the marker counter never goes back |
| Markers.UpsertAllUntouched | flight_dashboard/dashboard/static/dashboard/js/map.js:87-110 | the first loop leaves a marker whose callsign the snapshot does not mention exactly as it was |
| Markers.UpsertAllKeepsIdentity | flight_dashboard/dashboard/static/dashboard/js/map.js:91-94 | an existing marker keeps its identity and the record its click handler captured |
| Markers.UpsertAllLast | flight_dashboard/dashboard/static/dashboard/js/map.js:87-110 | position and rotation come from the last record with that callsign |
| Markers.UpsertAllFresh | flight_dashboard/dashboard/static/dashboard/js/map.js:95-108 | a callsign first seen at index i gets a never-used marker identity, bound to record i |
| Markers.UpsertAllCount | flight_dashboard/dashboard/static/dashboard/js/map.js:95-108 | the counter advances once per distinct callsign that had no marker |
| Markers.UpsertAllWellFormed | flight_dashboard/dashboard/static/dashboard/js/map.js:87-110 | the first loop keeps identities distinct and below the counter |
| Markers.ReconcileKeys | flight_dashboard/dashboard/static/dashboard/js/map.js:85-118 | after a poll the dictionary's keys are exactly the snapshot's callsigns |
| Markers.ReconcileKeepsExisting | flight_dashboard/dashboard/static/dashboard/js/map.js:91-94 | a known callsign keeps the same marker object and captured record, at its last record's position and rotation |
| Markers.ReconcileCreatesNew | flight_dashboard/dashboard/static/dashboard/js/map.js:95-108 | an unknown callsign gets a fresh marker bound to its first record, placed at its last record |
| Markers.ReconcileCreationCount | flight_dashboard/dashboard/static/dashboard/js/map.js:95-108 | exactly one marker is created per distinct new callsign |
| Markers.ReconcileWellFormed | flight_dashboard/dashboard/static/dashboard/js/map.js:85-118 | a poll keeps the one-marker-per-callsign invariant |
| Markers.ReconcileRemovesStale | flight_dashboard/dashboard/static/dashboard/js/map.js:112-118 | a callsign absent from the snapshot loses its entry and its marker leaves the map; a present one is never removed |
| Markers.PollRejectsNonArray | flight_dashboard/dashboard/static/dashboard/js/map.js:80-82 | a non-array payload leaves the dictionary unchanged |
| Markers.ReconcileIdempotent | flight_dashboard/dashboard/static/dashboard/js/map.js:85-118 | polling the same snapshot twice changes nothing the second time |
| Markers.FlightLayer.constructor | flight_dashboard/dashboard/static/dashboard/js/map.js:10 | the dictionary starts empty, with nothing on the map |
| Markers.FlightLayer.UpdateFlights | flight_dashboard/dashboard/static/dashboard/js/map.js:75-123 | the new state is `Poll` of the old one; it reports failure exactly for a non-array payload, and then the map is untouched |
| Markers.FlightLayer.UpsertFlights | flight_dashboard/dashboard/static/dashboard/js/map.js:85-110 | the first `forEach` gives `UpsertAll` and collects `Callsigns` into `activeFlight` |
| Markers.FlightLayer.Track | flight_dashboard/dashboard/static/dashboard/js/map.js:88-109 | one record updates or creates its marker as `Upsert` says, keeping `onMap` in step |
| Markers.FlightLayer.RemoveStale | flight_dashboard/dashboard/static/dashboard/js/map.js:112-118 | the second `forEach` keeps exactly the active keys and removes the others' markers from the map |
| PyJson.Get | flight_dashboard/dashboard/views.py:77 | `dict.get` finds a value exactly when the key is present, and the value is bound to it |
| PyJson.GetLastBinding | flight_dashboard/dashboard/views.py:77 | the value found is that of the last member with the key; no later member carries it |
| PyJson.OrTruthy | flight_dashboard/dashboard/views.py:54-70 | `a or b` is one of its operands, and is truthy exactly when a or b is |
| PyJson.IndexWithinLen | flight_dashboard/dashboard/views.py:41-70 | `v[k]` succeeds exactly when v is a list or string and k is below its `len` |
| PyJson.DictLen | flight_dashboard/dashboard/views.py:41 | `len` of a dict is at most its number of members, and equal to it when no key repeats |
| PyJson.StripMethodIdempotent | flight_dashboard/dashboard/views.py:55 | `.strip()` succeeds exactly on a string, and stripping its result again changes nothing |
| PyJson.StripSlice | flight_dashboard/dashboard/views.py:55 | the stripped string is a slice of the original with only whitespace around it |
| PyJson.Trunc | flight_dashboard/dashboard/views.py:70 | `int()` of a float truncates toward zero |
| PyJson.Float | flight_dashboard/dashboard/views.py:46-47 | `float()` keeps a number, raises TypeError on None and containers, and otherwise raises only TypeError or ValueError (OverflowError is not modelled) |
| PyJson.Int | flight_dashboard/dashboard/views.py:77 | `int()` truncates a number, raises TypeError on None and containers, and otherwise raises only TypeError or ValueError (OverflowError is not modelled) |
| PyJson.IntRoundTrip | flight_dashboard/dashboard/views.py:70 | `int()` of the decimal text of any integer gives that integer back |
| PyJson.FloatOfIntRoundTrip | flight_dashboard/dashboard/views.py:46-47 | `float()` of the decimal text of any integer gives that integer as a number |
| FlightFeed.BuildSlot | flight_dashboard/dashboard/views.py:53-71 | each position of the built list holds what its slot evaluates to, in the order of the literal |
| FlightFeed.BuildRaises | flight_dashboard/dashboard/views.py:53-71 | a failed list literal failed on one of its slots, with that slot's exception |
| FlightFeed.FlightData | flight_dashboard/dashboard/views.py:24-83 | the loop with `continue` and the inner `try` answers exactly `Respond(reply)` |
| FlightFeed.RespondRejectsBadReplies | flight_dashboard/dashboard/views.py:28-36 | a non-200 status gives that status's error; a body that is not a dict with `states` gives "Invalid data format"; status 200 if and only if served |
| FlightFeed.ServedReply | flight_dashboard/dashboard/views.py:76-79 | a good reply is served with the built rows and the truncated `time`, which defaults to 0 |
| FlightFeed.ShortRowSkipped | flight_dashboard/dashboard/views.py:41-42 | a falsy row or one shorter than 8 is passed over |
| FlightFeed.NullPositionDropped | flight_dashboard/dashboard/views.py:45 | a row with a null latitude or longitude is passed over |
| FlightFeed.OutsideBoxDropped | flight_dashboard/dashboard/views.py:49-52 | a row whose position is 5 degrees or more from the centre on either axis is passed over |
| FlightFeed.CaughtErrorSkipsOnlyThatRow | flight_dashboard/dashboard/views.py:72-74 | a caught ValueError, TypeError or IndexError drops only its own row |
| FlightFeed.SkippedRowInvisible | flight_dashboard/dashboard/views.py:40-42 | a passed-over row leaves no trace in the output |
| FlightFeed.CollectStopsAtRaise | flight_dashboard/dashboard/views.py:81-83 | an escaping exception ends the loop; later rows change nothing |
| FlightFeed.StringRowSkipped | flight_dashboard/dashboard/views.py:40-47 | a string row (from a string or dict `states`) is always passed over |
| FlightFeed.EmittedRowShape | flight_dashboard/dashboard/views.py:53-71 | an emitted row came from a list of at least 17 entries with a non-null position inside the box, and has 17 slots: the converted position, the stripped callsign or "", numbers and booleans where the source converts |
| FlightFeed.FillFits | flight_dashboard/dashboard/views.py:57-70 | the `float`/`int` slots and the position slots hold numbers, the `bool` slots booleans |
| FlightFeed.BuiltCallsign | flight_dashboard/dashboard/views.py:55 | the callsign slot is the stripped string when the cell is truthy, "" otherwise |
| FlightFeed.OpenSkySlot | flight_dashboard/dashboard/views.py:54-70 | no slot of an OpenSky-shaped row raises |
| FlightFeed.OpenSkyRowKeptIffInBox | flight_dashboard/dashboard/views.py:44-71 | on OpenSky-shaped rows nothing raises, and a row is kept if and only if it has a position inside the box |
| FlightFeed.FilterMapOrder | flight_dashboard/dashboard/views.py:38-74 | the loop is an order-preserving filter-map: each output row is the normal form of an input row, sources increase, and every other row was passed over |
| FlightFeed.ProcessedOkIffNoEscape | flight_dashboard/dashboard/views.py:38-83 | the loop finishes if and only if no row raises an exception the inner `except` lets through |
| FlightFeed.NonStringCallsignFailsRow | flight_dashboard/dashboard/views.py:55 | a truthy non-string callsign in a kept position raises AttributeError, which escapes the loop |

## Left out

- The HTTP requests (`fetch`, `requests.get`) are left out. Their results are parameters: the decoded `Payload`, and the `Reply` with its status and decoded body.
- A failed fetch or JSON decode in `updateFlights` is caught the same way as a non-array payload. `NotArray` stands for all of them.
- The request timeout and its exception are left out; they are I/O.
- Leaflet setup, the plane icon, the radius circles and the CSS are left out. So is the 5-second `setInterval` timer.
- The click handler's effect (`formatFlightInfo`, `updateWeather`) is left out. Only the record it captures is modelled, as `Marker.detail`.
- The `dashboard`, `weather_data` and `video_feed` views and the URL table are left out. They are outside both cores.
- The two cores are not connected. The client expects an array of named-field records. The view returns `{time, states}` of positional rows. Each side is modelled on its own input.
- `Flight` holds the fields `updateFlights` reads. `heading` is already the result of `parseFloat`; its string parsing is not modelled.
- Callsigns are strings. JavaScript would turn a non-string callsign into a string key of the object while the `Set` keeps the raw value; that mismatch is not modelled. The special keys of a plain JavaScript object (`__proto__`, inherited names such as `constructor`) are not modelled either.
- Any throw inside the first `forEach` is not modelled: a `null` record (`flight.callsign` throws), a position Leaflet rejects, or an inherited key. In the source such a throw leaves the earlier records applied and skips the removal of stale markers; the model treats every record as a `Flight` with plain-number positions, so `UpdateFlights` is all-or-nothing.
- `JsNumber` has no ±Infinity: `parseFloat("Infinity") || 0` gives Infinity, which the model does not represent, so an infinite parsed heading is not modelled.
- The order in which `Object.keys` deletes stale markers is left out. The result does not depend on it.
- `Json.Num` holds a real. The model does not tell a JSON integer from a float in the output row, and floating-point rounding is not modelled.
- `PyJson.Float` leaves out `inf`, `nan`, underscores and non-ASCII digits in strings. It accepts decimal literals with a sign, a fraction and an exponent.
- `PyJson.Float` does not model OverflowError: `float()` of a JSON integer beyond the range of a double raises it in Python, and the inner `except` does not catch it, so the view answers 500. In the model `Float(Num(x))` always succeeds.
- `PyJson.Int` leaves out underscores, non-ASCII digits and Python's limit on the number of digits in a string.
- `PyJson.Int` does not model OverflowError: `json.loads` reads `1e400` as `inf`, and `int()` of an infinite float raises OverflowError, which escapes both at the `position_source` slot and at `int(data.get("time", 0))`. In the model `Int(Num(x))` always succeeds.
- The error message texts and the `print` logging are left out. A failure is modelled by the exception kind only.
- `len()` of a dict counts distinct keys. The JSON decoder's handling of a repeated key is modelled as "the last binding wins".
