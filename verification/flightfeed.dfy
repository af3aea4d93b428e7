/** The `flight_data` view of views.py: it checks the OpenSky reply, walks its
    `states` rows, drops the rows that are short, lack a position, lie outside
    a box of 5 degrees around Boston or fail to convert, and normalises every
    other row to 17 slots with defaults for missing fields.

    `ProcessState` states what happens to one row, `Processed` what the loop
    builds from all of them, and `Respond` the whole view; the method
    `FlightData` runs the loop the way the source does (with `continue` and the
    inner `try`) and is proved to give `Respond`. */
module FlightFeed {
  import opened PyJson

  /** `LAT, LON`: the fixed centre (Boston). */
  const CentreLat: real := 42.3601
  const CentreLon: real := -71.0589

  /** A normalised state row: 17 JSON values. */
  type Row = seq<Json>

  function Abs(x: real): real
  {
    if x < 0.0 then -x else x
  }

  /** `lat_diff < 5 and lon_diff < 5` */
  predicate InBox(lat: real, lon: real)
  {
    Abs(lat - CentreLat) < 5.0 && Abs(lon - CentreLon) < 5.0
  }

  /** How the emitted list literal fills a slot from the row's cell `v`. */
  datatype Fill =
    | TextOr     // v or ""
    | Callsign   // v.strip() if v else ""
    | ZeroOr     // v or 0
    | Longitude  // the converted lon; the cell is not read again
    | Latitude   // the converted lat
    | FloatOr    // float(v or 0)
    | Flag       // bool(v) if v is not None else False
    | NoneOr     // v or None
    | IntOr      // int(v or 0)

  /** The 17 slots of the emitted row, in order: icao24, callsign, origin
      country, time position, last contact, longitude, latitude, altitude,
      on ground, velocity, heading, vertical rate, sensors, barometric
      altitude, squawk, spi, position source. */
  const Layout: seq<Fill> :=
    [TextOr, Callsign, TextOr, ZeroOr, ZeroOr, Longitude, Latitude, FloatOr, Flag,
     FloatOr, FloatOr, FloatOr, NoneOr, FloatOr, TextOr, Flag, IntOr]

  /** Which slot is filled how, one slot at a time. */
  lemma LayoutSlots()
    ensures |Layout| == 17
    ensures Layout[0] == TextOr && Layout[1] == Callsign && Layout[2] == TextOr
    ensures Layout[3] == ZeroOr && Layout[4] == ZeroOr && Layout[5] == Longitude && Layout[6] == Latitude
    ensures Layout[7] == FloatOr && Layout[8] == Flag && Layout[9] == FloatOr && Layout[10] == FloatOr
    ensures Layout[11] == FloatOr && Layout[12] == NoneOr && Layout[13] == FloatOr
    ensures Layout[14] == TextOr && Layout[15] == Flag && Layout[16] == IntOr
  {
  }

  /** Filling one slot from the cell `v`. */
  function FillFrom(f: Fill, v: Json, lat: real, lon: real): Outcome<Json>
  {
    match f
    case TextOr => Ok(Or(v, Str("")))
    case Callsign => if Truthy(v) then StripMethod(v) else Ok(Str(""))
    case ZeroOr => Ok(Or(v, Num(0.0)))
    case Longitude => Ok(Num(lon))
    case Latitude => Ok(Num(lat))
    case FloatOr =>
      (match Float(Or(v, Num(0.0)))
       case Ok(x) => Ok(Num(x))
       case Raise(e) => Raise(e))
    case Flag => Ok(Bool(!v.Null? && Truthy(v)))
    case NoneOr => Ok(Or(v, Null))
    case IntOr =>
      (match Int(Or(v, Num(0.0)))
       case Ok(i) => Ok(Num(i as real))
       case Raise(e) => Raise(e))
  }

  /** Slot `k` of the emitted list literal, filled as `f` says from the row
      `state`; `lat` and `lon` are the converted coordinates. */
  function Slot(state: Json, k: nat, f: Fill, lat: real, lon: real): Outcome<Json>
  {
    if f == Longitude then Ok(Num(lon))
    else if f == Latitude then Ok(Num(lat))
    else
      match Index(state, k)
      case Raise(e) => Raise(e)
      case Ok(v) => FillFrom(f, v, lat, lon)
  }

  /** The list literal from slot `k` on, evaluated left to right: the first
      slot that raises decides the exception. The view builds it with
      `layout` = `Layout`. */
  function Build(state: Json, lat: real, lon: real, layout: seq<Fill>, k: nat): (r: Outcome<Row>)
    requires k <= |layout|
    ensures r.Ok? ==> |r.value| == |layout| - k
    decreases |layout| - k
  {
    if k == |layout| then Ok([])
    else
      match Slot(state, k, layout[k], lat, lon)
      case Raise(e) => Raise(e)
      case Ok(v) =>
        match Build(state, lat, lon, layout, k + 1)
        case Raise(e) => Raise(e)
        case Ok(rest) => Ok([v] + rest)
  }

  /** A built row holds, at each position, what its slot evaluates to. */
  lemma {:induction false} BuildSlot(state: Json, lat: real, lon: real, layout: seq<Fill>, k: nat, j: nat)
    requires k <= j < |layout| && Build(state, lat, lon, layout, k).Ok?
    ensures Slot(state, j, layout[j], lat, lon) == Ok(Build(state, lat, lon, layout, k).value[j - k])
    decreases j - k
  {
    if k < j {
      BuildSlot(state, lat, lon, layout, k + 1, j);
    }
  }

  /** A failed build failed on one of its slots, with that slot's exception. */
  lemma {:induction false} BuildRaises(state: Json, lat: real, lon: real, layout: seq<Fill>, k: nat) returns (j: nat)
    requires k <= |layout| && Build(state, lat, lon, layout, k).Raise?
    ensures k <= j < |layout| && Slot(state, j, layout[j], lat, lon) == Raise(Build(state, lat, lon, layout, k).exc)
    decreases |layout| - k
  {
    if Slot(state, k, layout[k], lat, lon).Raise? {
      j := k;
    } else {
      j := BuildRaises(state, lat, lon, layout, k + 1);
    }
  }

  /** The body of the inner `try`, for a truthy row of length at least 8:
      `Ok(None)` where the row is passed over, `Ok(Some(row))` where it is appended. */
  function Convert(state: Json): Outcome<Option<Row>>
  {
    match Index(state, 6)
    case Raise(e) => Raise(e)
    case Ok(latCell) =>
      if latCell.Null? then Ok(None)
      else
        match Index(state, 5)
        case Raise(e) => Raise(e)
        case Ok(lonCell) =>
          if lonCell.Null? then Ok(None)
          else
            match Float(latCell)
            case Raise(e) => Raise(e)
            case Ok(lat) =>
              match Float(lonCell)
              case Raise(e) => Raise(e)
              case Ok(lon) =>
                if !InBox(lat, lon) then Ok(None)
                else
                  match Build(state, lat, lon, Layout, 0)
                  case Raise(e) => Raise(e)
                  case Ok(row) => Ok(Some(row))
  }

  /** The exceptions `except (ValueError, TypeError, IndexError)` catches. */
  predicate Caught(e: Exc)
  {
    e == ValueError || e == TypeError || e == IndexError
  }

  /** One iteration of the `for` loop. `Raise` is an exception that escapes the
      loop (to the outer `except Exception`). */
  function ProcessState(state: Json): Outcome<Option<Row>>
  {
    if !Truthy(state) then Ok(None)
    else
      match Len(state)
      case Raise(e) => Raise(e)
      case Ok(n) =>
        if n < 8 then Ok(None)
        else
          match Convert(state)
          case Raise(e) => if Caught(e) then Ok(None) else Raise(e)
          case Ok(r) => Ok(r)
  }

  /** What one iteration of the loop does with a row. */
  type Verdict = Outcome<Option<Row>>

  /** `[f(x) for x in xs]` */
  function Map<A, B>(f: A -> B, xs: seq<A>): (r: seq<B>)
    ensures |r| == |xs| && forall i :: 0 <= i < |xs| ==> r[i] == f(xs[i])
  {
    seq(|xs|, i requires 0 <= i < |xs| => f(xs[i]))
  }

  lemma MapAppend<A, B>(f: A -> B, a: seq<A>, b: seq<A>)
    ensures Map(f, a + b) == Map(f, a) + Map(f, b)
  {
    var l, r := Map(f, a + b), Map(f, a) + Map(f, b);
    forall i | 0 <= i < |a + b|
      ensures l[i] == r[i]
    {
      if i < |a| {
        assert (a + b)[i] == a[i];
      } else {
        assert (a + b)[i] == b[i - |a|];
      }
    }
  }

  /** The verdict on each row. */
  function Verdicts(states: seq<Json>): seq<Verdict>
  {
    Map(ProcessState, states)
  }

  /** One more iteration: append the row, pass over it, or stop with its exception. */
  function Step(acc: Outcome<seq<Row>>, v: Verdict): Outcome<seq<Row>>
  {
    match acc
    case Raise(e) => Raise(e)
    case Ok(out) =>
      match v
      case Raise(e) => Raise(e)
      case Ok(None) => Ok(out)
      case Ok(Some(row)) => Ok(out + [row])
  }

  /** The loop over rows with verdicts `vs`: `processed_states` once it is
      done, or the first exception that escaped it. */
  function Collect(vs: seq<Verdict>): Outcome<seq<Row>>
    decreases |vs|
  {
    if vs == [] then Ok([]) else Step(Collect(vs[..|vs| - 1]), vs[|vs| - 1])
  }

  /** The loop of `flight_data` over the rows `states`. */
  function Processed(states: seq<Json>): Outcome<seq<Row>>
  {
    Collect(Verdicts(states))
  }

  /** Sequential composition of two runs of the loop. */
  function Concat(x: Outcome<seq<Row>>, y: Outcome<seq<Row>>): Outcome<seq<Row>>
  {
    match x
    case Raise(e) => Raise(e)
    case Ok(p) =>
      match y
      case Raise(e) => Raise(e)
      case Ok(q) => Ok(p + q)
  }

  lemma StepConcat(x: Outcome<seq<Row>>, y: Outcome<seq<Row>>, v: Verdict)
    ensures Step(Concat(x, y), v) == Concat(x, Step(y, v))
  {
    if x.Ok? && y.Ok? && v.Ok? && v.value.Some? {
      assert x.value + (y.value + [v.value.value]) == x.value + y.value + [v.value.value];
    }
  }

  /** The loop over `a + b` is the loop over `a` followed by the loop over `b`. */
  lemma {:induction false} CollectAppend(a: seq<Verdict>, b: seq<Verdict>)
    ensures Collect(a + b) == Concat(Collect(a), Collect(b))
    decreases |b|
  {
    if b == [] {
      assert a + b == a;
      if Collect(a).Ok? {
        assert Collect(a).value + [] == Collect(a).value;
      }
    } else {
      var b' := b[..|b| - 1];
      assert (a + b)[..|a + b| - 1] == a + b';
      assert (a + b)[|a + b| - 1] == b[|b| - 1];
      CollectAppend(a, b');
      StepConcat(Collect(a), Collect(b'), b[|b| - 1]);
    }
  }

  /** An exception that escapes one row ends the loop: the rows after it change nothing. */
  lemma CollectStopsAtRaise(vs: seq<Verdict>, i: nat)
    requires i <= |vs| && Collect(vs[..i]).Raise?
    ensures Collect(vs) == Collect(vs[..i])
  {
    assert vs == vs[..i] + vs[i..];
    CollectAppend(vs[..i], vs[i..]);
  }

  /** A passed-over row leaves no trace. */
  lemma CollectSkip(a: seq<Verdict>, b: seq<Verdict>)
    ensures Collect(a + [Ok(None)] + b) == Collect(a + b)
  {
    CollectAppend(a + [Ok(None)], b);
    CollectAppend(a, [Ok(None)]);
    CollectAppend(a, b);
    var skip: seq<Verdict> := [Ok(None)];
    assert skip[..0] == [];
    if Collect(a).Ok? {
      assert Collect(a).value + [] == Collect(a).value;
    }
  }

  /** The loop finishes exactly when no verdict is an exception. */
  lemma {:induction false} CollectOkIff(vs: seq<Verdict>)
    ensures Collect(vs).Ok? <==> forall i :: 0 <= i < |vs| ==> vs[i].Ok?
    decreases |vs|
  {
    if vs != [] {
      var p := vs[..|vs| - 1];
      CollectOkIff(p);
      assert forall i :: 0 <= i < |p| ==> p[i] == vs[i];
    }
  }

  /** The positions of the appended rows. */
  function Kept(vs: seq<Verdict>): (r: seq<nat>)
    ensures forall j :: 0 <= j < |r| ==> r[j] < |vs|
    decreases |vs|
  {
    if vs == [] then []
    else if vs[|vs| - 1].Ok? && vs[|vs| - 1].value.Some? then Kept(vs[..|vs| - 1]) + [|vs| - 1]
    else Kept(vs[..|vs| - 1])
  }

  lemma {:induction false} KeptMatchesOutput(vs: seq<Verdict>)
    requires Collect(vs).Ok?
    ensures var out, src := Collect(vs).value, Kept(vs);
      && |src| == |out|
      && forall j :: 0 <= j < |src| ==> vs[src[j]] == Ok(Some(out[j]))
    decreases |vs|
  {
    if vs != [] {
      var p := vs[..|vs| - 1];
      KeptMatchesOutput(p);
      assert forall i :: 0 <= i < |p| ==> p[i] == vs[i];
    }
  }

  lemma {:induction false} KeptIncreasing(vs: seq<Verdict>)
    ensures forall j, j' :: 0 <= j < j' < |Kept(vs)| ==> Kept(vs)[j] < Kept(vs)[j']
    decreases |vs|
  {
    if vs != [] {
      KeptIncreasing(vs[..|vs| - 1]);
    }
  }

  lemma {:induction false} KeptCoversAppended(vs: seq<Verdict>)
    requires Collect(vs).Ok?
    ensures forall i :: 0 <= i < |vs| && i !in Kept(vs) ==> vs[i] == Ok(None)
    decreases |vs|
  {
    if vs != [] {
      var p := vs[..|vs| - 1];
      KeptCoversAppended(p);
      CollectOkIff(vs);
      assert forall i :: 0 <= i < |p| ==> p[i] == vs[i];
    }
  }

  /** What `for state in data["states"]` walks: the items of a list, the
      characters of a string, the keys of a dictionary. Anything else is not
      iterable. (A key repeated in the JSON text would be walked once by
      Python; every row walked here for a dictionary is a string, and string
      rows are always passed over, see `StringRowSkipped`.) */
  function Iterate(v: Json): Outcome<seq<Json>>
  {
    match v
    case Arr(items) => Ok(items)
    case Str(s) => Ok(seq(|s|, i requires 0 <= i < |s| => Str([s[i]])))
    case Obj(fields) => Ok(seq(|fields|, i requires 0 <= i < |fields| => Str(fields[i].0)))
    case _ => Raise(TypeError)
  }

  /** The reply of the OpenSky request: the status code, and the decoded body
      (None when `response.json()` fails). */
  datatype Reply = Reply(status: int, body: Option<Json>)

  /** What the view answers. Every case but `Served` is sent with status 500. */
  datatype Response =
    | Served(time: int, states: seq<Row>)
    | BadStatus(code: int)
    | InvalidFormat
    | Failed(exc: Exc)

  function HttpStatus(r: Response): int
  {
    if r.Served? then 200 else 500
  }

  /** The view as a function of the reply. */
  function Respond(reply: Reply): Response
  {
    if reply.status != 200 then BadStatus(reply.status)
    else
      match reply.body
      case None => Failed(DecodeError)
      case Some(data) =>
        if !data.Obj? || "states" !in Keys(data.fields) then InvalidFormat
        else
          match Iterate(Get(data.fields, "states").value)
          case Raise(e) => Failed(e)
          case Ok(states) =>
            match Processed(states)
            case Raise(e) => Failed(e)
            case Ok(out) =>
              match Int(GetOr(data.fields, "time", Num(0.0)))
              case Raise(e) => Failed(e)
              case Ok(t) => Served(t, out)
  }

  /** `flight_data`, from the point the OpenSky reply has arrived. */
  method FlightData(reply: Reply) returns (resp: Response)
    ensures resp == Respond(reply)
  {
    if reply.status != 200 {
      return BadStatus(reply.status);
    }
    if reply.body.None? {
      return Failed(DecodeError);
    }
    var data := reply.body.value;
    if !data.Obj? || "states" !in Keys(data.fields) {
      return InvalidFormat;
    }
    var iterated := Iterate(Get(data.fields, "states").value);
    if iterated.Raise? {
      return Failed(iterated.exc);
    }
    var states := iterated.value;
    ghost var verdicts := Verdicts(states);
    var processed: seq<Row> := [];
    var i := 0;
    while i < |states|
      invariant 0 <= i <= |states|
      invariant Collect(verdicts[..i]) == Ok(processed)
    {
      var state := states[i];
      i := i + 1;
      assert verdicts[..i][..i - 1] == verdicts[..i - 1];
      assert verdicts[i - 1] == ProcessState(state);
      if !Truthy(state) {
        continue;
      }
      var n := Len(state);
      if n.Raise? {
        CollectStopsAtRaise(verdicts, i);
        return Failed(n.exc);
      }
      if n.value < 8 {
        continue;
      }
      var converted := Convert(state);  // the inner try
      if converted.Raise? {
        if Caught(converted.exc) {
          continue;
        }
        CollectStopsAtRaise(verdicts, i);
        return Failed(converted.exc);
      }
      if converted.value.Some? {
        processed := processed + [converted.value.value];
      }
    }
    assert verdicts[..i] == verdicts;
    var time := Int(GetOr(data.fields, "time", Num(0.0)));
    if time.Raise? {
      return Failed(time.exc);
    }
    return Served(time.value, processed);
  }

  /** A reply with a status other than 200 is answered with that status's
      error; a body that is not a dictionary with a `states` key is answered
      with "Invalid data format"; only a served answer carries status 200. */
  lemma RespondRejectsBadReplies(reply: Reply)
    ensures reply.status != 200 ==> Respond(reply) == BadStatus(reply.status)
    ensures (reply.status == 200 && reply.body.Some? &&
             (!reply.body.value.Obj? || "states" !in Keys(reply.body.value.fields)))
            ==> Respond(reply) == InvalidFormat
    ensures Respond(reply).Served? ==>
      reply.status == 200 && reply.body.Some? && reply.body.value.Obj? && "states" in Keys(reply.body.value.fields)
    ensures HttpStatus(Respond(reply)) == 200 <==> Respond(reply).Served?
  {
  }

  /** A well-formed reply is served with the rows the loop built and the
      truncated `time`, which defaults to 0 when the key is absent. */
  lemma ServedReply(fields: seq<(string, Json)>, states: seq<Json>)
    requires Get(fields, "states") == Some(Arr(states)) && Processed(states).Ok?
    ensures Get(fields, "time").None? ==>
      Respond(Reply(200, Some(Obj(fields)))) == Served(0, Processed(states).value)
    ensures (Get(fields, "time").Some? && Get(fields, "time").value.Num?) ==>
      Respond(Reply(200, Some(Obj(fields)))) == Served(Trunc(Get(fields, "time").value.x), Processed(states).value)
  {
  }

  /** An empty or falsy row, or one with fewer than 8 entries, is passed over. */
  lemma ShortRowSkipped(state: Json)
    requires !Truthy(state) || (Len(state).Ok? && Len(state).value < 8)
    ensures ProcessState(state) == Ok(None)
  {
  }

  /** A row whose latitude (index 6) or longitude (index 5) is null is passed over. */
  lemma NullPositionDropped(items: seq<Json>)
    requires |items| >= 8 && (items[6].Null? || items[5].Null?)
    ensures ProcessState(Arr(items)) == Ok(None)
  {
  }

  /** A row whose converted position lies outside the box is passed over. */
  lemma OutsideBoxDropped(items: seq<Json>, lat: real, lon: real)
    requires |items| >= 8 && !items[6].Null? && !items[5].Null?
    requires Float(items[6]) == Ok(lat) && Float(items[5]) == Ok(lon)
    requires !InBox(lat, lon)
    ensures ProcessState(Arr(items)) == Ok(None)
  {
  }

  /** A ValueError, TypeError or IndexError inside the `try` skips only its
      own row: the output is as if the row were not there. */
  lemma CaughtErrorSkipsOnlyThatRow(before: seq<Json>, state: Json, after: seq<Json>)
    requires Truthy(state) && Len(state).Ok? && Len(state).value >= 8
    requires Convert(state).Raise? && Caught(Convert(state).exc)
    ensures ProcessState(state) == Ok(None)
    ensures Processed(before + [state] + after) == Processed(before + after)
  {
    SkippedRowInvisible(before, state, after);
  }

  /** A row the loop passes over leaves no trace in the output. */
  lemma SkippedRowInvisible(before: seq<Json>, state: Json, after: seq<Json>)
    requires ProcessState(state) == Ok(None)
    ensures Processed(before + [state] + after) == Processed(before + after)
  {
    MapAppend(ProcessState, before + [state], after);
    MapAppend(ProcessState, before, [state]);
    MapAppend(ProcessState, before, after);
    assert Verdicts([state]) == [Ok(None)];
    CollectSkip(Verdicts(before), Verdicts(after));
  }

  /** A row that is a string (as when `states` is a string or a dictionary) is
      always passed over: its "coordinates" are single characters, which are
      either not numbers or digits far outside the box. */
  lemma StringRowSkipped(s: string)
    ensures ProcessState(Str(s)) == Ok(None)
  {
    if |s| >= 8 {
      FloatOfOneChar(s[6]);
    }
  }

  /** The list literal reads indices up to 16, so a row that was appended came
      from a list of at least 17 entries; it has 17 slots, the converted
      longitude and latitude at 5 and 6 (inside the box, from non-null cells),
      the stripped callsign or "" at 1, numbers in the numeric slots and
      booleans in the flag slots. */
  lemma EmittedRowShape(state: Json, row: Row)
    requires ProcessState(state) == Ok(Some(row))
    ensures state.Arr? && |state.items| >= 17 && |row| == 17
    ensures var items := state.items;
      && !items[6].Null? && !items[5].Null? && Float(items[6]).Ok? && Float(items[5]).Ok?
      && row[6] == Num(Float(items[6]).value) && row[5] == Num(Float(items[5]).value)
      && InBox(Float(items[6]).value, Float(items[5]).value)
      && (Truthy(items[1]) ==> items[1].Str? && row[1] == Str(Strip(items[1].s)))
      && (!Truthy(items[1]) ==> row[1] == Str(""))
      && row[7].Num? && row[9].Num? && row[10].Num? && row[11].Num? && row[13].Num? && row[16].Num?
      && row[8].Bool? && row[15].Bool?
  {
    match state
    case Str(s) => StringRowSkipped(s);
    case Arr(items) =>
      ConvertBuilds(items, row);
      BuiltRowShape(items, Float(items[6]).value, Float(items[5]).value, row);
      BuiltRowNumbers(items, Float(items[6]).value, Float(items[5]).value, row);
      BuiltRowFlags(items, Float(items[6]).value, Float(items[5]).value, row);
      BuiltCallsign(items, Float(items[6]).value, Float(items[5]).value, row);
    case _ =>
  }

  /** A converted row passed the null, float and box checks and was built from them. */
  lemma ConvertBuilds(items: seq<Json>, row: Row)
    requires Convert(Arr(items)) == Ok(Some(row))
    ensures |items| >= 7 && !items[6].Null? && !items[5].Null? && Float(items[6]).Ok? && Float(items[5]).Ok?
    ensures InBox(Float(items[6]).value, Float(items[5]).value)
    ensures Build(Arr(items), Float(items[6]).value, Float(items[5]).value, Layout, 0) == Ok(row)
  {
    assert Index(Arr(items), 6).Ok?;
  }

  /** The position slots of a built row, which reads cells up to index 16. */
  lemma BuiltRowShape(items: seq<Json>, lat: real, lon: real, row: Row)
    requires Build(Arr(items), lat, lon, Layout, 0) == Ok(row)
    ensures |items| >= 17 && |row| == 17 && row[6] == Num(lat) && row[5] == Num(lon)
  {
    LayoutSlots();
    var state := Arr(items);
    BuildSlot(state, lat, lon, Layout, 0, 5);
    BuildSlot(state, lat, lon, Layout, 0, 6);
    BuildSlot(state, lat, lon, Layout, 0, 16);
  }

  /** The callsign slot of a built row: stripped when truthy, "" otherwise. */
  lemma BuiltCallsign(items: seq<Json>, lat: real, lon: real, row: Row)
    requires Build(Arr(items), lat, lon, Layout, 0) == Ok(row)
    ensures |items| >= 2 && |row| == 17
    ensures Truthy(items[1]) ==> items[1].Str? && row[1] == Str(Strip(items[1].s))
    ensures !Truthy(items[1]) ==> row[1] == Str("")
  {
    LayoutSlots();
    BuildSlot(Arr(items), lat, lon, Layout, 0, 1);
  }

  /** The numeric slots of a built row hold numbers. */
  lemma BuiltRowNumbers(items: seq<Json>, lat: real, lon: real, row: Row)
    requires Build(Arr(items), lat, lon, Layout, 0) == Ok(row)
    ensures |row| == 17
    ensures row[7].Num? && row[9].Num? && row[10].Num? && row[11].Num? && row[13].Num? && row[16].Num?
  {
    LayoutSlots();
    BuiltSlotFits(items, lat, lon, row, 7);
    BuiltSlotFits(items, lat, lon, row, 9);
    BuiltSlotFits(items, lat, lon, row, 10);
    BuiltSlotFits(items, lat, lon, row, 11);
    BuiltSlotFits(items, lat, lon, row, 13);
    BuiltSlotFits(items, lat, lon, row, 16);
  }

  /** The flag slots of a built row hold booleans. */
  lemma BuiltRowFlags(items: seq<Json>, lat: real, lon: real, row: Row)
    requires Build(Arr(items), lat, lon, Layout, 0) == Ok(row)
    ensures |row| == 17 && row[8].Bool? && row[15].Bool?
  {
    LayoutSlots();
    BuiltSlotFits(items, lat, lon, row, 8);
    BuiltSlotFits(items, lat, lon, row, 15);
  }

  lemma BuiltSlotFits(items: seq<Json>, lat: real, lon: real, row: Row, j: nat)
    requires Build(Arr(items), lat, lon, Layout, 0) == Ok(row) && j < 17
    ensures |row| == 17 && Fits(Layout[j], row[j])
  {
    LayoutSlots();
    BuildSlot(Arr(items), lat, lon, Layout, 0, j);
    var f := Layout[j];
    if f != Longitude && f != Latitude {
      FillFits(f, Index(Arr(items), j).value, lat, lon);
    }
  }

  /** The kind of value a slot filled with `f` holds. */
  predicate Fits(f: Fill, v: Json)
  {
    && (f in {Longitude, Latitude, FloatOr, IntOr} ==> v.Num?)
    && (f == Flag ==> v.Bool?)
  }

  /** Filling a numeric slot gives a number, filling a flag slot a boolean. */
  lemma FillFits(f: Fill, v: Json, lat: real, lon: real)
    requires FillFrom(f, v, lat, lon).Ok?
    ensures Fits(f, FillFrom(f, v, lat, lon).value)
  {
  }

  /** A row shaped as OpenSky sends it: 17 entries or more, the callsign a
      string or null, the numeric fields numbers or null. */
  predicate OpenSkyRow(items: seq<Json>)
  {
    && |items| >= 17
    && (items[1].Null? || items[1].Str?)
    && (items[5].Null? || items[5].Num?) && (items[6].Null? || items[6].Num?)
    && (items[7].Null? || items[7].Num?) && (items[9].Null? || items[9].Num?)
    && (items[10].Null? || items[10].Num?) && (items[11].Null? || items[11].Num?)
    && (items[13].Null? || items[13].Num?) && (items[16].Null? || items[16].Num?)
  }

  /** On OpenSky-shaped rows nothing raises, and a row is kept exactly when it
      has a position and that position lies inside the box. */
  lemma OpenSkyRowKeptIffInBox(items: seq<Json>)
    requires OpenSkyRow(items)
    ensures ProcessState(Arr(items)).Ok?
    ensures ProcessState(Arr(items)).value.Some? <==>
      !items[5].Null? && !items[6].Null? && InBox(items[6].x, items[5].x)
  {
    var state := Arr(items);
    assert Index(state, 6) == Ok(items[6]) && Index(state, 5) == Ok(items[5]);
    if !items[5].Null? && !items[6].Null? {
      assert Float(items[6]) == Ok(items[6].x) && Float(items[5]) == Ok(items[5].x);
      if InBox(items[6].x, items[5].x) {
        BuildOpenSkyRow(items, items[6].x, items[5].x, 0);
      }
    }
    LongRowConverted(items);
  }

  /** A list of 8 entries or more goes through the inner `try`; when that
      raises nothing, its result is the row's verdict. */
  lemma LongRowConverted(items: seq<Json>)
    requires |items| >= 8 && Convert(Arr(items)).Ok?
    ensures ProcessState(Arr(items)) == Convert(Arr(items))
  {
    assert Len(Arr(items)) == Ok(|items|);
  }

  lemma {:induction false} BuildOpenSkyRow(items: seq<Json>, lat: real, lon: real, k: nat)
    requires OpenSkyRow(items) && k <= 17
    ensures Build(Arr(items), lat, lon, Layout, k).Ok?
    decreases 17 - k
  {
    if k < 17 {
      BuildOpenSkyRow(items, lat, lon, k + 1);
      OpenSkySlot(items, lat, lon, k);
    }
  }

  /** No slot of an OpenSky-shaped row raises. */
  lemma OpenSkySlot(items: seq<Json>, lat: real, lon: real, k: nat)
    requires OpenSkyRow(items) && k < 17
    ensures Slot(Arr(items), k, Layout[k], lat, lon).Ok?
  {
    OpenSkyCell(items, k);
    var f := Layout[k];
    if f != Longitude && f != Latitude {
      FillOk(f, items[k], lat, lon);
    }
  }

  /** The cell kinds under which filling a slot cannot raise. */
  predicate CellFits(f: Fill, v: Json)
  {
    && (f == Callsign ==> v.Null? || v.Str?)
    && (f == FloatOr || f == IntOr ==> v.Null? || v.Num?)
  }

  lemma FillOk(f: Fill, v: Json, lat: real, lon: real)
    requires CellFits(f, v)
    ensures FillFrom(f, v, lat, lon).Ok?
  {
  }

  /** Each cell of an OpenSky-shaped row fits its slot. */
  lemma OpenSkyCell(items: seq<Json>, k: nat)
    requires OpenSkyRow(items) && k < 17
    ensures CellFits(Layout[k], items[k])
  {
    LayoutSlots();
  }


  /** For each output row, the index of the input row it came from. */
  function Sources(states: seq<Json>): seq<nat>
  {
    Kept(Verdicts(states))
  }

  /** The loop is an order-preserving filter-map: each output row is the
      normalised form of an input row, the source indices strictly increase,
      and every input row not among them was passed over. */
  lemma FilterMapOrder(states: seq<Json>)
    requires Processed(states).Ok?
    ensures var out, src := Processed(states).value, Sources(states);
      && |src| == |out|
      && (forall j :: 0 <= j < |src| ==> src[j] < |states| && ProcessState(states[src[j]]) == Ok(Some(out[j])))
      && (forall j, j' :: 0 <= j < j' < |src| ==> src[j] < src[j'])
      && (forall i :: 0 <= i < |states| && i !in src ==> ProcessState(states[i]) == Ok(None))
  {
    KeptMatchesOutput(Verdicts(states));
    KeptIncreasing(Verdicts(states));
    KeptCoversAppended(Verdicts(states));
  }

  /** The loop finishes exactly when no row raises an exception that escapes it. */
  lemma ProcessedOkIffNoEscape(states: seq<Json>)
    ensures Processed(states).Ok? <==> forall i :: 0 <= i < |states| ==> ProcessState(states[i]).Ok?
  {
    CollectOkIff(Verdicts(states));
  }

  /** A truthy callsign that is not a string raises AttributeError, which the
      inner `except` does not catch: the whole view fails, whatever the other rows. */
  lemma NonStringCallsignFailsRow(items: seq<Json>)
    requires |items| >= 8 && !items[6].Null? && !items[5].Null?
    requires Float(items[6]).Ok? && Float(items[5]).Ok? && InBox(Float(items[6]).value, Float(items[5]).value)
    requires Truthy(items[1]) && !items[1].Str?
    ensures ProcessState(Arr(items)) == Raise(AttributeError)
  {
    var lat, lon := Float(items[6]).value, Float(items[5]).value;
    BuildNonStringCallsign(items, lat, lon);
    assert Index(Arr(items), 6) == Ok(items[6]);
    assert Index(Arr(items), 5) == Ok(items[5]);
    assert Convert(Arr(items)) == Raise(AttributeError);
    assert Len(Arr(items)) == Ok(|items|);
  }

  lemma BuildNonStringCallsign(items: seq<Json>, lat: real, lon: real)
    requires |items| >= 8 && Truthy(items[1]) && !items[1].Str?
    ensures Build(Arr(items), lat, lon, Layout, 0) == Raise(AttributeError)
  {
    LayoutSlots();
    assert Slot(Arr(items), 0, TextOr, lat, lon).Ok?;
    assert Slot(Arr(items), 1, Callsign, lat, lon) == Raise(AttributeError);
    assert Build(Arr(items), lat, lon, Layout, 1) == Raise(AttributeError);
  }
}
