/** Marker reconciliation of the live flight map (`updateFlights` in map.js).

    `flightMarkers` maps a callsign to the Leaflet marker drawn for it. Each
    poll reconciles that dictionary in place against the polled snapshot: a
    known callsign has its marker moved and rotated, an unknown one gets a new
    marker, and every callsign missing from the snapshot loses its marker.
    The pure functions below (`Upsert`, `UpsertAll`, `Reconcile`) state what
    one poll does; the class `FlightLayer` does it step by step, the way the
    two `forEach` loops of the source do, and is proved to match them. */
module Markers {

  /** What JavaScript's `parseFloat` returns: a number, or NaN when nothing parses. */
  datatype JsNumber = NaN | Finite(value: real)

  /** One record of the snapshot, with the fields `updateFlights` reads.
      `heading` is already the result of `parseFloat(flight.heading)`. */
  datatype Flight = Flight(callsign: string, lat: real, lon: real, heading: JsNumber)

  /** A Leaflet marker. `id` stands for the marker object's identity;
      `detail` is the flight record its click handler closed over. */
  datatype Marker = Marker(id: nat, lat: real, lon: real, rotation: real, detail: Flight)

  /** The marker dictionary, and the identity the next created marker receives. */
  datatype Table = Table(markers: map<string, Marker>, nextId: nat)

  /** The decoded body of `/api/flights/`: an array of flight records, or anything else. */
  datatype Payload = FlightArray(flights: seq<Flight>) | NotArray

  /** JavaScript truthiness of a number: NaN and 0 are falsy. */
  predicate Truthy(n: JsNumber)
  {
    n.Finite? && n.value != 0.0
  }

  /** JavaScript `a || b` on numbers. */
  function Or(a: JsNumber, b: JsNumber): JsNumber
  {
    if Truthy(a) then a else b
  }

  /** The rotation angle `parseFloat(flight.heading) || 0`. */
  function Rotation(heading: JsNumber): real
  {
    Or(heading, Finite(0.0)).value
  }

  /** The rotation is the parsed heading, or 0 when the heading does not parse. */
  lemma RotationIsParsedHeadingOrZero(heading: JsNumber)
    ensures heading.Finite? ==> Rotation(heading) == heading.value
    ensures heading.NaN? ==> Rotation(heading) == 0.0
  {
  }

  /** The set of callsigns a snapshot mentions (`activeFlight`). */
  function Callsigns(fs: seq<Flight>): (r: set<string>)
    ensures forall i :: 0 <= i < |fs| ==> fs[i].callsign in r
    decreases |fs|
  {
    if fs == [] then {}
    else
      var p := fs[..|fs| - 1];
      assert forall i :: 0 <= i < |p| ==> p[i] == fs[i];
      Callsigns(p) + {fs[|fs| - 1].callsign}
  }

  /** A callsign is active exactly when some record of the snapshot carries it. */
  lemma {:induction false} CallsignsMember(fs: seq<Flight>, k: string)
    ensures k in Callsigns(fs) <==> exists i :: 0 <= i < |fs| && fs[i].callsign == k
    decreases |fs|
  {
    if fs != [] {
      var p := fs[..|fs| - 1];
      CallsignsMember(p, k);
      if k in Callsigns(p) {
        var i :| 0 <= i < |p| && p[i].callsign == k;
        assert fs[i] == p[i];
      }
      if exists i :: 0 <= i < |fs| && fs[i].callsign == k {
        var i :| 0 <= i < |fs| && fs[i].callsign == k;
        if i < |p| { assert p[i] == fs[i]; }
      }
    }
  }

  /** Processing one record: move and rotate the existing marker, or create one. */
  function Upsert(t: Table, f: Flight): Table
  {
    var k := f.callsign;
    if k in t.markers then
      Table(t.markers[k := t.markers[k].(lat := f.lat, lon := f.lon, rotation := Rotation(f.heading))], t.nextId)
    else
      Table(t.markers[k := Marker(t.nextId, f.lat, f.lon, Rotation(f.heading), f)], t.nextId + 1)
  }

  /** The first `forEach` loop: every record of the snapshot, in order. After it
      the dictionary holds the old callsigns and those of the snapshot. */
  function UpsertAll(t: Table, fs: seq<Flight>): (r: Table)
    ensures r.markers.Keys == t.markers.Keys + Callsigns(fs)
    ensures r.nextId >= t.nextId
    decreases |fs|
  {
    if fs == [] then t
    else
      Upsert(UpsertAll(t, fs[..|fs| - 1]), fs[|fs| - 1])
  }

  /** The entries of `m` whose key is in `active`. */
  function Prune(m: map<string, Marker>, active: set<string>): map<string, Marker>
  {
    map k | k in m && k in active :: m[k]
  }

  /** One successful poll: both `forEach` loops. */
  function Reconcile(t: Table, fs: seq<Flight>): Table
  {
    var u := UpsertAll(t, fs);
    Table(Prune(u.markers, Callsigns(fs)), u.nextId)
  }

  /** One poll on a decoded payload; a non-array payload throws before any change. */
  function Poll(t: Table, p: Payload): Table
  {
    match p
    case FlightArray(fs) => Reconcile(t, fs)
    case NotArray => t
  }

  /** The identities of the markers the dictionary holds. */
  function Rendered(m: map<string, Marker>): set<nat>
  {
    set k | k in m :: m[k].id
  }

  /** Every marker was created before `nextId` was handed out, and no two
      callsigns share one marker object. */
  predicate WellFormed(t: Table)
  {
    && (forall k :: k in t.markers ==> t.markers[k].id < t.nextId)
    && (forall k, k' :: k in t.markers && k' in t.markers && k != k' ==> t.markers[k].id != t.markers[k'].id)
  }

  lemma CallsignsSnoc(fs: seq<Flight>, f: Flight)
    ensures Callsigns(fs + [f]) == Callsigns(fs) + {f.callsign}
  {
    assert (fs + [f])[..|fs|] == fs;
  }

  lemma UpsertAllSnoc(t: Table, fs: seq<Flight>, f: Flight)
    ensures UpsertAll(t, fs + [f]) == Upsert(UpsertAll(t, fs), f)
  {
    assert (fs + [f])[..|fs|] == fs;
  }

  lemma UpsertWellFormed(t: Table, f: Flight)
    requires WellFormed(t)
    ensures WellFormed(Upsert(t, f))
  {
  }

  lemma {:induction false} UpsertAllWellFormed(t: Table, fs: seq<Flight>)
    requires WellFormed(t)
    ensures WellFormed(UpsertAll(t, fs))
    decreases |fs|
  {
    if fs != [] {
      UpsertAllWellFormed(t, fs[..|fs| - 1]);
      UpsertWellFormed(UpsertAll(t, fs[..|fs| - 1]), fs[|fs| - 1]);
    }
  }

  /** A callsign the snapshot does not mention is left exactly as it was by the first loop. */
  lemma {:induction false} UpsertAllUntouched(t: Table, fs: seq<Flight>, k: string)
    requires k !in Callsigns(fs) && k in t.markers
    ensures UpsertAll(t, fs).markers[k] == t.markers[k]
    decreases |fs|
  {
    if fs != [] {
      var p := fs[..|fs| - 1];
      UpsertAllUntouched(t, p, k);
    }
  }

  /** An existing marker keeps its identity and its captured record. */
  lemma {:induction false} UpsertAllKeepsIdentity(t: Table, fs: seq<Flight>, k: string)
    requires k in t.markers
    ensures UpsertAll(t, fs).markers[k].id == t.markers[k].id
    ensures UpsertAll(t, fs).markers[k].detail == t.markers[k].detail
    decreases |fs|
  {
    if fs != [] {
      UpsertAllKeepsIdentity(t, fs[..|fs| - 1], k);
    }
  }

  /** The record at index `i` is the last one with its callsign: its position and rotation win. */
  lemma {:induction false} UpsertAllLast(t: Table, fs: seq<Flight>, i: nat)
    requires i < |fs|
    requires forall j :: i < j < |fs| ==> fs[j].callsign != fs[i].callsign
    ensures var m := UpsertAll(t, fs).markers[fs[i].callsign];
      m.lat == fs[i].lat && m.lon == fs[i].lon && m.rotation == Rotation(fs[i].heading)
    decreases |fs|
  {
    if i < |fs| - 1 {
      var p := fs[..|fs| - 1];
      assert p[i] == fs[i];
      UpsertAllLast(t, p, i);
    }
  }

  /** A callsign first seen at index `i` gets a new marker, created before the
      counter moved past it, and bound to the record at `i`. */
  lemma {:induction false} UpsertAllFresh(t: Table, fs: seq<Flight>, i: nat)
    requires i < |fs| && fs[i].callsign !in t.markers
    requires forall j :: 0 <= j < i ==> fs[j].callsign != fs[i].callsign
    ensures var r := UpsertAll(t, fs);
      var m := r.markers[fs[i].callsign];
      t.nextId <= m.id < r.nextId && m.detail == fs[i]
    decreases |fs|
  {
    var p := fs[..|fs| - 1];
    if i == |fs| - 1 {
      assert fs[i].callsign !in Callsigns(p) by {
        CallsignsMember(p, fs[i].callsign);
        forall j | 0 <= j < |p| ensures p[j].callsign != fs[i].callsign { assert p[j] == fs[j]; }
      }
    } else {
      assert p[i] == fs[i];
      assert forall j :: 0 <= j < i ==> p[j] == fs[j];
      UpsertAllFresh(t, p, i);
      UpsertAllKeepsIdentity(UpsertAll(t, p), [fs[|fs| - 1]], fs[i].callsign);
    }
  }

  /** The counter advances once per distinct callsign that had no marker. */
  lemma {:induction false} UpsertAllCount(t: Table, fs: seq<Flight>)
    ensures UpsertAll(t, fs).nextId == t.nextId + |Callsigns(fs) - t.markers.Keys|
    decreases |fs|
  {
    if fs == [] {
      assert Callsigns(fs) == {};
    } else {
      var p, f := fs[..|fs| - 1], fs[|fs| - 1];
      UpsertAllCount(t, p);
      CountStep(t.markers.Keys, Callsigns(p), f.callsign);
    }
  }

  /** A callsign adds to the new callsigns exactly when it is neither an
      old key nor seen before. */
  lemma CountStep(keys: set<string>, seen: set<string>, x: string)
    ensures |(seen + {x}) - keys| == |seen - keys| + (if x in keys || x in seen then 0 else 1)
  {
    var before, after := seen - keys, (seen + {x}) - keys;
    if x in keys || x in seen {
      assert after == before;
    } else {
      assert after == before + {x};
      CardAddNew(before, x);
    }
  }

  lemma CardAddNew(s: set<string>, x: string)
    requires x !in s
    ensures |s + {x}| == |s| + 1
  {
  }

  /** After a successful poll the dictionary's keys are exactly the snapshot's callsigns. */
  lemma ReconcileKeys(t: Table, fs: seq<Flight>)
    ensures Reconcile(t, fs).markers.Keys == Callsigns(fs)
  {
  }

  /** A callsign present before and in the snapshot keeps the same marker object
      (and the record its click handler captured); only position and rotation
      follow the snapshot, and they come from its last record with that callsign. */
  lemma ReconcileKeepsExisting(t: Table, fs: seq<Flight>, i: nat)
    requires i < |fs| && fs[i].callsign in t.markers
    requires forall j :: i < j < |fs| ==> fs[j].callsign != fs[i].callsign
    ensures var k := fs[i].callsign;
      var m := Reconcile(t, fs).markers[k];
      && m.id == t.markers[k].id
      && m.detail == t.markers[k].detail
      && m.lat == fs[i].lat && m.lon == fs[i].lon && m.rotation == Rotation(fs[i].heading)
  {
    UpsertAllKeepsIdentity(t, fs, fs[i].callsign);
    UpsertAllLast(t, fs, i);
  }

  /** A callsign without a marker gets a new one: an identity never used before,
      at the position of its last record, bound to its first record. */
  lemma ReconcileCreatesNew(t: Table, fs: seq<Flight>, first: nat, last: nat)
    requires first <= last < |fs|
    requires fs[first].callsign == fs[last].callsign && fs[first].callsign !in t.markers
    requires forall j :: 0 <= j < first ==> fs[j].callsign != fs[first].callsign
    requires forall j :: last < j < |fs| ==> fs[j].callsign != fs[last].callsign
    ensures var r := Reconcile(t, fs);
      var m := r.markers[fs[first].callsign];
      && t.nextId <= m.id < r.nextId
      && m.detail == fs[first]
      && m.lat == fs[last].lat && m.lon == fs[last].lon && m.rotation == Rotation(fs[last].heading)
  {
    UpsertAllFresh(t, fs, first);
    UpsertAllLast(t, fs, last);
  }

  /** Exactly one marker is created for each distinct callsign that had none,
      however often the callsign occurs in the snapshot. */
  lemma ReconcileCreationCount(t: Table, fs: seq<Flight>)
    ensures Reconcile(t, fs).nextId == t.nextId + |Callsigns(fs) - t.markers.Keys|
  {
    UpsertAllCount(t, fs);
  }

  /** A poll keeps the table well formed. */
  lemma ReconcileWellFormed(t: Table, fs: seq<Flight>)
    requires WellFormed(t)
    ensures WellFormed(Reconcile(t, fs))
  {
    UpsertAllWellFormed(t, fs);
  }

  /** A callsign missing from the snapshot loses its entry, and its marker is no
      longer among the rendered ones; a callsign in the snapshot is never removed. */
  lemma ReconcileRemovesStale(t: Table, fs: seq<Flight>, k: string)
    requires WellFormed(t)
    requires k in t.markers
    ensures k !in Callsigns(fs) ==> k !in Reconcile(t, fs).markers && t.markers[k].id !in Rendered(Reconcile(t, fs).markers)
    ensures k in Callsigns(fs) ==> k in Reconcile(t, fs).markers
  {
    if k !in Callsigns(fs) {
      var u := UpsertAll(t, fs);
      var r := Reconcile(t, fs);
      UpsertAllUntouched(t, fs, k);
      UpsertAllWellFormed(t, fs);
      forall k' | k' in r.markers ensures r.markers[k'].id != t.markers[k].id {
        assert k' in u.markers && k' != k;
      }
    }
  }

  /** A non-array payload leaves the dictionary as it was. */
  lemma PollRejectsNonArray(t: Table)
    ensures Poll(t, NotArray) == t
  {
  }

  /** Reconciling the same snapshot twice changes nothing the second time: the
      same keys, the same marker objects at the same places, and no marker created. */
  lemma ReconcileIdempotent(t: Table, fs: seq<Flight>)
    ensures Reconcile(Reconcile(t, fs), fs) == Reconcile(t, fs)
  {
    var u := UpsertAll(t, fs);
    var r := Reconcile(t, fs);
    var u2 := UpsertAll(r, fs);
    var r2 := Reconcile(r, fs);
    UpsertAllCount(r, fs);
    assert Callsigns(fs) - r.markers.Keys == {};
    assert r2.nextId == r.nextId;
    forall k | k in Callsigns(fs) ensures r2.markers[k] == r.markers[k] {
      CallsignsMember(fs, k);
      var i :| 0 <= i < |fs| && fs[i].callsign == k;
      var last := LastIndexOf(fs, i);
      UpsertAllKeepsIdentity(r, fs, k);
      UpsertAllLast(r, fs, last);
      UpsertAllLast(t, fs, last);
      assert r2.markers[k] == u2.markers[k] && r.markers[k] == u.markers[k];
      SameMarker(u2.markers[k], u.markers[k]);
    }
    assert r2.markers.Keys == r.markers.Keys;
    assert r2.markers == r.markers;
  }

  lemma SameMarker(a: Marker, b: Marker)
    requires a.id == b.id && a.lat == b.lat && a.lon == b.lon && a.rotation == b.rotation && a.detail == b.detail
    ensures a == b
  {
  }

  /** The index of the last record sharing the callsign of the record at `i`. */
  function LastIndexOf(fs: seq<Flight>, i: nat): (j: nat)
    requires i < |fs|
    ensures i <= j < |fs| && fs[j].callsign == fs[i].callsign
    ensures forall l :: j < l < |fs| ==> fs[l].callsign != fs[i].callsign
    decreases |fs| - i
  {
    if exists l :: i < l < |fs| && fs[l].callsign == fs[i].callsign then
      var l :| i < l < |fs| && fs[l].callsign == fs[i].callsign;
      LastIndexOf(fs, l)
    else i
  }

  lemma RenderedUpdate(m: map<string, Marker>, k: string, v: Marker)
    requires k in m && v.id == m[k].id
    ensures Rendered(m[k := v]) == Rendered(m)
  {
    var m' := m[k := v];
    forall x | x in Rendered(m) ensures x in Rendered(m') {
      var k' :| k' in m && m[k'].id == x;
      assert m'[k'].id == x;
    }
  }

  lemma RenderedInsert(m: map<string, Marker>, k: string, v: Marker)
    requires k !in m
    ensures Rendered(m[k := v]) == Rendered(m) + {v.id}
  {
    var m' := m[k := v];
    forall x | x in Rendered(m) ensures x in Rendered(m') {
      var k' :| k' in m && m[k'].id == x;
      assert m'[k'].id == x;
    }
    assert m'[k].id == v.id;
  }

  lemma RenderedRemove(t: Table, k: string)
    requires WellFormed(t) && k in t.markers
    ensures Rendered(t.markers - {k}) == Rendered(t.markers) - {t.markers[k].id}
  {
    var m, m' := t.markers, t.markers - {k};
    forall x | x in Rendered(m) && x != m[k].id ensures x in Rendered(m') {
      var k' :| k' in m && m[k'].id == x;
      assert k' != k && m'[k'].id == x;
    }
  }

  /** The dictionary part-way through the second `forEach`: the keys still
      to visit, and the active ones. */
  function Pending(m: map<string, Marker>, keys: set<string>, active: set<string>): map<string, Marker>
  {
    map k | k in m && (k in keys || k in active) :: m[k]
  }

  lemma PendingAll(m: map<string, Marker>, active: set<string>)
    ensures Pending(m, m.Keys, active) == m
  {
  }

  lemma PendingNone(m: map<string, Marker>, active: set<string>)
    ensures Pending(m, {}, active) == Prune(m, active)
  {
  }

  /** Visiting one key keeps it when active and deletes it otherwise. */
  lemma PendingStep(m: map<string, Marker>, keys: set<string>, active: set<string>, id: string)
    requires id in keys && keys <= m.Keys
    ensures id in Pending(m, keys, active)
    ensures Pending(m, keys - {id}, active) ==
      if id in active then Pending(m, keys, active) else Pending(m, keys, active) - {id}
  {
  }

  /** The `flightMarkers` dictionary of map.js and the markers on the Leaflet map. */
  class FlightLayer {
    var markers: map<string, Marker>
    var nextId: nat
    /** The identities of the markers added to the Leaflet map and not yet removed. */
    ghost var onMap: set<nat>

    ghost predicate Valid()
      reads this
    {
      WellFormed(Table(markers, nextId)) && onMap == Rendered(markers)
    }

    function Snapshot(): Table
      reads this
    {
      Table(markers, nextId)
    }

    /** `let flightMarkers = {}` */
    constructor ()
      ensures Valid() && markers == map[] && onMap == {}
    {
      markers := map[];
      nextId := 0;
      onMap := {};
    }

    /** One run of `updateFlights` on the decoded response. `ok` is false when
        the payload is not an array: the error is logged and nothing changes. */
    method UpdateFlights(payload: Payload) returns (ok: bool)
      requires Valid()
      modifies this
      ensures Valid()
      ensures ok == payload.FlightArray?
      ensures Snapshot() == Poll(old(Snapshot()), payload)
      ensures !ok ==> onMap == old(onMap)
    {
      if !payload.FlightArray? {
        return false;
      }
      var active := UpsertFlights(payload.flights);
      RemoveStale(active);
      return true;
    }

    /** The first `forEach`: move, rotate or create the marker of each record,
        collecting the callsigns seen into `active`. */
    method UpsertFlights(flights: seq<Flight>) returns (active: set<string>)
      requires Valid()
      modifies this
      ensures Valid()
      ensures Snapshot() == UpsertAll(old(Snapshot()), flights)
      ensures active == Callsigns(flights)
    {
      active := {};
      var i := 0;
      while i < |flights|
        invariant 0 <= i <= |flights|
        invariant Valid()
        invariant Snapshot() == UpsertAll(old(Snapshot()), flights[..i])
        invariant active == Callsigns(flights[..i])
      {
        var flight := flights[i];
        assert flights[..i + 1] == flights[..i] + [flight];
        UpsertAllSnoc(old(Snapshot()), flights[..i], flight);
        CallsignsSnoc(flights[..i], flight);
        active := active + {flight.callsign};
        Track(flight);
        i := i + 1;
      }
      assert flights[..i] == flights;
    }

    /** The body of the first `forEach` for one record. */
    method Track(flight: Flight)
      requires Valid()
      modifies this
      ensures Valid()
      ensures Snapshot() == Upsert(old(Snapshot()), flight)
    {
      var id := flight.callsign;
      UpsertWellFormed(Snapshot(), flight);
      if id in markers {
        // setLatLng and setRotationAngle on the existing marker
        var moved := markers[id].(lat := flight.lat, lon := flight.lon, rotation := Rotation(flight.heading));
        RenderedUpdate(markers, id, moved);
        markers := markers[id := moved];
      } else {
        // L.marker(...).addTo(map), then flightMarkers[id] = marker
        var marker := Marker(nextId, flight.lat, flight.lon, Rotation(flight.heading), flight);
        RenderedInsert(markers, id, marker);
        onMap := onMap + {marker.id};
        nextId := nextId + 1;
        markers := markers[id := marker];
      }
    }

    /** The second `forEach`: every key of `Object.keys(flightMarkers)` not in
        `active` is removed from the map and deleted from the dictionary. */
    method RemoveStale(active: set<string>)
      requires Valid()
      modifies this
      ensures Valid()
      ensures Snapshot() == Table(Prune(old(markers), active), old(nextId))
    {
      ghost var upserted := markers;
      var keys := markers.Keys;
      PendingAll(upserted, active);
      while keys != {}
        invariant keys <= upserted.Keys
        invariant Valid()
        invariant nextId == old(nextId)
        invariant markers == Pending(upserted, keys, active)
        decreases keys
      {
        var id :| id in keys;
        PendingStep(upserted, keys, active, id);
        keys := keys - {id};
        if id !in active {
          RenderedRemove(Snapshot(), id);
          onMap := onMap - {markers[id].id};  // map.removeLayer
          markers := markers - {id};          // delete flightMarkers[id]
        }
      }
      PendingNone(upserted, active);
    }
  }
}
