/**
 One aircraft state as reported by the flight-tracking API, and the message
 payload built from it (src/function_app.py:58-76). Field values are opaque:
 the payload is modelled as the ordered key/value sequence handed to the
 JSON encoder, not as JSON text. `Null` is Python's `None`; it is kept as a
 value, never dropped.
 */
module Flight {
  import opened Wrappers

  /** A field value as it comes from the record. Floats are kept as their opaque bit pattern. */
  datatype Value =
    | Null
    | Text(s: string)
    | Integer(i: int)
    | Boolean(b: bool)
    | Integers(xs: seq<int>)
    | Float(bits: bv64)

  datatype StateRecord = StateRecord(
    icao24: Value,
    callsign: Value,
    originCountry: Value,
    timePosition: Value,
    lastContact: Value,
    longitude: Value,
    latitude: Value,
    baroAltitude: Value,
    onGround: Value,
    velocity: Value,
    trueTrack: Value,
    verticalRate: Value,
    sensors: Value,
    geoAltitude: Value,
    squawk: Value,
    spi: Value,
    positionSource: Value)

  /** One message body: the field mapping, key by key, in insertion order. */
  type Message = seq<(string, Value)>

  /** The keys of every message, in the order the dictionary literal lists them. */
  const FieldNames: seq<string> := [
    "icao24", "callsign", "origin_country", "time_position", "last_contact",
    "longitude", "latitude", "baro_altitude", "on_ground", "velocity",
    "true_track", "vertical_rate", "sensors", "geo_altitude", "squawk",
    "spi", "position_source"]

  /** Attribute access by JSON key: `state.<name>` for each key of the payload. */
  function Lookup(r: StateRecord, name: string): (v: Option<Value>)
    ensures v.Some? <==> name in FieldNames
  {
    if name == "icao24" then Some(r.icao24)
    else if name == "callsign" then Some(r.callsign)
    else if name == "origin_country" then Some(r.originCountry)
    else if name == "time_position" then Some(r.timePosition)
    else if name == "last_contact" then Some(r.lastContact)
    else if name == "longitude" then Some(r.longitude)
    else if name == "latitude" then Some(r.latitude)
    else if name == "baro_altitude" then Some(r.baroAltitude)
    else if name == "on_ground" then Some(r.onGround)
    else if name == "velocity" then Some(r.velocity)
    else if name == "true_track" then Some(r.trueTrack)
    else if name == "vertical_rate" then Some(r.verticalRate)
    else if name == "sensors" then Some(r.sensors)
    else if name == "geo_altitude" then Some(r.geoAltitude)
    else if name == "squawk" then Some(r.squawk)
    else if name == "spi" then Some(r.spi)
    else if name == "position_source" then Some(r.positionSource)
    else None
  }

  /**
   The message payload of a record: exactly the seventeen keys, in order,
   each paired with the record's same-named field.
   */
  function Payload(r: StateRecord): (p: Message)
    ensures |p| == |FieldNames|
    ensures forall i :: 0 <= i < |p| ==> p[i].0 == FieldNames[i] && Lookup(r, p[i].0) == Some(p[i].1)
  {
    [ ("icao24", r.icao24), ("callsign", r.callsign), ("origin_country", r.originCountry),
      ("time_position", r.timePosition), ("last_contact", r.lastContact),
      ("longitude", r.longitude), ("latitude", r.latitude), ("baro_altitude", r.baroAltitude),
      ("on_ground", r.onGround), ("velocity", r.velocity), ("true_track", r.trueTrack),
      ("vertical_rate", r.verticalRate), ("sensors", r.sensors), ("geo_altitude", r.geoAltitude),
      ("squawk", r.squawk), ("spi", r.spi), ("position_source", r.positionSource) ]
  }

  /** What a consumer reading a message gets back: the record, if the keys are exactly the payload's. */
  function Decode(p: Message): Option<StateRecord>
  {
    if |p| == |FieldNames| && forall i :: 0 <= i < |p| ==> p[i].0 == FieldNames[i] then
      Some(StateRecord(p[0].1, p[1].1, p[2].1, p[3].1, p[4].1, p[5].1, p[6].1, p[7].1, p[8].1,
                       p[9].1, p[10].1, p[11].1, p[12].1, p[13].1, p[14].1, p[15].1, p[16].1))
    else
      None
  }

  /** No key appears twice in a payload. */
  lemma FieldNamesDistinct()
    ensures forall i, j :: 0 <= i < j < |FieldNames| ==> FieldNames[i] != FieldNames[j]
  {
  }

  /** A payload decodes to exactly the record it was built from. */
  lemma DecodePayload(r: StateRecord)
    ensures Decode(Payload(r)) == Some(r)
  {
    var q := Payload(r);
    assert forall i :: 0 <= i < |q| ==> q[i].0 == FieldNames[i];
  }

  /** Only the payload of a record decodes to that record. */
  lemma DecodeOnlyPayload(r: StateRecord, p: Message)
    requires Decode(p) == Some(r)
    ensures p == Payload(r)
  {
    var q := Payload(r);
    assert |p| == |q|;
    forall i | 0 <= i < |p| ensures p[i] == q[i] {
      assert p[i].0 == FieldNames[i] == q[i].0;
      assert Lookup(r, p[i].0) == Some(q[i].1);
    }
  }

  /** An absent (None) field stays in the payload as a null entry under its key. */
  lemma NullFieldKept(r: StateRecord, name: string)
    requires Lookup(r, name) == Some(Null)
    ensures (name, Null) in Payload(r)
  {
    var p := Payload(r);
    var i :| 0 <= i < |FieldNames| && FieldNames[i] == name;
    assert p[i] == (name, Null);
  }
}
