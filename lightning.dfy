/**
 * The `Lightning` event record (Model/Lightning.swift): its identity-based
 * `==` and `hash`, and the synthesized `Codable` conformance driven by
 * `CodingKeys`, modelled at the level of the keyed container (the JSON text
 * itself is produced by Foundation and is not part of this model).
 */
module Lightnings {

  import opened Wrappers
  import Doubles

  datatype Lightning = Lightning(
    sensorID: string,
    lat: Doubles.Double,
    lon: Doubles.Double,
    timestamp: Doubles.Double,
    eventID: string,
    db: Option<string>)

  /** `==`: only the sensor and the event identify a lightning. */
  predicate Equal(a: Lightning, b: Lightning) {
    a.sensorID == b.sensorID && a.eventID == b.eventID
  }

  /** The values `hash(into:)` combines, in order. */
  function HashInput(l: Lightning): seq<string> {
    [l.sensorID, l.eventID]
  }

  lemma EqualIsEquivalence(a: Lightning, b: Lightning, c: Lightning)
    ensures Equal(a, a)
    ensures Equal(a, b) <==> Equal(b, a)
    ensures Equal(a, b) && Equal(b, c) ==> Equal(a, c)
  {
  }

  /** Position, time and loudness play no part in equality. */
  lemma EqualIgnoresMeasurements(l: Lightning, lat: Doubles.Double, lon: Doubles.Double,
                                 timestamp: Doubles.Double, db: Option<string>)
    ensures Equal(l, l.(lat := lat, lon := lon, timestamp := timestamp, db := db))
  {
  }

  /** `hash` combines exactly the fields `==` compares, in both directions. */
  lemma HashAgreesWithEqual(a: Lightning, b: Lightning)
    ensures Equal(a, b) <==> HashInput(a) == HashInput(b)
  {
    if HashInput(a) == HashInput(b) {
      assert HashInput(a)[0] == HashInput(b)[0] && HashInput(a)[1] == HashInput(b)[1];
    }
  }

  // ---- Codable ---------------------------------------------------------

  /** The cases of `CodingKeys`; `db` has none. */
  datatype CodingKey = SensorIDKey | LatKey | LonKey | TimestampKey | EventIDKey

  /** The external name of each coding key. */
  function KeyName(k: CodingKey): (name: string) {
    match k
    case SensorIDKey => "sensorId"
    case LatKey => "lat"
    case LonKey => "lon"
    case TimestampKey => "timestamp"
    case EventIDKey => "eventId"
  }

  /** The coding key with a given external name, as `CodingKeys(stringValue:)`. */
  function KeyNamed(name: string): (k: Option<CodingKey>)
    ensures k.Some? ==> KeyName(k.value) == name
  {
    if name == "sensorId" then Some(SensorIDKey)
    else if name == "lat" then Some(LatKey)
    else if name == "lon" then Some(LonKey)
    else if name == "timestamp" then Some(TimestampKey)
    else if name == "eventId" then Some(EventIDKey)
    else None
  }

  lemma KeyNamesRoundTrip(k: CodingKey)
    ensures KeyNamed(KeyName(k)) == Some(k)
  {
  }

  /** No coding key is called "db", so the field is never written or read. */
  lemma NoKeyForDb()
    ensures KeyNamed("db") == None
    ensures forall k: CodingKey :: KeyName(k) != "db"
  {
  }

  /** A value in a keyed container. */
  datatype Field = Text(text: string) | Number(number: Doubles.Double)

  type Container = map<string, Field>

  /** `encode(to:)`: one entry per coding key. */
  function Encode(l: Lightning): (c: Container)
    ensures c.Keys == {"sensorId", "lat", "lon", "timestamp", "eventId"}
    ensures "db" !in c
  {
    map[KeyName(SensorIDKey) := Text(l.sensorID),
        KeyName(LatKey) := Number(l.lat),
        KeyName(LonKey) := Number(l.lon),
        KeyName(TimestampKey) := Number(l.timestamp),
        KeyName(EventIDKey) := Text(l.eventID)]
  }

  function TextAt(c: Container, k: CodingKey): Option<string> {
    var name := KeyName(k);
    if name in c && c[name].Text? then Some(c[name].text) else None
  }

  function NumberAt(c: Container, k: CodingKey): Option<Doubles.Double> {
    var name := KeyName(k);
    if name in c && c[name].Number? then Some(c[name].number) else None
  }

  /**
   * `init(from:)`: every coding key must be present with a value of the
   * field's type (otherwise decoding throws); keys outside `CodingKeys` are
   * ignored and `db` keeps its default, nil.
   */
  function Decode(c: Container): (r: Option<Lightning>)
    ensures r.Some? ==> r.value.db == None
    ensures r.Some? <==> TextAt(c, SensorIDKey).Some? && NumberAt(c, LatKey).Some?
                         && NumberAt(c, LonKey).Some? && NumberAt(c, TimestampKey).Some?
                         && TextAt(c, EventIDKey).Some?
  {
    match (TextAt(c, SensorIDKey), NumberAt(c, LatKey), NumberAt(c, LonKey),
           NumberAt(c, TimestampKey), TextAt(c, EventIDKey))
    case (Some(sensorID), Some(lat), Some(lon), Some(timestamp), Some(eventID)) =>
      Some(Lightning(sensorID, lat, lon, timestamp, eventID, None))
    case _ => None
  }

  /** Encoding then decoding keeps every field except `db`, which comes back nil. */
  lemma DecodeEncode(l: Lightning)
    ensures Decode(Encode(l)) == Some(l.(db := None))
  {
    var c := Encode(l);
    assert TextAt(c, SensorIDKey) == Some(l.sensorID);
    assert NumberAt(c, LatKey) == Some(l.lat);
    assert NumberAt(c, LonKey) == Some(l.lon);
    assert NumberAt(c, TimestampKey) == Some(l.timestamp);
    assert TextAt(c, EventIDKey) == Some(l.eventID);
  }

  /** The dB reading cannot survive persisting: two records differing only in `db` encode alike. */
  lemma EncodeIgnoresDb(l: Lightning, db: Option<string>)
    ensures Encode(l.(db := db)) == Encode(l)
  {
  }

  /** The decoded copy of an encoded lightning is `==` to the original (and hashes alike). */
  lemma DecodedCopyIsEqual(l: Lightning)
    ensures Decode(Encode(l)).Some?
    ensures Equal(Decode(Encode(l)).value, l)
    ensures HashInput(Decode(Encode(l)).value) == HashInput(l)
  {
    DecodeEncode(l);
  }
}
