/**
 * The values a `CustomUserDefaults` dictionary (`[String: Any]`) holds, and
 * the dictionary operations the store is built from. `Any` is modelled as a
 * tagged value; `as? T` succeeds exactly when the tag is `T`.
 */
module StoreValues {

  import opened Wrappers

  newtype byte = x: int | 0 <= x < 256

  type Bytes = seq<byte>

  datatype Value =
    | DataV(bytes: Bytes)
    | StringV(text: string)
    | BoolV(flag: bool)
    | IntV(integer: int)
    | FloatV(floatBits: bv32)
    | UrlV(url: string)
    | DictV(entries: map<string, Value>)
    | ArrayV(elements: seq<Value>)

  type Dictionary = map<string, Value>

  /**
   * A JSON codec (`JSONEncoder`/`JSONDecoder`) for one `Codable` type: both
   * directions may fail. No law relates the two.
   */
  datatype Codec<!T> = Codec(encode: T -> Option<Bytes>, decode: Bytes -> Option<T>)

  /** `dict[key]`. */
  function Lookup(m: Dictionary, key: string): Option<Value> {
    if key in m then Some(m[key]) else None
  }

  /** `dict[key] = value`: a nil value removes the key. */
  function Assign(m: Dictionary, key: string, value: Option<Value>): (r: Dictionary)
    ensures Lookup(r, key) == value
    ensures forall k :: k != key ==> Lookup(r, k) == Lookup(m, k)
    ensures r.Keys == if value.Some? then m.Keys + {key} else m.Keys - {key}
  {
    if value.Some? then m[key := value.value] else m - {key}
  }

  /** The entries `register(defaults:)` leaves: existing ones win, missing ones come from `defaults`. */
  function RegisterDefaults(m: Dictionary, defaults: Dictionary): (r: Dictionary)
    ensures r.Keys == m.Keys + defaults.Keys
    ensures forall k :: k in m ==> r[k] == m[k]
    ensures forall k :: k in defaults && k !in m ==> r[k] == defaults[k]
  {
    map k | k in m.Keys + defaults.Keys :: if k in m then m[k] else defaults[k]
  }

  /** Registering the same defaults twice changes nothing the first time did not. */
  lemma RegisterIsIdempotent(m: Dictionary, defaults: Dictionary)
    ensures RegisterDefaults(RegisterDefaults(m, defaults), defaults) == RegisterDefaults(m, defaults)
  {
  }

  /** Registering never overwrites: a key present before keeps its value. */
  lemma RegisterKeepsExisting(m: Dictionary, defaults: Dictionary, key: string)
    requires key in m
    ensures Lookup(RegisterDefaults(m, defaults), key) == Lookup(m, key)
  {
  }

  /**
   * What a store created with `identifier` reads back, given the platform
   * entries: the dictionary stored there, or an empty one when the entry is
   * missing or not a dictionary.
   */
  function Restored(platform: Dictionary, identifier: string): (m: Dictionary)
    ensures identifier !in platform ==> m == map[]
    ensures identifier in platform && !platform[identifier].DictV? ==> m == map[]
    ensures identifier in platform && platform[identifier].DictV? ==> m == platform[identifier].entries
  {
    if identifier in platform && platform[identifier].DictV? then platform[identifier].entries else map[]
  }

  /** Persisting a dictionary under an identifier and restoring it gives the dictionary back. */
  lemma RestoreAfterPersist(platform: Dictionary, identifier: string, m: Dictionary)
    ensures Restored(platform[identifier := DictV(m)], identifier) == m
  {
  }

  /** Restoring after the entry was cleared gives the empty dictionary. */
  lemma RestoreAfterClear(platform: Dictionary, identifier: string)
    ensures Restored(platform - {identifier}, identifier) == map[]
  {
  }

  /** Persisting under one identifier leaves what every other identifier restores alone. */
  lemma RestoreIgnoresOtherIdentifiers(platform: Dictionary, identifier: string, other: string, m: Dictionary)
    requires other != identifier
    ensures Restored(platform[identifier := DictV(m)], other) == Restored(platform, other)
  {
  }

  /** `try? encoder.encode(x)` turned into the value `set` stores: Data, or nil on failure. */
  function Encoded<T>(codec: Codec<T>, x: T): (v: Option<Value>)
    ensures v.None? <==> codec.encode(x).None?
    ensures v.Some? ==> v.value == DataV(codec.encode(x).value)
  {
    match codec.encode(x)
    case Some(bytes) => Some(DataV(bytes))
    case None => None
  }

  /** Whatever a codec produces is stored as Data, never as a String. */
  lemma EncodedIsNeverString<T>(codec: Codec<T>, x: T)
    ensures Encoded(codec, x).None? || Encoded(codec, x).value.DataV?
  {
  }
}
