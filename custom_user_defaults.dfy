/**
 * `CustomUserDefaults`: a namespaced key-value store that keeps its entries
 * in an in-memory dictionary and mirrors the whole dictionary, under one
 * identifier, into the platform store (`UserDefaults.standard`).
 */
module UserDefaultsStore {

  import opened Wrappers
  import opened StoreValues
  import opened DefaultsKeys

  const IdentifierPrefix: string := "userdefaults.identifier."

  /** The identifier a store is filed under: `"userdefaults.identifier.\(identifier)"`. */
  function IdentifierFor(identifier: string): (r: string)
    ensures |r| == |IdentifierPrefix| + |identifier|
    ensures r[..|IdentifierPrefix|] == IdentifierPrefix
    ensures r[|IdentifierPrefix|..] == identifier
  {
    IdentifierPrefix + identifier
  }

  /** Different identifiers never share a platform entry. */
  lemma IdentifierForIsInjective(a: string, b: string)
    ensures IdentifierFor(a) == IdentifierFor(b) <==> a == b
  {
    if IdentifierFor(a) == IdentifierFor(b) {
      assert a == IdentifierFor(a)[|IdentifierPrefix|..];
    }
  }

  /**
   * The platform store, `UserDefaults.standard`: one dictionary shared by
   * every `CustomUserDefaults`. Its `synchronize()` only flushes to disk and
   * is not modelled.
   */
  class PlatformDefaults {
    var entries: Dictionary

    constructor (entries: Dictionary)
      ensures this.entries == entries
    {
      this.entries := entries;
    }

    /** `set(_:forKey:)`: a nil value removes the entry. */
    method Set(value: Option<Value>, key: string)
      modifies this
      ensures entries == Assign(old(entries), key, value)
    {
      entries := Assign(entries, key, value);
    }
  }

  class CustomUserDefaults {
    const standard: PlatformDefaults
    var userDefaults: Dictionary
    var identifier: string

    /** The platform entry under the current identifier is exactly the in-memory dictionary. */
    ghost predicate Persisted()
      reads this, standard
    {
      Lookup(standard.entries, identifier) == Some(DictV(userDefaults))
    }

    /** `init(withIdentifier:)`: load what was persisted under the namespaced identifier. */
    constructor (identifier: string, standard: PlatformDefaults)
      ensures this.standard == standard
      ensures this.identifier == IdentifierFor(identifier)
      ensures userDefaults == Restored(standard.entries, IdentifierFor(identifier))
    {
      this.standard := standard;
      var namespaced := IdentifierFor(identifier);
      this.identifier := namespaced;
      if namespaced in standard.entries && standard.entries[namespaced].DictV? {
        userDefaults := standard.entries[namespaced].entries;
      } else {
        userDefaults := map[];
      }
    }

    /** Re-file the store under another identifier; nothing is written until the next synchronize. */
    method UpdateIdentifier(identifier: string)
      modifies this`identifier
      ensures this.identifier == IdentifierFor(identifier)
      ensures userDefaults == old(userDefaults)
      ensures standard.entries == old(standard.entries)
    {
      this.identifier := IdentifierFor(identifier);
    }

    /** Forget every entry, in memory and on the platform. */
    method RemoveUser()
      modifies this`userDefaults, standard
      ensures userDefaults == map[]
      ensures identifier == old(identifier)
      ensures standard.entries == old(standard.entries) - {identifier}
      ensures Restored(standard.entries, identifier) == map[]
    {
      userDefaults := map[];
      standard.Set(None, identifier);
    }

    /** Write the whole dictionary to the platform under the current identifier. */
    method Synchronize()
      modifies standard
      ensures standard.entries == old(standard.entries)[identifier := DictV(userDefaults)]
      ensures Persisted()
      ensures Restored(standard.entries, identifier) == userDefaults
    {
      standard.Set(Some(DictV(userDefaults)), identifier);
    }

    // ---- Getters ---------------------------------------------------------

    function DataFor(key: string): (r: Option<Bytes>)
      reads this
      ensures r.Some? <==> key in userDefaults && userDefaults[key].DataV?
      ensures r.Some? ==> userDefaults[key] == DataV(r.value)
    {
      match Lookup(userDefaults, key)
      case Some(DataV(bytes)) => Some(bytes)
      case _ => None
    }

    function StringFor(key: string): (r: Option<string>)
      reads this
      ensures r.Some? <==> key in userDefaults && userDefaults[key].StringV?
      ensures r.Some? ==> userDefaults[key] == StringV(r.value)
    {
      match Lookup(userDefaults, key)
      case Some(StringV(text)) => Some(text)
      case _ => None
    }

    /** `userDefaults[key] as? Bool ?? false`. */
    function BoolFor(key: string): (r: bool)
      reads this
      ensures r <==> key in userDefaults && userDefaults[key] == BoolV(true)
    {
      match Lookup(userDefaults, key)
      case Some(BoolV(flag)) => flag
      case _ => false
    }

    function IntegerFor(key: string): (r: Option<int>)
      reads this
      ensures r.Some? <==> key in userDefaults && userDefaults[key].IntV?
      ensures r.Some? ==> userDefaults[key] == IntV(r.value)
    {
      match Lookup(userDefaults, key)
      case Some(IntV(n)) => Some(n)
      case _ => None
    }

    function FloatFor(key: string): (r: Option<bv32>)
      reads this
      ensures r.Some? <==> key in userDefaults && userDefaults[key].FloatV?
      ensures r.Some? ==> userDefaults[key] == FloatV(r.value)
    {
      match Lookup(userDefaults, key)
      case Some(FloatV(bits)) => Some(bits)
      case _ => None
    }

    function UrlFor(key: string): (r: Option<string>)
      reads this
      ensures r.Some? <==> key in userDefaults && userDefaults[key].UrlV?
      ensures r.Some? ==> userDefaults[key] == UrlV(r.value)
    {
      match Lookup(userDefaults, key)
      case Some(UrlV(url)) => Some(url)
      case _ => None
    }

    function ObjectFor(key: string): (r: Option<Value>)
      reads this
      ensures r.Some? <==> key in userDefaults
      ensures r.Some? ==> r.value == userDefaults[key]
    {
      Lookup(userDefaults, key)
    }

    // ---- Setters ---------------------------------------------------------

    /** `register(defaults:)`: fill in only the keys that are missing, then synchronize. */
    method Register(defaults: Dictionary)
      modifies this`userDefaults, standard
      ensures userDefaults == RegisterDefaults(old(userDefaults), defaults)
      ensures identifier == old(identifier)
      ensures standard.entries == old(standard.entries)[identifier := DictV(userDefaults)]
      ensures Persisted()
    {
      var pending := defaults.Keys;
      while pending != {}
        invariant pending <= defaults.Keys
        invariant userDefaults == RegisterDefaults(old(userDefaults), defaults - pending)
        invariant standard.entries == old(standard.entries)
        decreases pending
      {
        var key :| key in pending;
        if key !in userDefaults {
          userDefaults := userDefaults[key := defaults[key]];
        }
        pending := pending - {key};
      }
      assert defaults - pending == defaults;
      Synchronize();
    }

    /** `set(_:forKey:)`: a nil value removes the key; then synchronize. */
    method Set(value: Option<Value>, key: string)
      modifies this`userDefaults, standard
      ensures userDefaults == Assign(old(userDefaults), key, value)
      ensures ObjectFor(key) == value
      ensures forall k :: k != key ==> ObjectFor(k) == old(ObjectFor(k))
      ensures identifier == old(identifier)
      ensures standard.entries == old(standard.entries)[identifier := DictV(userDefaults)]
      ensures Persisted()
    {
      userDefaults := Assign(userDefaults, key, value);
      Synchronize();
    }

    /** `removeObject(key:)`: drop one key; then synchronize. */
    method RemoveObject(key: string)
      modifies this`userDefaults, standard
      ensures userDefaults == old(userDefaults) - {key}
      ensures ObjectFor(key) == None
      ensures forall k :: k != key ==> ObjectFor(k) == old(ObjectFor(k))
      ensures identifier == old(identifier)
      ensures standard.entries == old(standard.entries)[identifier := DictV(userDefaults)]
      ensures Persisted()
    {
      userDefaults := userDefaults - {key};
      Synchronize();
    }

    /** The getter of `subscript(key: String) -> Any?`. */
    function Subscript(key: string): (r: Option<Value>)
      reads this
      ensures r == ObjectFor(key)
    {
      ObjectFor(key)
    }

    /** The setter of `subscript(key: String) -> Any?`. */
    method SetSubscript(newValue: Option<Value>, key: string)
      modifies this`userDefaults, standard
      ensures userDefaults == Assign(old(userDefaults), key, newValue)
      ensures Subscript(key) == newValue
      ensures identifier == old(identifier)
      ensures standard.entries == old(standard.entries)[identifier := DictV(userDefaults)]
      ensures Persisted()
    {
      Set(newValue, key);
    }

    // ---- Codable objects -------------------------------------------------

    /** `object(_:with:)`: decode the Data stored at `key`; nil when there is none or decoding fails. */
    function DecodedObject<T>(codec: Codec<T>, key: string): (r: Option<T>)
      reads this
      ensures DataFor(key).None? ==> r.None?
      ensures DataFor(key).Some? ==> r == codec.decode(DataFor(key).value)
    {
      match DataFor(key)
      case Some(bytes) => codec.decode(bytes)
      case None => None
    }

    /** `set(object:forKey:)`: store the encoded Data, or remove the key when encoding fails. */
    method SetObject<T>(item: T, codec: Codec<T>, key: string)
      modifies this`userDefaults, standard
      ensures userDefaults == Assign(old(userDefaults), key, Encoded(codec, item))
      ensures codec.encode(item).None? ==> key !in userDefaults
      ensures DecodedObject(codec, key) ==
                if codec.encode(item).Some? then codec.decode(codec.encode(item).value) else None
      ensures identifier == old(identifier)
      ensures standard.entries == old(standard.entries)[identifier := DictV(userDefaults)]
      ensures Persisted()
    {
      Set(Encoded(codec, item), key);
    }

    // ---- UserDefaultsKey accessors ---------------------------------------

    function DataForKey(key: UserDefaultsKey): (r: Option<Bytes>)
      reads this
      ensures r == DataFor(key.RawValue())
    {
      DataFor(key.RawValue())
    }

    /** `set(_:for:)`: a non-optional value, so it never removes the key. */
    method SetForKey(value: Value, key: UserDefaultsKey)
      modifies this`userDefaults, standard
      ensures userDefaults == old(userDefaults)[key.RawValue() := value]
      ensures identifier == old(identifier)
      ensures standard.entries == old(standard.entries)[identifier := DictV(userDefaults)]
      ensures Persisted()
    {
      Set(Some(value), key.RawValue());
    }

    function BoolForKey(key: UserDefaultsKey): (r: bool)
      reads this
      ensures r == BoolFor(key.RawValue())
    {
      BoolFor(key.RawValue())
    }

    function StringForKey(key: UserDefaultsKey): (r: Option<string>)
      reads this
      ensures r == StringFor(key.RawValue())
    {
      StringFor(key.RawValue())
    }

    function IntegerForKey(key: UserDefaultsKey): (r: Option<int>)
      reads this
      ensures r == IntegerFor(key.RawValue())
    {
      IntegerFor(key.RawValue())
    }

    function FloatForKey(key: UserDefaultsKey): (r: Option<bv32>)
      reads this
      ensures r == FloatFor(key.RawValue())
    {
      FloatFor(key.RawValue())
    }

    function UrlForKey(key: UserDefaultsKey): (r: Option<string>)
      reads this
      ensures r == UrlFor(key.RawValue())
    {
      UrlFor(key.RawValue())
    }

    function DecodedObjectForKey<T>(codec: Codec<T>, key: UserDefaultsKey): (r: Option<T>)
      reads this
      ensures r == DecodedObject(codec, key.RawValue())
    {
      match DataForKey(key)
      case Some(bytes) => codec.decode(bytes)
      case None => None
    }

    method SetObjectForKey<T>(item: T, codec: Codec<T>, key: UserDefaultsKey)
      modifies this`userDefaults, standard
      ensures userDefaults == Assign(old(userDefaults), key.RawValue(), Encoded(codec, item))
      ensures DecodedObjectForKey(codec, key) ==
                if codec.encode(item).Some? then codec.decode(codec.encode(item).value) else None
      ensures identifier == old(identifier)
      ensures standard.entries == old(standard.entries)[identifier := DictV(userDefaults)]
      ensures Persisted()
    {
      Set(Encoded(codec, item), key.RawValue());
    }

    /** The getter of the generic `subscript(key: UserDefaultsKey) -> T?`. */
    function KeyedSubscript<T>(codec: Codec<T>, key: UserDefaultsKey): (r: Option<T>)
      reads this
      ensures r == DecodedObjectForKey(codec, key)
    {
      DecodedObject(codec, key.RawValue())
    }

    /**
     * The setter of the generic subscript: the optional new value itself is
     * encoded (with the codec of `T?`) and stored as Data, so the raw value is
     * never what the key holds and `string(for:)` on it is always nil.
     */
    method SetKeyedSubscript<T>(newValue: Option<T>, codec: Codec<Option<T>>, key: UserDefaultsKey)
      modifies this`userDefaults, standard
      ensures userDefaults == Assign(old(userDefaults), key.RawValue(), Encoded(codec, newValue))
      ensures StringForKey(key) == None
      ensures identifier == old(identifier)
      ensures standard.entries == old(standard.entries)[identifier := DictV(userDefaults)]
      ensures Persisted()
    {
      SetObjectForKey(newValue, codec, key);
    }
  }
}
