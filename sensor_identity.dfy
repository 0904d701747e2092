/**
 * The one place the app reads back a value it stored as a plain String: the
 * lazily computed sensor ID of ViewController.swift, which reads the key
 * with `string(for:)` but writes it through the Codable subscript.
 */
module SensorIdentity {

  import opened Wrappers
  import opened StoreValues
  import opened DefaultsKeys
  import opened UserDefaultsStore

  /** The identifier of the app's shared store, `UserDefaults.user`. */
  const SharedStoreIdentifier: string := "id"

  /** Whether a String is persisted under `sensorID` for the shared store. */
  predicate HasPersistedSensorID(platform: Dictionary) {
    var m := Restored(platform, IdentifierFor(SharedStoreIdentifier));
    SensorID.RawValue() in m && m[SensorID.RawValue()].StringV?
  }

  /** The `sensorID` lazy property as written: a fresh UUID is stored through the subscript. */
  method SensorIDAsWritten(store: CustomUserDefaults, freshUuid: string, codec: Codec<Option<string>>)
    returns (id: string)
    modifies store`userDefaults, store.standard
    ensures old(store.StringForKey(SensorID)).Some? ==> id == old(store.StringForKey(SensorID)).value
    ensures old(store.StringForKey(SensorID)).Some? ==> store.userDefaults == old(store.userDefaults)
    ensures old(store.StringForKey(SensorID)).Some? ==> store.standard.entries == old(store.standard.entries)
    ensures old(store.StringForKey(SensorID)).None? ==> id == freshUuid && store.StringForKey(SensorID) == None
    ensures old(store.StringForKey(SensorID)).None? ==>
              store.userDefaults == Assign(old(store.userDefaults), SensorID.RawValue(), Encoded(codec, Some(freshUuid)))
    ensures old(store.StringForKey(SensorID)).None? ==>
              store.standard.entries == old(store.standard.entries)[store.identifier := DictV(store.userDefaults)]
    ensures store.identifier == old(store.identifier)
    ensures old(store.StringForKey(SensorID)).None? ==>
              Restored(store.standard.entries, store.identifier) == store.userDefaults
  {
    var stored := store.StringForKey(SensorID);
    if stored.Some? {
      id := stored.value;
      return;
    }
    store.SetKeyedSubscript(Some(freshUuid), codec, SensorID);
    id := freshUuid;
  }

  /** The same property with the ID stored as a String, `set(uuid, for: .sensorID)`. */
  method SensorIDCorrected(store: CustomUserDefaults, freshUuid: string)
    returns (id: string)
    modifies store`userDefaults, store.standard
    ensures old(store.StringForKey(SensorID)).Some? ==> id == old(store.StringForKey(SensorID)).value
    ensures old(store.StringForKey(SensorID)).None? ==> id == freshUuid
    ensures old(store.StringForKey(SensorID)).Some? ==> store.userDefaults == old(store.userDefaults)
    ensures old(store.StringForKey(SensorID)).Some? ==> store.standard.entries == old(store.standard.entries)
    ensures old(store.StringForKey(SensorID)).None? ==>
              store.userDefaults == old(store.userDefaults)[SensorID.RawValue() := StringV(freshUuid)]
    ensures old(store.StringForKey(SensorID)).None? ==>
              store.standard.entries == old(store.standard.entries)[store.identifier := DictV(store.userDefaults)]
    ensures store.StringForKey(SensorID) == Some(id)
    ensures store.identifier == old(store.identifier)
    ensures old(store.StringForKey(SensorID)).None? ==>
              Restored(store.standard.entries, store.identifier) == store.userDefaults
  {
    var stored := store.StringForKey(SensorID);
    if stored.Some? {
      id := stored.value;
      return;
    }
    store.SetForKey(StringV(freshUuid), SensorID);
    id := freshUuid;
  }

  /**
   * Two launches of the app as written, on a device with no sensor ID yet:
   * each launch generates and reports a new UUID, so the "persisted" sensor
   * ID changes on every launch.
   */
  method RelaunchAsWritten(platform: Dictionary, firstUuid: string, secondUuid: string,
                           codec: Codec<Option<string>>)
    returns (firstID: string, secondID: string)
    requires !HasPersistedSensorID(platform)
    ensures firstID == firstUuid && secondID == secondUuid
  {
    var standard := new PlatformDefaults(platform);
    var launch1 := new CustomUserDefaults(SharedStoreIdentifier, standard);
    firstID := SensorIDAsWritten(launch1, firstUuid, codec);
    var launch2 := new CustomUserDefaults(SharedStoreIdentifier, standard);
    secondID := SensorIDAsWritten(launch2, secondUuid, codec);
  }

  /** With the corrected property the second launch reads back the first launch's ID. */
  method RelaunchCorrected(platform: Dictionary, firstUuid: string, secondUuid: string)
    returns (firstID: string, secondID: string)
    requires !HasPersistedSensorID(platform)
    ensures firstID == firstUuid && secondID == firstUuid
  {
    var standard := new PlatformDefaults(platform);
    var launch1 := new CustomUserDefaults(SharedStoreIdentifier, standard);
    firstID := SensorIDCorrected(launch1, firstUuid);
    var launch2 := new CustomUserDefaults(SharedStoreIdentifier, standard);
    secondID := SensorIDCorrected(launch2, secondUuid);
  }
}
