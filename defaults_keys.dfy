/** `enum UserDefaultsKey: String` (CustomUserDefaults+UserDefaultsKey.swift). */
module DefaultsKeys {

  import opened Wrappers

  datatype UserDefaultsKey = SensorLightning | SensorID {

    /** `rawValue`: the case name. */
    function RawValue(): (raw: string)
      ensures raw == "sensorLightning" || raw == "sensorID"
    {
      match this
      case SensorLightning => "sensorLightning"
      case SensorID => "sensorID"
    }
  }

  /** `UserDefaultsKey(rawValue:)`. */
  function FromRawValue(raw: string): (key: Option<UserDefaultsKey>)
    ensures key.Some? ==> key.value.RawValue() == raw
  {
    if raw == "sensorLightning" then Some(SensorLightning)
    else if raw == "sensorID" then Some(SensorID)
    else None
  }

  lemma RawValueRoundTrip(key: UserDefaultsKey)
    ensures FromRawValue(key.RawValue()) == Some(key)
  {
  }

  /** The two keys never alias in the store. */
  lemma RawValuesAreDistinct(a: UserDefaultsKey, b: UserDefaultsKey)
    ensures a.RawValue() == b.RawValue() <==> a == b
  {
    RawValueRoundTrip(a);
    RawValueRoundTrip(b);
  }
}
