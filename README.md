# FinalDEVChallenge2022 — verified model of the app's helpers

The app listens for thunder through the microphone and shows each heard
event as a `Lightning` pin on a map, next to sample events, clustered. This
project models, in Dafny, the parts of it that hold logic of their own:

- **`CustomUserDefaults`** keeps an in-memory `[String: Any]` dictionary.
  `register`, `set` and `removeObject` write the whole dictionary back into
  the platform store (`UserDefaults.standard`) under
  `"userdefaults.identifier." + id`. `removeUser` deletes that entry, and
  `updateIdentifier` writes nothing. The
  model adds the typed getters, `register(defaults:)`, the subscripts, the
  Codable `object`/`set(object:)` pair and the `UserDefaultsKey` accessors.
  `Any` is a tagged `Value`. The platform store is a separate
  `PlatformDefaults` object, shared the way `UserDefaults.standard` is. The
  JSON codec is a `Codec` parameter: a pair of partial functions with no law
  between them.
- **The array helpers of `Array where Element: MKAnnotation`**
  (`subtracted`, `subtract`, `add`, `remove`). They take an `isEqual`
  parameter.
- **The `UIColor(rgb:)` channel split.**
- **The equality rules**: coordinate `==` and `hash` with IEEE 754 double
  equality (NaN equals nothing, +0.0 equals -0.0); `Lightning`'s `==`,
  `hash` and `CodingKeys`; cluster annotation `isEqual`.
- **The cluster views**: the count label, the count→radius and
  count→diameter-factor tables, and the one-shot label adjustment.

Swift doubles are bit patterns (`bv64`). `CGFloat` sizes are exact reals.
Swift's `>>` and `& 0xFF` on `Int` are Dafny's Euclidean `/` and `%` by
the positive powers of two used here. A Swift
subclass is modelled as a flag (`Annotation.isCluster`) or as a `base`
object that holds the superclass part of a view.

`isEqual` (Annotation.swift:43) compares the member coordinates in order,
not as a multiset: `Annotations.SameClusterIsOrderSensitive` shows two
clusters with the same members in another order that are not equal.

## Model

| member | source | states |
|---|---|---|
| `Doubles.HashWord` | FinalDEVChallenge2022/FinalDEVChallenge2022/Helpers/Claster/Extensions.swift:93-96 | the word hashed for a double is never -0.0; it is zero or NaN exactly when the double is, and otherwise the double itself |
| `Doubles.Equal` | FinalDEVChallenge2022/FinalDEVChallenge2022/Helpers/Claster/Extensions.swift:99-101 | Double `==`: true exactly when neither side is NaN and both hash the same word (so +0.0 equals -0.0) |
| `Doubles.EqualIsSymmetric` | FinalDEVChallenge2022/FinalDEVChallenge2022/Helpers/Claster/Extensions.swift:99-101 | Double `==` is symmetric |
| `Doubles.EqualIsTransitive` | FinalDEVChallenge2022/FinalDEVChallenge2022/Helpers/Claster/Extensions.swift:99-101 | Double `==` is transitive |
| `Doubles.EqualReflexiveUnlessNaN` | FinalDEVChallenge2022/FinalDEVChallenge2022/Helpers/Claster/Extensions.swift:99-101 | a double equals itself exactly when it is not NaN |
| `Doubles.EqualImpliesSameHashWord` | FinalDEVChallenge2022/FinalDEVChallenge2022/Helpers/Claster/Extensions.swift:93-96 | equal doubles feed the hasher the same word, because -0.0 is normalised to +0.0 |
| `Doubles.ZerosAreEqualWithDifferentBits` | FinalDEVChallenge2022/FinalDEVChallenge2022/Helpers/Claster/Extensions.swift:99-101 | +0.0 and -0.0 are `==` although their bits differ |
| `Doubles.NaNIsNotEqualToItself` | FinalDEVChallenge2022/FinalDEVChallenge2022/Helpers/Claster/Extensions.swift:99-101 | a NaN is not `==` to itself |
| `Geometry.HashInput` | FinalDEVChallenge2022/FinalDEVChallenge2022/Helpers/Claster/Extensions.swift:92-96 | `hash` combines two words, latitude then longitude; neither is -0.0, and one is NaN exactly when the coordinate has a NaN |
| `Geometry.Equal` | FinalDEVChallenge2022/FinalDEVChallenge2022/Helpers/Claster/Extensions.swift:99-101 | coordinate `==`: true exactly when neither coordinate has a NaN and both hash the same words |
| `Geometry.EqualIsSymmetric` | FinalDEVChallenge2022/FinalDEVChallenge2022/Helpers/Claster/Extensions.swift:99-101 | coordinate `==` (latitude and longitude both equal) is symmetric |
| `Geometry.EqualIsTransitive` | FinalDEVChallenge2022/FinalDEVChallenge2022/Helpers/Claster/Extensions.swift:99-101 | coordinate `==` is transitive |
| `Geometry.EqualReflexiveUnlessNaN` | FinalDEVChallenge2022/FinalDEVChallenge2022/Helpers/Claster/Extensions.swift:99-101 | a coordinate equals itself exactly when neither component is NaN |
| `Geometry.EqualImpliesSameHash` | FinalDEVChallenge2022/FinalDEVChallenge2022/Helpers/Claster/Extensions.swift:92-101 | `hash` combines latitude then longitude, so `==` coordinates hash alike |
| `Lightnings.Equal` | FinalDEVChallenge2022/FinalDEVChallenge2022/Model/Lightning.swift:25-28 | definition of `==`: the `sensorID`s and the `eventID`s are equal (properties in the lemmas below) |
| `Lightnings.HashInput` | FinalDEVChallenge2022/FinalDEVChallenge2022/Model/Lightning.swift:30-33 | definition of `hash(into:)`: it combines `sensorID`, then `eventID` |
| `Lightnings.EqualIsEquivalence` | FinalDEVChallenge2022/FinalDEVChallenge2022/Model/Lightning.swift:25-28 | `==`, which compares `sensorID` and `eventID` only, is reflexive, symmetric and transitive |
| `Lightnings.EqualIgnoresMeasurements` | FinalDEVChallenge2022/FinalDEVChallenge2022/Model/Lightning.swift:25-28 | changing lat, lon, timestamp or db never affects `==` |
| `Lightnings.HashAgreesWithEqual` | FinalDEVChallenge2022/FinalDEVChallenge2022/Model/Lightning.swift:25-33 | two records hash the same values exactly when they are `==` |
| `Lightnings.KeyName` | FinalDEVChallenge2022/FinalDEVChallenge2022/Model/Lightning.swift:17-21 | definition of each coding key's string value (properties in the lemmas below) |
| `Lightnings.KeyNamed` | FinalDEVChallenge2022/FinalDEVChallenge2022/Model/Lightning.swift:17-21 | the key found for an external name carries that name |
| `Lightnings.KeyNamesRoundTrip` | FinalDEVChallenge2022/FinalDEVChallenge2022/Model/Lightning.swift:17-21 | each coding key is found again from its name (`sensorId`, `lat`, `lon`, `timestamp`, `eventId`) |
| `Lightnings.NoKeyForDb` | FinalDEVChallenge2022/FinalDEVChallenge2022/Model/Lightning.swift:15-21 | no coding key is named "db" |
| `Lightnings.Encode` | FinalDEVChallenge2022/FinalDEVChallenge2022/Model/Lightning.swift:11-21 | the encoded container has exactly the five coding-key names and no "db" entry |
| `Lightnings.Decode` | FinalDEVChallenge2022/FinalDEVChallenge2022/Model/Lightning.swift:11-21 | decoding succeeds exactly when all five keys hold values of the right type, and always yields `db == nil` |
| `Lightnings.DecodeEncode` | FinalDEVChallenge2022/FinalDEVChallenge2022/Model/Lightning.swift:11-21 | encode then decode keeps every field except `db`, which comes back nil |
| `Lightnings.EncodeIgnoresDb` | FinalDEVChallenge2022/FinalDEVChallenge2022/Model/Lightning.swift:15-21 | records differing only in `db` encode identically, so a persisted dB reading is lost |
| `Lightnings.DecodedCopyIsEqual` | FinalDEVChallenge2022/FinalDEVChallenge2022/Model/Lightning.swift:17-33 | the decoded copy is `==` to the original and hashes alike |
| `StoreValues.Assign` | FinalDEVChallenge2022/FinalDEVChallenge2022/Helpers/CustomUserDefaults/CustomUserDefaults.swift:81 | after `dict[key] = value` the key holds `value` (nil: absent) and every other key is unchanged |
| `StoreValues.RegisterDefaults` | FinalDEVChallenge2022/FinalDEVChallenge2022/Helpers/CustomUserDefaults/CustomUserDefaults.swift:72-76 | the keys are the old keys plus the defaults' keys; existing values are kept and only missing keys take the default |
| `StoreValues.RegisterIsIdempotent` | FinalDEVChallenge2022/FinalDEVChallenge2022/Helpers/CustomUserDefaults/CustomUserDefaults.swift:72-76 | registering the same defaults twice equals registering them once |
| `StoreValues.RegisterKeepsExisting` | FinalDEVChallenge2022/FinalDEVChallenge2022/Helpers/CustomUserDefaults/CustomUserDefaults.swift:73 | a value present before `register` is never overwritten |
| `StoreValues.Restored` | FinalDEVChallenge2022/FinalDEVChallenge2022/Helpers/CustomUserDefaults/CustomUserDefaults.swift:19-23 | a new store loads the platform entry under its identifier when that entry is a dictionary, and starts empty otherwise |
| `StoreValues.RestoreAfterPersist` | FinalDEVChallenge2022/FinalDEVChallenge2022/Helpers/CustomUserDefaults/CustomUserDefaults.swift:17-39 | a dictionary synchronized under an identifier is exactly what a store created with that identifier loads |
| `StoreValues.RestoreAfterClear` | FinalDEVChallenge2022/FinalDEVChallenge2022/Helpers/CustomUserDefaults/CustomUserDefaults.swift:17-34 | after `removeUser` a store created with that identifier starts empty |
| `StoreValues.RestoreIgnoresOtherIdentifiers` | FinalDEVChallenge2022/FinalDEVChallenge2022/Helpers/CustomUserDefaults/CustomUserDefaults.swift:17-39 | synchronizing under one identifier does not change what any other identifier loads |
| `StoreValues.Encoded` | FinalDEVChallenge2022/FinalDEVChallenge2022/Helpers/CustomUserDefaults/CustomUserDefaults.swift:122-124 | `try? encode` gives Data when encoding succeeds and nil when it fails |
| `StoreValues.EncodedIsNeverString` | FinalDEVChallenge2022/FinalDEVChallenge2022/Helpers/CustomUserDefaults/CustomUserDefaults+UserDefaultsKey.swift:74-77 | what a codec stores is Data or nothing, never a String |
| `DefaultsKeys.UserDefaultsKey.RawValue` | FinalDEVChallenge2022/FinalDEVChallenge2022/Helpers/CustomUserDefaults/CustomUserDefaults+UserDefaultsKey.swift:7-10 | the raw value is "sensorLightning" or "sensorID" |
| `DefaultsKeys.FromRawValue` | FinalDEVChallenge2022/FinalDEVChallenge2022/Helpers/CustomUserDefaults/CustomUserDefaults+UserDefaultsKey.swift:7-10 | the key returned by `init(rawValue:)` has that raw value |
| `DefaultsKeys.RawValueRoundTrip` | FinalDEVChallenge2022/FinalDEVChallenge2022/Helpers/CustomUserDefaults/CustomUserDefaults+UserDefaultsKey.swift:7-10 | `init(rawValue: key.rawValue)` gives the key back |
| `DefaultsKeys.RawValuesAreDistinct` | FinalDEVChallenge2022/FinalDEVChallenge2022/Helpers/CustomUserDefaults/CustomUserDefaults+UserDefaultsKey.swift:7-10 | two keys share a raw value only when they are the same key, so they never alias |
| `UserDefaultsStore.PlatformDefaults.Set` | FinalDEVChallenge2022/FinalDEVChallenge2022/Helpers/CustomUserDefaults/CustomUserDefaults.swift:30-39 | `standard.set(_:forKey:)`: the entry for the key becomes the value (nil removes it); every other entry is unchanged |
| `UserDefaultsStore.IdentifierFor` | FinalDEVChallenge2022/FinalDEVChallenge2022/Helpers/CustomUserDefaults/CustomUserDefaults.swift:18 | the identifier is the prefix "userdefaults.identifier." followed by the given id |
| `UserDefaultsStore.IdentifierForIsInjective` | FinalDEVChallenge2022/FinalDEVChallenge2022/Helpers/CustomUserDefaults/CustomUserDefaults.swift:18 | different ids never share a platform entry |
| `UserDefaultsStore.CustomUserDefaults.constructor` | FinalDEVChallenge2022/FinalDEVChallenge2022/Helpers/CustomUserDefaults/CustomUserDefaults.swift:17-24 | sets the namespaced identifier and loads the persisted dictionary, or an empty one |
| `UserDefaultsStore.CustomUserDefaults.UpdateIdentifier` | FinalDEVChallenge2022/FinalDEVChallenge2022/Helpers/CustomUserDefaults/CustomUserDefaults.swift:26-28 | only the identifier changes; the dictionary and the platform store are untouched |
| `UserDefaultsStore.CustomUserDefaults.RemoveUser` | FinalDEVChallenge2022/FinalDEVChallenge2022/Helpers/CustomUserDefaults/CustomUserDefaults.swift:30-34 | the dictionary becomes empty and the platform entry for the identifier is removed |
| `UserDefaultsStore.CustomUserDefaults.Synchronize` | FinalDEVChallenge2022/FinalDEVChallenge2022/Helpers/CustomUserDefaults/CustomUserDefaults.swift:36-39 | the platform entry under the identifier becomes the whole dictionary; other entries are unchanged |
| `UserDefaultsStore.CustomUserDefaults.DataFor` | FinalDEVChallenge2022/FinalDEVChallenge2022/Helpers/CustomUserDefaults/CustomUserDefaults.swift:42-44 | returns the bytes exactly when the key holds Data, nil otherwise |
| `UserDefaultsStore.CustomUserDefaults.StringFor` | FinalDEVChallenge2022/FinalDEVChallenge2022/Helpers/CustomUserDefaults/CustomUserDefaults.swift:46-48 | returns the text exactly when the key holds a String, nil otherwise |
| `UserDefaultsStore.CustomUserDefaults.BoolFor` | FinalDEVChallenge2022/FinalDEVChallenge2022/Helpers/CustomUserDefaults/CustomUserDefaults.swift:50-52 | true exactly when the key holds the Bool true; false when the key is absent or holds anything else |
| `UserDefaultsStore.CustomUserDefaults.IntegerFor` | FinalDEVChallenge2022/FinalDEVChallenge2022/Helpers/CustomUserDefaults/CustomUserDefaults.swift:54-56 | returns the number exactly when the key holds an Int |
| `UserDefaultsStore.CustomUserDefaults.FloatFor` | FinalDEVChallenge2022/FinalDEVChallenge2022/Helpers/CustomUserDefaults/CustomUserDefaults.swift:58-60 | returns the float exactly when the key holds a Float |
| `UserDefaultsStore.CustomUserDefaults.UrlFor` | FinalDEVChallenge2022/FinalDEVChallenge2022/Helpers/CustomUserDefaults/CustomUserDefaults.swift:62-64 | returns the URL exactly when the key holds a URL |
| `StoreValues.Lookup` | FinalDEVChallenge2022/FinalDEVChallenge2022/Helpers/CustomUserDefaults/CustomUserDefaults.swift:67 | definition of `userDefaults[key]`: the stored value, or nil when the key is absent (every getter reads through it) |
| `UserDefaultsStore.CustomUserDefaults.ObjectFor` | FinalDEVChallenge2022/FinalDEVChallenge2022/Helpers/CustomUserDefaults/CustomUserDefaults.swift:66-68 | returns the stored value, whatever its type, or nil when the key is absent |
| `UserDefaultsStore.CustomUserDefaults.Register` | FinalDEVChallenge2022/FinalDEVChallenge2022/Helpers/CustomUserDefaults/CustomUserDefaults.swift:72-78 | the loop fills only missing keys, whatever order it visits them in, then persists the dictionary |
| `UserDefaultsStore.CustomUserDefaults.Set` | FinalDEVChallenge2022/FinalDEVChallenge2022/Helpers/CustomUserDefaults/CustomUserDefaults.swift:80-83 | `object(for: key)` becomes the value (nil removes it), every other key is unchanged, and the platform mirror is updated |
| `UserDefaultsStore.CustomUserDefaults.RemoveObject` | FinalDEVChallenge2022/FinalDEVChallenge2022/Helpers/CustomUserDefaults/CustomUserDefaults.swift:85-88 | only that key is removed, and the platform mirror is updated |
| `UserDefaultsStore.CustomUserDefaults.Subscript` | FinalDEVChallenge2022/FinalDEVChallenge2022/Helpers/CustomUserDefaults/CustomUserDefaults.swift:94-96 | the subscript getter is `object(for:)` |
| `UserDefaultsStore.CustomUserDefaults.SetSubscript` | FinalDEVChallenge2022/FinalDEVChallenge2022/Helpers/CustomUserDefaults/CustomUserDefaults.swift:97-99 | the subscript setter is `set(_:forKey:)`; the value is read back through the getter |
| `UserDefaultsStore.CustomUserDefaults.DecodedObject` | FinalDEVChallenge2022/FinalDEVChallenge2022/Helpers/CustomUserDefaults/CustomUserDefaults.swift:109-114 | nil when the key holds no Data; otherwise whatever decoding the Data gives, nil on failure |
| `UserDefaultsStore.CustomUserDefaults.SetObject` | FinalDEVChallenge2022/FinalDEVChallenge2022/Helpers/CustomUserDefaults/CustomUserDefaults.swift:122-125 | stores the encoded Data, or removes the key when encoding fails; a later `object` gives `decode(encode(x))` |
| `UserDefaultsStore.CustomUserDefaults.DataForKey` | FinalDEVChallenge2022/FinalDEVChallenge2022/Helpers/CustomUserDefaults/CustomUserDefaults+UserDefaultsKey.swift:26-28 | equals `data(for: key.rawValue)` |
| `UserDefaultsStore.CustomUserDefaults.SetForKey` | FinalDEVChallenge2022/FinalDEVChallenge2022/Helpers/CustomUserDefaults/CustomUserDefaults+UserDefaultsKey.swift:30-32 | stores the non-optional value at `key.rawValue` and persists |
| `UserDefaultsStore.CustomUserDefaults.BoolForKey` | FinalDEVChallenge2022/FinalDEVChallenge2022/Helpers/CustomUserDefaults/CustomUserDefaults+UserDefaultsKey.swift:34-36 | equals `bool(for: key.rawValue)` |
| `UserDefaultsStore.CustomUserDefaults.StringForKey` | FinalDEVChallenge2022/FinalDEVChallenge2022/Helpers/CustomUserDefaults/CustomUserDefaults+UserDefaultsKey.swift:38-40 | equals `string(for: key.rawValue)` |
| `UserDefaultsStore.CustomUserDefaults.IntegerForKey` | FinalDEVChallenge2022/FinalDEVChallenge2022/Helpers/CustomUserDefaults/CustomUserDefaults+UserDefaultsKey.swift:42-44 | equals `integer(for: key.rawValue)` |
| `UserDefaultsStore.CustomUserDefaults.FloatForKey` | FinalDEVChallenge2022/FinalDEVChallenge2022/Helpers/CustomUserDefaults/CustomUserDefaults+UserDefaultsKey.swift:46-48 | equals `float(for: key.rawValue)` |
| `UserDefaultsStore.CustomUserDefaults.UrlForKey` | FinalDEVChallenge2022/FinalDEVChallenge2022/Helpers/CustomUserDefaults/CustomUserDefaults+UserDefaultsKey.swift:50-52 | equals `url(for: key.rawValue)` |
| `UserDefaultsStore.CustomUserDefaults.DecodedObjectForKey` | FinalDEVChallenge2022/FinalDEVChallenge2022/Helpers/CustomUserDefaults/CustomUserDefaults+UserDefaultsKey.swift:61-66 | equals the String-keyed `object(_:with:)` at `key.rawValue` |
| `UserDefaultsStore.CustomUserDefaults.SetObjectForKey` | FinalDEVChallenge2022/FinalDEVChallenge2022/Helpers/CustomUserDefaults/CustomUserDefaults+UserDefaultsKey.swift:74-77 | stores `encode(x)` at `key.rawValue` (nil on failure, which removes it); a later `object` gives `decode(encode(x))` |
| `UserDefaultsStore.CustomUserDefaults.KeyedSubscript` | FinalDEVChallenge2022/FinalDEVChallenge2022/Helpers/CustomUserDefaults/CustomUserDefaults+UserDefaultsKey.swift:15-17 | the generic subscript getter is `object(T.self, with: key.rawValue)` |
| `UserDefaultsStore.CustomUserDefaults.SetKeyedSubscript` | FinalDEVChallenge2022/FinalDEVChallenge2022/Helpers/CustomUserDefaults/CustomUserDefaults+UserDefaultsKey.swift:18-20 | the setter stores the encoded optional, never the raw value, so `string(for:)` on that key then returns nil |
| `SensorIdentity.SensorIDAsWritten` | FinalDEVChallenge2022/FinalDEVChallenge2022/Controller/ViewController.swift:71-78 | returns a stored String ID if there is one; otherwise returns the fresh UUID and leaves no String at the key |
| `SensorIdentity.SensorIDCorrected` | FinalDEVChallenge2022/FinalDEVChallenge2022/Controller/ViewController.swift:71-78 | same, but the fresh UUID is stored as a String and reads back as the returned ID |
| `SensorIdentity.RelaunchAsWritten` | FinalDEVChallenge2022/FinalDEVChallenge2022/Controller/ViewController.swift:71-78 | on a device with no stored ID, two launches report two different fresh UUIDs |
| `SensorIdentity.RelaunchCorrected` | FinalDEVChallenge2022/FinalDEVChallenge2022/Controller/ViewController.swift:71-78 | with the correction, the second launch reads back the first launch's ID |
| `AnnotationArrays.Matches` | FinalDEVChallenge2022/FinalDEVChallenge2022/Helpers/Claster/Extensions.swift:135 | definition of `other.contains { $0.isEqual(item) }`: some element of `other` is `isEqual` to the item |
| `AnnotationArrays.Subtracted` | FinalDEVChallenge2022/FinalDEVChallenge2022/Helpers/Claster/Extensions.swift:134-136 | no longer than `self`; holds only elements of `self` without an equal in `other`, and every such element |
| `AnnotationArrays.SubtractedIsSubsequence` | FinalDEVChallenge2022/FinalDEVChallenge2022/Helpers/Claster/Extensions.swift:134-136 | the result is a subsequence of `self`: the original order is kept |
| `AnnotationArrays.SubtractedCounts` | FinalDEVChallenge2022/FinalDEVChallenge2022/Helpers/Claster/Extensions.swift:134-136 | each unmatched element survives as many times as it occurs in `self`; each matched one disappears |
| `AnnotationArrays.SubtractedNothing` | FinalDEVChallenge2022/FinalDEVChallenge2022/Helpers/Claster/Extensions.swift:134-136 | `subtracted([])` is `self` |
| `AnnotationArrays.SubtractedCovered` | FinalDEVChallenge2022/FinalDEVChallenge2022/Helpers/Claster/Extensions.swift:134-136 | when every element has an equal in `other`, the result is empty |
| `AnnotationArrays.SubtractedSelf` | FinalDEVChallenge2022/FinalDEVChallenge2022/Helpers/Claster/Extensions.swift:134-136 | subtracting an array from itself is empty when `isEqual` is reflexive on its elements |
| `AnnotationArrays.Subtract` | FinalDEVChallenge2022/FinalDEVChallenge2022/Helpers/Claster/Extensions.swift:137-139 | the new array is `old.subtracted(other)` |
| `AnnotationArrays.Add` | FinalDEVChallenge2022/FinalDEVChallenge2022/Helpers/Claster/Extensions.swift:140-142 | the new array is the old one followed by `other` |
| `AnnotationArrays.FirstIndex` | FinalDEVChallenge2022/FinalDEVChallenge2022/Helpers/Claster/Extensions.swift:145 | the index of the first element equal to the item, or nil exactly when there is none |
| `AnnotationArrays.Remove` | FinalDEVChallenge2022/FinalDEVChallenge2022/Helpers/Claster/Extensions.swift:143-146 | removes and returns the first element equal to the item, the rest keeping their order; nil and no change when there is none |
| `Colors.FromComponents` | FinalDEVChallenge2022/FinalDEVChallenge2022/Helpers/Claster/Extensions.swift:19-25 | given components in 0...255 (the asserts), each colour channel is the component over 255 and alpha is 1 |
| `Colors.Red` | FinalDEVChallenge2022/FinalDEVChallenge2022/Helpers/Claster/Extensions.swift:29 | `(rgb >> 16) & 0xFF` is in 0...255 |
| `Colors.Green` | FinalDEVChallenge2022/FinalDEVChallenge2022/Helpers/Claster/Extensions.swift:30 | `(rgb >> 8) & 0xFF` is in 0...255 |
| `Colors.Blue` | FinalDEVChallenge2022/FinalDEVChallenge2022/Helpers/Claster/Extensions.swift:31 | `rgb & 0xFF` is in 0...255 |
| `Colors.FromRgb` | FinalDEVChallenge2022/FinalDEVChallenge2022/Helpers/Claster/Extensions.swift:20-33 | `init(rgb:)` always meets the range asserts, and its channels are the three bytes over 255 |
| `Colors.Combined` | FinalDEVChallenge2022/FinalDEVChallenge2022/Helpers/Claster/Extensions.swift:27-33 | `r << 16 \| g << 8 \| b` of three components lies in 0..<2^24 |
| `Colors.ChannelsRecombine` | FinalDEVChallenge2022/FinalDEVChallenge2022/Helpers/Claster/Extensions.swift:27-33 | recombining the three channels gives `rgb & 0xFFFFFF`, for every 64-bit `rgb`, negative ones included |
| `Colors.CombinedSplits` | FinalDEVChallenge2022/FinalDEVChallenge2022/Helpers/Claster/Extensions.swift:27-33 | splitting a combined colour gives back its three components |
| `Annotations.DecimalString` | FinalDEVChallenge2022/FinalDEVChallenge2022/Helpers/Claster/Annotation.swift:74 | `"\(count)"` is a non-empty string of digits without a leading zero |
| `Annotations.DecimalRoundTrip` | FinalDEVChallenge2022/FinalDEVChallenge2022/Helpers/Claster/Annotation.swift:74 | the label text reads back as the count |
| `Annotations.DecimalStringIsInjective` | FinalDEVChallenge2022/FinalDEVChallenge2022/Helpers/Claster/Annotation.swift:74 | different counts give different label texts |
| `Annotations.Annotation.constructor` | FinalDEVChallenge2022/FinalDEVChallenge2022/Helpers/Claster/Annotation.swift:13-16 | a plain annotation at the given coordinate |
| `Annotations.Annotation.FromLightning` | FinalDEVChallenge2022/FinalDEVChallenge2022/Helpers/Claster/Annotation.swift:18-22 | stores the lightning and puts the pin at `(lat, lon)` |
| `Annotations.Annotation.Cluster` | FinalDEVChallenge2022/FinalDEVChallenge2022/Helpers/Claster/Annotation.swift:25-26 | a cluster annotation with the given coordinate and members |
| `Annotations.Annotation.MemberCoordinates` | FinalDEVChallenge2022/FinalDEVChallenge2022/Helpers/Claster/Annotation.swift:43 | `annotations.map { $0.coordinate }`, member by member in order |
| `Annotations.Annotation.IsEqual` | FinalDEVChallenge2022/FinalDEVChallenge2022/Helpers/Claster/Annotation.swift:28-44 | false for anything that is not a cluster annotation; true for the same object; otherwise equal coordinates and equal member coordinates in order |
| `Annotations.CoordinatesOf` | FinalDEVChallenge2022/FinalDEVChallenge2022/Helpers/Claster/Annotation.swift:43 | `map { $0.coordinate }` over the members: same length, the i-th coordinate is the i-th member's |
| `Annotations.CoordinatesEqual` | FinalDEVChallenge2022/FinalDEVChallenge2022/Helpers/Claster/Annotation.swift:43 | definition of `==` on `[CLLocationCoordinate2D]`: same length and coordinate `==` position by position |
| `Annotations.SameCluster` | FinalDEVChallenge2022/FinalDEVChallenge2022/Helpers/Claster/Annotation.swift:35-43 | definition of the comparison chain after the identity check: equal centre coordinates, equal member counts, and, in order, equal member coordinates |
| `Annotations.ClusterEqual` | FinalDEVChallenge2022/FinalDEVChallenge2022/Helpers/Claster/Annotation.swift:28-44 | definition of `isEqual` between two cluster annotations: identical objects, or `SameCluster` on their centre and member coordinates |
| `Annotations.CountCheckIsRedundant` | FinalDEVChallenge2022/FinalDEVChallenge2022/Helpers/Claster/Annotation.swift:39-43 | removing the count check does not change the result |
| `Annotations.SameClusterIsSymmetric` | FinalDEVChallenge2022/FinalDEVChallenge2022/Helpers/Claster/Annotation.swift:35-43 | the comparison chain is symmetric |
| `Annotations.SameClusterIsTransitive` | FinalDEVChallenge2022/FinalDEVChallenge2022/Helpers/Claster/Annotation.swift:35-43 | the comparison chain is transitive |
| `Annotations.SameClusterReflexiveUnlessNaN` | FinalDEVChallenge2022/FinalDEVChallenge2022/Helpers/Claster/Annotation.swift:35-43 | without the identity check a cluster would equal itself only when none of its coordinates is NaN |
| `Annotations.SameClusterIsOrderSensitive` | FinalDEVChallenge2022/FinalDEVChallenge2022/Helpers/Claster/Annotation.swift:43 | the same members in another order are not equal, although their multisets are |
| `Annotations.ClusterEqualIsReflexiveAndSymmetric` | FinalDEVChallenge2022/FinalDEVChallenge2022/Helpers/Claster/Annotation.swift:28-44 | `isEqual` on cluster annotations is reflexive (NaN coordinates included, by identity) and symmetric |
| `Annotations.ClusterEqualIsTransitive` | FinalDEVChallenge2022/FinalDEVChallenge2022/Helpers/Claster/Annotation.swift:28-44 | `isEqual` on cluster annotations is transitive |
| `Annotations.ShowsCluster` | FinalDEVChallenge2022/FinalDEVChallenge2022/Helpers/Claster/Annotation.swift:72 | definition of the `annotation as? ClusterAnnotation` guard (also Annotation.swift:127, AnnotationView.swift:13): the view has an annotation and it is a cluster annotation |
| `Annotations.ClusterAnnotationView.constructor` | FinalDEVChallenge2022/FinalDEVChallenge2022/Helpers/Claster/Annotation.swift:51-63 | the view holds the annotation and a fresh, empty count label with a zero frame |
| `Annotations.ClusterAnnotationView.Configure` | FinalDEVChallenge2022/FinalDEVChallenge2022/Helpers/Claster/Annotation.swift:71-75 | for a cluster annotation the label shows the member count in decimal; otherwise nothing changes |
| `Annotations.ClusterAnnotationView.SetAnnotation` | FinalDEVChallenge2022/FinalDEVChallenge2022/Helpers/Claster/Annotation.swift:65-69 | setting the annotation configures the view |
| `Annotations.DiameterScale` | FinalDEVChallenge2022/FinalDEVChallenge2022/Helpers/Claster/Annotation.swift:137-143 | the factor is 0.6 exactly below 8 members, 1 exactly from 16 members, and 0.8 in between |
| `Annotations.DiameterScaleIsMonotone` | FinalDEVChallenge2022/FinalDEVChallenge2022/Helpers/Claster/Annotation.swift:137-143 | the factor never decreases as the count grows |
| `Annotations.StyledDiameter` | FinalDEVChallenge2022/FinalDEVChallenge2022/Helpers/Claster/Annotation.swift:136-143 | the diameter is twice the radius times the count's factor, so between 1.2 and 2 radii |
| `Annotations.StyledClusterAnnotationView.constructor` | FinalDEVChallenge2022/FinalDEVChallenge2022/Helpers/Claster/Annotation.swift:116-120 | the new view is configured at once for its style and annotation: an image style gives a frame of the image's size at the origin |
| `Annotations.StyledClusterAnnotationView.Configure` | FinalDEVChallenge2022/FinalDEVChallenge2022/Helpers/Claster/Annotation.swift:126-147 | image style: clear background, the image, and the frame resized to the image's size at the same origin (unchanged for a nil image); colour style: the colour, a square of the styled diameter at the same origin, and the count; nothing for a non-cluster |
| `Annotations.StyledClusterAnnotationView.SetAnnotation` | FinalDEVChallenge2022/FinalDEVChallenge2022/Helpers/Claster/Annotation.swift:65-69 | setting the annotation runs this view's `configure()` |
| `AnnotationViews.Radius` | FinalDEVChallenge2022/FinalDEVChallenge2022/Helpers/Claster/AnnotationView.swift:23-31 | the radius is always 12, 16 or 20 |
| `AnnotationViews.RadiusBands` | FinalDEVChallenge2022/FinalDEVChallenge2022/Helpers/Claster/AnnotationView.swift:23-31 | 12 exactly below 5 (negative counts included), 16 exactly for 5...9, 20 exactly from 10 |
| `AnnotationViews.RadiusIsMonotone` | FinalDEVChallenge2022/FinalDEVChallenge2022/Helpers/Claster/AnnotationView.swift:23-31 | the radius never decreases as the count grows |
| `AnnotationViews.CountClusterAnnotationView.constructor` | FinalDEVChallenge2022/FinalDEVChallenge2022/Helpers/Claster/AnnotationView.swift:9 | a new badge view holds the annotation, a zero frame, no corner radius, no masking and no border |
| `AnnotationViews.CountClusterAnnotationView.Configure` | FinalDEVChallenge2022/FinalDEVChallenge2022/Helpers/Claster/AnnotationView.swift:10-21 | for a cluster: the count label, a square frame of side 2·radius (24, 32 or 40) at the same origin, corner radius equal to the radius, masking and a white 1.5 border; nothing changes otherwise |
| `AnnotationViews.CountClusterAnnotationView.SetAnnotation` | FinalDEVChallenge2022/FinalDEVChallenge2022/Helpers/Claster/Annotation.swift:65-69 | setting the annotation runs this view's `configure()` |
| `AnnotationViews.LabelAdjusted` | FinalDEVChallenge2022/FinalDEVChallenge2022/Helpers/Claster/AnnotationView.swift:36-38 | the label moves 3 right and 6 up, becomes 6 narrower and keeps its height |
| `AnnotationViews.LabelAdjustedIsNotIdempotent` | FinalDEVChallenge2022/FinalDEVChallenge2022/Helpers/Claster/AnnotationView.swift:35-39 | applying the adjustment twice differs from applying it once, so the one-shot guard matters |
| `AnnotationViews.ImageCountClusterAnnotationView.constructor` | FinalDEVChallenge2022/FinalDEVChallenge2022/Helpers/Claster/AnnotationView.swift:34-39 | a new view has not yet evaluated `once` |
| `AnnotationViews.ImageCountClusterAnnotationView.LayoutSubviews` | FinalDEVChallenge2022/FinalDEVChallenge2022/Helpers/Claster/AnnotationView.swift:35-45 | the label adjustment (width −6, x +3, y −6) is applied on the first layout only: exactly once however often layout runs |

## Left out

- The clustering engine (`ClusterManager`, its delegate, grid bucketing, anchors and the reload diff) is not part of this model: its source is not among these files.
- ViewController.swift, DescriptionViewController.swift and AudioRecorderService.swift are UIKit, CoreLocation and AVFoundation glue. The exception is the sensor-ID property (ViewController.swift:71-78), kept for the finding below. Appending an event to the stored `[Lightning]` list is a plain client of `SetObjectForKey`.
- The floating-point and drawing parts of Extensions.swift are not modelled: `zoomLevel`, `coordinate(onBearingInRadians:atDistanceInMeters:)`, `distance`, `MKMapRect`, `MKPolyline`, `fitAll`, `UIImage.filled`, nib loading, annotation-view dequeueing, `DateFormatter` and `OperationQueue`.
- The Apple `UserDefaults` extensions (CustomUserDefaults+UserDefaultsKey.swift:80-149) are not modelled. Neither is the disk flush done by `UserDefaults.standard.synchronize()`: it has no effect on the entries.
- JSON text is not modelled. `Codec` is an arbitrary pair of partial functions. `Lightning`'s Codable conformance is modelled at the keyed-container level. So `JSONEncoder` rejecting a non-finite double is not captured there.
- Foundation's `NSNumber` bridging is not modelled. For example, a stored `1` read by `as? Bool` succeeds on the platform. In the model a cast succeeds only when the value has exactly the requested type.
- The platform store accepts only property-list values. Swift's `URL` is not one, so `standard.set` raises "Attempt to insert non-property list object" (a crash) when the dictionary holds a URL, even nested in a dictionary or array.
- `UserDefaultsStore.CustomUserDefaults.Synchronize` does not model that crash: it succeeds for every `Value`, `UrlV` included.
- `UserDefaultsStore.CustomUserDefaults.Set` does not model it either: storing a `UrlV` succeeds and persists. The app itself stores only Data (ViewController.swift:76, 166, 168).
- `UserDefaultsStore.CustomUserDefaults.UrlFor` reads back a stored URL, which on the platform could not have been persisted.
- `StoreValues.RestoreAfterPersist` holds for dictionaries the platform would refuse to persist.
- Swift's `String` `==`, `Hashable` and dictionary-key lookup use Unicode canonical equivalence, so `"\u{E9}"` and `"e\u{301}"` are one key or one ID there. The model compares strings character by character, both for keys (`StoreValues.Assign`, `Lookup`, the getters) and for `Lightnings.Equal` and `UserDefaultsStore.IdentifierForIsInjective`. Every key in the app is an ASCII literal and every ID a UUID string, for which the two agree.
- Stored `Int` values are unbounded integers, not 64-bit. Stored `Float` values are opaque 32-bit patterns.
- `CGFloat` values are exact reals, both view sizes and colour channels. So `diameter * 0.6` and `CGFloat(red) / 255.0` (`Colors.FromComponents`, `Colors.FromRgb`) have no binary rounding.
- Swift `Array`'s `mutating` helpers take the array and return its new value. In-place mutation of a variable is modelled as that value passing.
- Members of a cluster are `Annotation`s, not any `MKAnnotation`. For a plain `Annotation`, `isEqual` is identity: the model assumes `NSObject`'s default, which `MKPointAnnotation` does not override.
- `register(defaults:)` visits the default keys in an unspecified order, as a Swift dictionary does. The proved result does not depend on that order.
- View details with no behaviour beyond field assignment are not modelled: label fonts, colours and alignment, `addSubview`, and the lazy creation of `countLabel` (a label exists from the view's construction). `StyledClusterAnnotationView.layoutSubviews` masking, label autoresizing and image rendering are left out too. Assigning `MKAnnotationView.image` is modelled as resizing the frame to the image's size while keeping its origin, and as leaving the frame alone for a nil image. A view's initial frame is taken as zero. The constructors of `ClusterAnnotationView` and `CountClusterAnnotationView` assume that `MKAnnotationView.init(annotation:reuseIdentifier:)` does not run the subclass's `annotation` `didSet`, so a new view has no label text and an unconfigured frame; `StyledClusterAnnotationView` calls `configure()` itself (Annotation.swift:119).
- `UserDefaults.user` is modelled only through its identifier "id" (`SensorIdentity.SharedStoreIdentifier`).

## Findings

| source | as written | input that shows it | evidently intended | confidence | as-written member | corrected member |
|---|---|---|---|---|---|---|
| FinalDEVChallenge2022/FinalDEVChallenge2022/Controller/ViewController.swift:71-78 | the sensor ID is read with `string(for: .sensorID)` but written through the Codable subscript, which stores JSON Data | a fresh install launched twice: the first launch stores UUID A, the second finds no String and reports a new UUID B | the ID generated on the first launch is read back on every later launch (for example by writing it with `set(uuid, for: .sensorID)`) | not executed | `SensorIdentity.RelaunchAsWritten` | `SensorIdentity.RelaunchCorrected` |
