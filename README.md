# IntentStore, modelled in Dafny

`IntentStore` belongs to Android's ManagedProvisioning application. It keeps the
resume information of a provisioning flow in a SharedPreferences file. A store is
configured with five key lists: string, long, int, boolean and PersistableBundle
keys. `save(Bundle)` replaces the whole file. It writes the declared fields of
the Bundle and then the sentinel `isSet = true`. `load()` returns null while the
sentinel is absent or false. Otherwise it rebuilds an Intent aimed at the
store's fixed target component, with the declared fields found in the file.
`clear()` wipes the file. A PersistableBundle is kept as the text of an XML
document wrapped in a `persistable_bundle` element.

The model has five modules:

- `Wrappers`: Option (Java's null) and Result (a thrown exception).
- `Platform`: the Android values involved. These are Bundle/Intent extras,
  SharedPreferences entries, the typed Bundle getters (which give null, 0 or
  false for a missing or wrongly typed value) and the editor puts (a
  `putString` of null removes the key). `long` and `int` are the bounded
  newtypes `int64` and `int32`.
- `BundleXml`: `persistableBundleToString` and `stringToPersistableBundle`. The
  XML library is an `XmlLibrary` value holding four partial functions: the
  bundle's own events, serializing, parsing and restoring. None stands for an
  exception.
- `StoreSpec`: what `save` and `load` compute, as functions of the file, the key
  lists and the Bundle, and the lemmas about them.
- `Store`: the class `IntentStore`. Its fields are the file's contents (`prefs`),
  the target, the library and the five key lists. Its methods run the source's
  loops, each proved equal to its specification function.

The getters of SharedPreferences throw a ClassCastException when an entry has
another type than the one asked for. `load` does not catch it. A setter may
change the key lists after a save, so this can happen, for example when a key
saved as a string is later declared as an int key. The model's `load` therefore
returns one of three results: `NoData` (null), `Restored(intent)`, or
`ClassCast(key)` for the exception.

## Model

| member | source | states |
|---|---|---|
| `Store.IntentStore.constructor` | src/com/android/managedprovisioning/IntentStore.java:45-61 | the store opens on the file's existing contents, with all five key lists empty |
| `Store.IntentStore.SetStringKeys` | src/com/android/managedprovisioning/IntentStore.java:63-66 | replaces only the string key list; a null argument gives the empty list; returns the same store |
| `Store.IntentStore.SetLongKeys` | src/com/android/managedprovisioning/IntentStore.java:68-71 | replaces only the long key list; null gives the empty list; returns the same store |
| `Store.IntentStore.SetIntKeys` | src/com/android/managedprovisioning/IntentStore.java:73-76 | replaces only the int key list; null gives the empty list; returns the same store |
| `Store.IntentStore.SetBooleanKeys` | src/com/android/managedprovisioning/IntentStore.java:78-81 | replaces only the boolean key list; null gives the empty list; returns the same store |
| `Store.IntentStore.SetPersistableBundleKeys` | src/com/android/managedprovisioning/IntentStore.java:83-86 | replaces only the bundle key list; null gives the empty list; returns the same store |
| `Store.IntentStore.Clear` | src/com/android/managedprovisioning/IntentStore.java:88-90 | the file becomes empty, so the next load returns null |
| `Store.IntentStore.Save` | src/com/android/managedprovisioning/IntentStore.java:92-119 | the new file is `SavedPrefs` of the key lists and the Bundle, whatever the file held before, and it is marked set |
| `Store.IntentStore.SaveStrings` | src/com/android/managedprovisioning/IntentStore.java:96-98 | the string loop: each key ends up holding the Bundle's string, or is removed when the Bundle has none |
| `Store.IntentStore.SaveLongs` | src/com/android/managedprovisioning/IntentStore.java:99-101 | the long loop: each key is written, with 0 when the Bundle lacks a long |
| `Store.IntentStore.SaveInts` | src/com/android/managedprovisioning/IntentStore.java:102-104 | the int loop: each key is written, with 0 when the Bundle lacks an int |
| `Store.IntentStore.SaveBooleans` | src/com/android/managedprovisioning/IntentStore.java:105-107 | the boolean loop: each key is written, with false when the Bundle lacks a boolean |
| `Store.IntentStore.SaveBundles` | src/com/android/managedprovisioning/IntentStore.java:108-116 | the bundle loop: a key is written only when its bundle serializes to a non-null string |
| `Store.IntentStore.Load` | src/com/android/managedprovisioning/IntentStore.java:121-160 | the result is `LoadSpec` of the current file; load changes nothing, so repeated calls give equal results |
| `Store.IntentStore.LoadStrings` | src/com/android/managedprovisioning/IntentStore.java:129-134 | the string loop: copies each stored string, or fails at the first key holding another type |
| `Store.IntentStore.LoadLongs` | src/com/android/managedprovisioning/IntentStore.java:135-139 | the long loop: copies each key present in the file, or fails at the first non-long entry |
| `Store.IntentStore.LoadInts` | src/com/android/managedprovisioning/IntentStore.java:140-144 | the int loop: copies each key present in the file, or fails at the first non-int entry |
| `Store.IntentStore.LoadBooleans` | src/com/android/managedprovisioning/IntentStore.java:145-149 | the boolean loop: copies each key present in the file, or fails at the first non-boolean entry |
| `Store.IntentStore.LoadBundles` | src/com/android/managedprovisioning/IntentStore.java:150-157 | the bundle loop: copies each stored text that decodes and drops one that does not, or fails at a non-string entry |
| `Store.ResumeScenario` | src/com/android/managedprovisioning/IntentStore.java:56-160 | string key "a", int key "b": null before any save; after saving {a: "hello", b: 42}, load gives exactly those extras aimed at the target, twice; null again after clear |
| `BundleXml.BundleToString` | src/com/android/managedprovisioning/IntentStore.java:162-182 | a null bundle gives null; a non-null result means the bundle's own XML was written |
| `BundleXml.StringToBundle` | src/com/android/managedprovisioning/IntentStore.java:184-208 | a bundle comes back only from a non-null string whose first parsed event opens a `persistable_bundle` element |
| `BundleXml.BundleRoundTrip` | src/com/android/managedprovisioning/IntentStore.java:167-199 | if the library reads back the documents it writes, decoding an encoded bundle gives that bundle: the wrapper written is the one checked for |
| `StoreSpec.SaveKeysAt` | src/com/android/managedprovisioning/IntentStore.java:96-116 | after one save loop, a key holds what its last put wrote, or what it held before when the loop does not name it |
| `StoreSpec.SavedAt` | src/com/android/managedprovisioning/IntentStore.java:92-119 | for disjoint lists, every key of the saved file matches `ExpectedSaved`: the sentinel is true; a string key holds the Bundle's string or is absent; long, int and boolean keys hold the value or 0/false; a bundle key holds its text when it serializes; no other key exists |
| `StoreSpec.SavedKeys` | src/com/android/managedprovisioning/IntentStore.java:93-117 | the saved file holds only the sentinel and declared keys, and always holds the sentinel and every long, int and boolean key |
| `StoreSpec.LoadKeys` | src/com/android/managedprovisioning/IntentStore.java:129-157 | a load loop that fails names a key of its list whose entry has the wrong type |
| `StoreSpec.LoadKeysOk` | src/com/android/managedprovisioning/IntentStore.java:129-157 | a load loop completes exactly when every key it visits has the type its getter expects |
| `StoreSpec.LoadErrSticks` | src/com/android/managedprovisioning/IntentStore.java:129-157 | once a load loop has hit a wrongly typed entry, the loop ends with that exception whatever keys follow |
| `StoreSpec.LoadKeysAt` | src/com/android/managedprovisioning/IntentStore.java:129-157 | after a completed load loop, a key holds what its last fetch put, or what it held before |
| `StoreSpec.LoadExtras` | src/com/android/managedprovisioning/IntentStore.java:129-157 | an exception raised by the five loops names a declared key |
| `StoreSpec.LoadSpec` | src/com/android/managedprovisioning/IntentStore.java:121-160 | load gives null exactly when `isSet` is absent or false; a restored Intent is aimed at the target; an exception names `isSet` or a declared key |
| `StoreSpec.RestoredIff` | src/com/android/managedprovisioning/IntentStore.java:121-157 | load restores an Intent exactly when the file is set and every declared key has the type of its list |
| `StoreSpec.RestoredAt` | src/com/android/managedprovisioning/IntentStore.java:126-157 | for disjoint lists on a set, well-typed file, the restored extras are exactly `ExpectedLoaded`: declared string, long, int and boolean keys present in the file, with their values; bundle keys whose text decodes; nothing else |
| `StoreSpec.SavedIsReadable` | src/com/android/managedprovisioning/IntentStore.java:96-117 | for disjoint lists that avoid `isSet`, a saved file is set and every declared key has the type load expects |
| `StoreSpec.RoundTrip` | src/com/android/managedprovisioning/IntentStore.java:96-157 | for disjoint lists that avoid `isSet`, load after save gives an Intent aimed at the target whose extras are exactly `ExpectedRoundTrip`: the Bundle's strings, its longs, ints and booleans or 0/false, its bundles passed through encode and decode, and nothing else |
| `StoreSpec.BundleSurvives` | src/com/android/managedprovisioning/IntentStore.java:108-156 | with a library that reads back the documents it writes, a bundle that serializes comes back unchanged from save then load |
| `StoreSpec.MissingIntComesBackZero` | src/com/android/managedprovisioning/IntentStore.java:102-144 | the save/load asymmetry: an int key missing from the Bundle is loaded back as 0, while a file without that key loads without it |
| `StoreSpec.OverlappingKeysThrow` | src/com/android/managedprovisioning/IntentStore.java:96-149 | for any key lists and Bundle, a key declared as a string key and also as a long, int or boolean key makes load after save throw a ClassCastException, so these overlaps must be avoided |
| `StoreSpec.SentinelKeyThrows` | src/com/android/managedprovisioning/IntentStore.java:96-157 | for any key lists and Bundle, declaring `isSet` as a string, long, int or bundle key makes load after save throw, so the sentinel must stay undeclared |
| `StoreSpec.ScenarioRoundTrip` | src/com/android/managedprovisioning/IntentStore.java:92-149 | saving {a: "hello", b: 42} with string key "a" and int key "b", then loading, gives exactly those extras aimed at the target |

## Left out

- The Context, the preferences file name and `getSharedPreferences` are left out. The file enters the model as the constructor's `persisted` map. `commit()` is a plain assignment: durability and a failed commit are not modelled.
- The inside of the XML library is not modelled: `XmlSerializer`, `XmlPullParser`, `PersistableBundle.saveToXml` and `restoreFromXml`. It is the `XmlLibrary` parameter. Its behaviour is assumed only where a lemma says so (`LibraryRoundTrips`), and only for the documents the store writes, the wrapper around the events `saveToXml` produces for some bundle: the parser gives back their events, and `restoreFromXml` reads back what `saveToXml` wrote.
- Nothing in the model inspects a bundle's entries, and `BundleItem` lists only some of the kinds a PersistableBundle holds (no double or array entries). Logging through `ProvisionLogger` is left out.
- Aliasing of the key arrays is not modelled. Java keeps a reference to the caller's array, so later changes to that array reach the store. The model copies the list.
- `save(null)` is not modelled. In Java it throws a NullPointerException as soon as a key list is non-empty.
- A Parcelable of another class under a bundle key is not modelled. In Java the cast at line 111 would throw, and the source's comment says callers rule it out. Non-bundle extras read as null under a bundle key.
- Concurrent `save`, `load` and `clear` calls are left out.
- Each of the five loops in `save` and in `load` is its own method, called in the source's order. The per-key behaviour and the order are unchanged.
- Disjoint key lists and an undeclared `isSet` are hypotheses of the round-trip and characterisation lemmas. They are not preconditions of `save` or `load`, because the source accepts any lists. `OverlappingKeysThrow` and `SentinelKeyThrows` show what goes wrong without them.
- `load` is not exception-free: when `isSet` or a declared key holds a value of another type, the getter throws ClassCastException, which the model returns as `ClassCast(key)` rather than as null.
- Float and `Set<String>` entries of SharedPreferences are not modelled: `PrefValue` covers the types this store writes. A file holding a float or a string set under a declared key would also make `load` throw, and the constructor's `persisted` map cannot express such a file.
- Sharing of the preferences file is not modelled. `getSharedPreferences` hands every caller with the same name one shared table, so two stores on the same name see each other's `save` and `clear`; in the model each store owns its own copy of the map.
