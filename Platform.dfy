/**
 * The Android values the store moves between: Intent extras and Bundles on one
 * side, SharedPreferences entries on the other. Only their data is modelled.
 */
module Platform {
  import opened Wrappers

  newtype int32 = x: int | -0x8000_0000 <= x < 0x8000_0000
  newtype int64 = x: int | -0x8000_0000_0000_0000 <= x < 0x8000_0000_0000_0000

  /** android.content.ComponentName: the activity a restored Intent is sent to. */
  datatype ComponentName = ComponentName(packageName: string, className: string)

  /** android.os.PersistableBundle: a nested typed key/value structure. */
  datatype PersistableBundle = PersistableBundle(entries: map<string, BundleItem>)

  datatype BundleItem =
    | ItemString(text: string)
    | ItemInt(intValue: int32)
    | ItemLong(longValue: int64)
    | ItemBoolean(flag: bool)
    | ItemBundle(nested: PersistableBundle)

  /** A value stored in a Bundle or in an Intent's extras, of one of the kinds the store handles. */
  datatype Extra =
    | StringExtra(s: string)
    | LongExtra(l: int64)
    | IntExtra(i: int32)
    | BooleanExtra(b: bool)
    | BundleExtra(bundle: PersistableBundle)

  /** android.os.Bundle: a key absent from the map reads as null. */
  type Bundle = map<string, Extra>

  /** android.content.Intent, reduced to its target component and its extras. */
  datatype Intent = Intent(component: ComponentName, extras: Bundle)

  /** An entry of a SharedPreferences file, for the entry types this store writes: String, long, int and boolean. */
  datatype PrefValue =
    | StringPref(s: string)
    | LongPref(l: int64)
    | IntPref(i: int32)
    | BooleanPref(b: bool)

  /** The contents of one SharedPreferences file. */
  type Prefs = map<string, PrefValue>

  // The typed getters of a Bundle: a missing key, or a value of another type,
  // yields the getter's default (null, 0 or false) instead of an exception.

  function GetString(data: Bundle, key: string): Option<string> {
    if key in data && data[key].StringExtra? then Some(data[key].s) else None
  }

  function GetLong(data: Bundle, key: string): int64 {
    if key in data && data[key].LongExtra? then data[key].l else 0
  }

  function GetInt(data: Bundle, key: string): int32 {
    if key in data && data[key].IntExtra? then data[key].i else 0
  }

  function GetBoolean(data: Bundle, key: string): bool {
    if key in data && data[key].BooleanExtra? then data[key].b else false
  }

  /** getParcelable: among the modelled kinds only a PersistableBundle is Parcelable. */
  function GetParcelable(data: Bundle, key: string): Option<PersistableBundle> {
    if key in data && data[key].BundleExtra? then Some(data[key].bundle) else None
  }

  // The puts of a SharedPreferences.Editor, on the map the editor will commit.

  /** Sets (Some) or removes (None) the entry under `key`. */
  function SetEntry(editor: Prefs, key: string, entry: Option<PrefValue>): Prefs {
    match entry
    case Some(v) => editor[key := v]
    case None => editor - {key}
  }

  /** putString: a null value removes the key. */
  function PutString(editor: Prefs, key: string, value: Option<string>): Prefs {
    SetEntry(editor, key, if value.Some? then Some(StringPref(value.value)) else None)
  }

  function PutLong(editor: Prefs, key: string, value: int64): Prefs {
    SetEntry(editor, key, Some(LongPref(value)))
  }

  function PutInt(editor: Prefs, key: string, value: int32): Prefs {
    SetEntry(editor, key, Some(IntPref(value)))
  }

  function PutBoolean(editor: Prefs, key: string, value: bool): Prefs {
    SetEntry(editor, key, Some(BooleanPref(value)))
  }

  lemma SetEntryKeeps(editor: Prefs, key: string)
    ensures SetEntry(editor, key, Get(editor, key)) == editor
  {
    if key !in editor {
      assert editor - {key} == editor;
    }
  }
}
