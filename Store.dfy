/**
 * IntentStore: saves the declared extras of an Intent into a SharedPreferences file
 * and restores them later as an Intent aimed at a fixed component.
 */
module Store {
  import opened Wrappers
  import opened Platform
  import opened BundleXml
  import opened StoreSpec

  class IntentStore {
    /** The contents of the store's SharedPreferences file. */
    var prefs: Prefs
    /** The component every restored Intent is aimed at. */
    const intentTarget: ComponentName
    /** The XML library used for PersistableBundle values. */
    const xml: XmlLibrary

    var stringKeys: seq<string>
    var longKeys: seq<string>
    var intKeys: seq<string>
    var booleanKeys: seq<string>
    var persistableBundleKeys: seq<string>

    /** The declared key lists, as one value. */
    function Declared(): KeyLists
      reads this
    {
      KeyLists(stringKeys, longKeys, intKeys, booleanKeys, persistableBundleKeys)
    }

    /** Opens the store over a preferences file that already holds `persisted` (empty if never written). */
    constructor (intentTarget: ComponentName, xml: XmlLibrary, persisted: Prefs)
      ensures this.intentTarget == intentTarget && this.xml == xml && prefs == persisted
      ensures Declared() == KeyLists([], [], [], [], [])
    {
      this.intentTarget := intentTarget;
      this.xml := xml;
      prefs := persisted;
      stringKeys, longKeys, intKeys, booleanKeys, persistableBundleKeys := [], [], [], [], [];
    }

    method SetStringKeys(keys: Option<seq<string>>) returns (self: IntentStore)
      modifies this`stringKeys
      ensures self == this
      ensures stringKeys == keys.GetOr([])
    {
      stringKeys := if keys.None? then [] else keys.value;
      self := this;
    }

    method SetLongKeys(keys: Option<seq<string>>) returns (self: IntentStore)
      modifies this`longKeys
      ensures self == this
      ensures longKeys == keys.GetOr([])
    {
      longKeys := if keys.None? then [] else keys.value;
      self := this;
    }

    method SetIntKeys(keys: Option<seq<string>>) returns (self: IntentStore)
      modifies this`intKeys
      ensures self == this
      ensures intKeys == keys.GetOr([])
    {
      intKeys := if keys.None? then [] else keys.value;
      self := this;
    }

    method SetBooleanKeys(keys: Option<seq<string>>) returns (self: IntentStore)
      modifies this`booleanKeys
      ensures self == this
      ensures booleanKeys == keys.GetOr([])
    {
      booleanKeys := if keys.None? then [] else keys.value;
      self := this;
    }

    method SetPersistableBundleKeys(keys: Option<seq<string>>) returns (self: IntentStore)
      modifies this`persistableBundleKeys
      ensures self == this
      ensures persistableBundleKeys == keys.GetOr([])
    {
      persistableBundleKeys := if keys.None? then [] else keys.value;
      self := this;
    }

    /** Wipes the file, sentinel included, so that load reports no data. */
    method Clear()
      modifies this`prefs
      ensures prefs == map[]
      ensures LoadSpec(prefs, Declared(), intentTarget, xml) == NoData
    {
      prefs := map[];
    }

    /** Replaces the whole file by the declared fields of `data` and the sentinel. */
    method Save(data: Bundle)
      modifies this`prefs
      ensures prefs == SavedPrefs(Declared(), data, xml)
      ensures IsSet(prefs)
    {
      var editor: Prefs := map[];
      editor := SaveStrings(editor, data);
      editor := SaveLongs(editor, data);
      editor := SaveInts(editor, data);
      editor := SaveBooleans(editor, data);
      editor := SaveBundles(editor, data);
      editor := PutBoolean(editor, IS_SET, true);
      prefs := editor;
    }

    /** Save's loop over stringKeys, which removes from the editor every key whose string the Bundle lacks. */
    method SaveStrings(start: Prefs, data: Bundle) returns (editor: Prefs)
      ensures editor == SaveKeys(StringKind, start, stringKeys, data, xml)
    {
      editor := start;
      var keys := stringKeys;
      var i := 0;
      while i < |keys|
        invariant i <= |keys|
        invariant editor == SaveKeys(StringKind, start, keys[..i], data, xml)
      {
        var key := keys[i];
        SaveKeysStep(StringKind, start, keys, i, data, xml);
        editor := PutString(editor, key, GetString(data, key));
        i := i + 1;
      }
      assert keys[..i] == keys;
    }

    /** Save's loop over longKeys, which writes every key, with 0 when the Bundle lacks the long. */
    method SaveLongs(start: Prefs, data: Bundle) returns (editor: Prefs)
      ensures editor == SaveKeys(LongKind, start, longKeys, data, xml)
    {
      editor := start;
      var keys := longKeys;
      var i := 0;
      while i < |keys|
        invariant i <= |keys|
        invariant editor == SaveKeys(LongKind, start, keys[..i], data, xml)
      {
        var key := keys[i];
        SaveKeysStep(LongKind, start, keys, i, data, xml);
        editor := PutLong(editor, key, GetLong(data, key));
        i := i + 1;
      }
      assert keys[..i] == keys;
    }

    /** Save's loop over intKeys, which writes every key, with 0 when the Bundle lacks the int. */
    method SaveInts(start: Prefs, data: Bundle) returns (editor: Prefs)
      ensures editor == SaveKeys(IntKind, start, intKeys, data, xml)
    {
      editor := start;
      var keys := intKeys;
      var i := 0;
      while i < |keys|
        invariant i <= |keys|
        invariant editor == SaveKeys(IntKind, start, keys[..i], data, xml)
      {
        var key := keys[i];
        SaveKeysStep(IntKind, start, keys, i, data, xml);
        editor := PutInt(editor, key, GetInt(data, key));
        i := i + 1;
      }
      assert keys[..i] == keys;
    }

    /** Save's loop over booleanKeys, which writes every key, with false when the Bundle lacks the boolean. */
    method SaveBooleans(start: Prefs, data: Bundle) returns (editor: Prefs)
      ensures editor == SaveKeys(BooleanKind, start, booleanKeys, data, xml)
    {
      editor := start;
      var keys := booleanKeys;
      var i := 0;
      while i < |keys|
        invariant i <= |keys|
        invariant editor == SaveKeys(BooleanKind, start, keys[..i], data, xml)
      {
        var key := keys[i];
        SaveKeysStep(BooleanKind, start, keys, i, data, xml);
        editor := PutBoolean(editor, key, GetBoolean(data, key));
        i := i + 1;
      }
      assert keys[..i] == keys;
    }

    /** Save's loop over persistableBundleKeys, which writes a key only when its bundle serializes. */
    method SaveBundles(start: Prefs, data: Bundle) returns (editor: Prefs)
      ensures editor == SaveKeys(BundleKind, start, persistableBundleKeys, data, xml)
    {
      editor := start;
      var keys := persistableBundleKeys;
      var i := 0;
      while i < |keys|
        invariant i <= |keys|
        invariant editor == SaveKeys(BundleKind, start, keys[..i], data, xml)
      {
        var key := keys[i];
        SaveKeysStep(BundleKind, start, keys, i, data, xml);
        var bundleString := BundleToString(GetParcelable(data, key), xml);
        if bundleString.Some? {
          editor := PutString(editor, key, bundleString);
        } else {
          SetEntryKeeps(editor, key);
        }
        i := i + 1;
      }
      assert keys[..i] == keys;
    }

    /** Restores the saved Intent; reads the file and changes nothing. */
    method Load() returns (r: Loaded)
      ensures r == LoadSpec(prefs, Declared(), intentTarget, xml)
    {
      if IS_SET !in prefs {
        return NoData;
      }
      if !prefs[IS_SET].BooleanPref? {
        return ClassCast(IS_SET);
      }
      if !prefs[IS_SET].b {
        return NoData;
      }

      var extras: Bundle := map[];
      var loaded := LoadStrings(extras);
      if loaded.Err? { return ClassCast(loaded.error); }
      loaded := LoadLongs(loaded.value);
      if loaded.Err? { return ClassCast(loaded.error); }
      loaded := LoadInts(loaded.value);
      if loaded.Err? { return ClassCast(loaded.error); }
      loaded := LoadBooleans(loaded.value);
      if loaded.Err? { return ClassCast(loaded.error); }
      loaded := LoadBundles(loaded.value);
      if loaded.Err? { return ClassCast(loaded.error); }
      extras := loaded.value;

      r := Restored(Intent(intentTarget, extras));
    }

    /** Load's loop over stringKeys: copies each stored string, or fails with the key whose entry has another type. */
    method LoadStrings(start: Bundle) returns (r: Result<Bundle, string>)
      ensures r == LoadKeys(StringKind, start, stringKeys, prefs, xml)
    {
      var extras := start;
      var keys := stringKeys;
      var i := 0;
      while i < |keys|
        invariant i <= |keys|
        invariant LoadKeys(StringKind, start, keys[..i], prefs, xml) == Ok(extras)
      {
        var key := keys[i];
        LoadKeysStep(StringKind, start, keys, i, prefs, xml);
        if key in prefs {
          if !prefs[key].StringPref? {
            LoadErrSticks(StringKind, start, keys, i + 1, prefs, xml);
            return Err(key);
          }
          extras := extras[key := StringExtra(prefs[key].s)];
        }
        i := i + 1;
      }
      assert keys[..i] == keys;
      return Ok(extras);
    }

    /** Load's loop over longKeys: copies each stored long, or fails with the key whose entry has another type. */
    method LoadLongs(start: Bundle) returns (r: Result<Bundle, string>)
      ensures r == LoadKeys(LongKind, start, longKeys, prefs, xml)
    {
      var extras := start;
      var keys := longKeys;
      var i := 0;
      while i < |keys|
        invariant i <= |keys|
        invariant LoadKeys(LongKind, start, keys[..i], prefs, xml) == Ok(extras)
      {
        var key := keys[i];
        LoadKeysStep(LongKind, start, keys, i, prefs, xml);
        if key in prefs {
          if !prefs[key].LongPref? {
            LoadErrSticks(LongKind, start, keys, i + 1, prefs, xml);
            return Err(key);
          }
          extras := extras[key := LongExtra(prefs[key].l)];
        }
        i := i + 1;
      }
      assert keys[..i] == keys;
      return Ok(extras);
    }

    /** Load's loop over intKeys: copies each stored int, or fails with the key whose entry has another type. */
    method LoadInts(start: Bundle) returns (r: Result<Bundle, string>)
      ensures r == LoadKeys(IntKind, start, intKeys, prefs, xml)
    {
      var extras := start;
      var keys := intKeys;
      var i := 0;
      while i < |keys|
        invariant i <= |keys|
        invariant LoadKeys(IntKind, start, keys[..i], prefs, xml) == Ok(extras)
      {
        var key := keys[i];
        LoadKeysStep(IntKind, start, keys, i, prefs, xml);
        if key in prefs {
          if !prefs[key].IntPref? {
            LoadErrSticks(IntKind, start, keys, i + 1, prefs, xml);
            return Err(key);
          }
          extras := extras[key := IntExtra(prefs[key].i)];
        }
        i := i + 1;
      }
      assert keys[..i] == keys;
      return Ok(extras);
    }

    /** Load's loop over booleanKeys: copies each stored boolean, or fails with the key whose entry has another type. */
    method LoadBooleans(start: Bundle) returns (r: Result<Bundle, string>)
      ensures r == LoadKeys(BooleanKind, start, booleanKeys, prefs, xml)
    {
      var extras := start;
      var keys := booleanKeys;
      var i := 0;
      while i < |keys|
        invariant i <= |keys|
        invariant LoadKeys(BooleanKind, start, keys[..i], prefs, xml) == Ok(extras)
      {
        var key := keys[i];
        LoadKeysStep(BooleanKind, start, keys, i, prefs, xml);
        if key in prefs {
          if !prefs[key].BooleanPref? {
            LoadErrSticks(BooleanKind, start, keys, i + 1, prefs, xml);
            return Err(key);
          }
          extras := extras[key := BooleanExtra(prefs[key].b)];
        }
        i := i + 1;
      }
      assert keys[..i] == keys;
      return Ok(extras);
    }

    /** Load's loop over persistableBundleKeys: copies each stored bundle text that decodes, or fails with the key whose entry has another type. */
    method LoadBundles(start: Bundle) returns (r: Result<Bundle, string>)
      ensures r == LoadKeys(BundleKind, start, persistableBundleKeys, prefs, xml)
    {
      var extras := start;
      var keys := persistableBundleKeys;
      var i := 0;
      while i < |keys|
        invariant i <= |keys|
        invariant LoadKeys(BundleKind, start, keys[..i], prefs, xml) == Ok(extras)
      {
        var key := keys[i];
        LoadKeysStep(BundleKind, start, keys, i, prefs, xml);
        if key in prefs {
          if !prefs[key].StringPref? {
            LoadErrSticks(BundleKind, start, keys, i + 1, prefs, xml);
            return Err(key);
          }
          var bundle := StringToBundle(Some(prefs[key].s), xml);
          if bundle.Some? {
            extras := extras[key := BundleExtra(bundle.value)];
          }
        }
        i := i + 1;
      }
      assert keys[..i] == keys;
      return Ok(extras);
    }
  }

  /**
   * A store for one string key "a" and one int key "b": nothing before the first
   * save; after save, load restores both values aimed at the target, and does so
   * again on a second call; after clear, nothing again.
   */
  method ResumeScenario(target: ComponentName, xml: XmlLibrary)
    returns (before: Loaded, restored: Loaded, again: Loaded, cleared: Loaded)
    ensures before == NoData
    ensures restored == Restored(Intent(target, ScenarioData()))
    ensures again == restored
    ensures cleared == NoData
  {
    var store := new IntentStore(target, xml, map[]);
    before := store.Load();

    var configured := store.SetStringKeys(Some(["a"]));
    configured := configured.SetIntKeys(Some(["b"]));
    assert store.Declared() == ScenarioKeys();

    store.Save(ScenarioData());
    ScenarioRoundTrip(target, xml);
    restored := store.Load();
    again := store.Load();

    store.Clear();
    cleared := store.Load();
  }
}
