/**
 * What IntentStore's save and load compute, as functions of the preferences file,
 * the declared key lists and the incoming Bundle, with the properties proved of them.
 */
module StoreSpec {
  import opened Wrappers
  import opened Platform
  import opened BundleXml

  /** The sentinel entry that marks a saved store. */
  const IS_SET := "isSet"

  /** The five kinds of value the store knows how to copy. */
  datatype Kind = StringKind | LongKind | IntKind | BooleanKind | BundleKind

  /** The five declared key lists of a store. */
  datatype KeyLists = KeyLists(
    strings: seq<string>,
    longs: seq<string>,
    ints: seq<string>,
    booleans: seq<string>,
    bundles: seq<string>)
  {
    predicate Declares(key: string) {
      key in strings || key in longs || key in ints || key in booleans || key in bundles
    }

    /** No key is declared in two lists. Nothing in the store checks this. */
    predicate Disjoint() {
      && Apart(strings, longs) && Apart(strings, ints) && Apart(strings, booleans) && Apart(strings, bundles)
      && Apart(longs, ints) && Apart(longs, booleans) && Apart(longs, bundles)
      && Apart(ints, booleans) && Apart(ints, bundles)
      && Apart(booleans, bundles)
    }
  }

  predicate Apart(a: seq<string>, b: seq<string>) {
    forall k :: k in a ==> k !in b
  }

  // ---------------------------------------------------------------------------
  // save

  /**
   * The entry the editor holds for `key` after the put of its kind, given the entry
   * `prev` it held before: putString of null removes the entry, the numeric and
   * boolean puts always write (0 or false when the Bundle lacks the value), and a
   * bundle that does not serialize leaves the entry alone.
   */
  function Written(kind: Kind, prev: Option<PrefValue>, data: Bundle, key: string, xml: XmlLibrary): Option<PrefValue> {
    match kind
    case StringKind =>
      (match GetString(data, key)
       case Some(s) => Some(StringPref(s))
       case None => None)
    case LongKind => Some(LongPref(GetLong(data, key)))
    case IntKind => Some(IntPref(GetInt(data, key)))
    case BooleanKind => Some(BooleanPref(GetBoolean(data, key)))
    case BundleKind =>
      (match BundleToString(GetParcelable(data, key), xml)
       case Some(s) => Some(StringPref(s))
       case None => prev)
  }

  /** One of save's loops: the puts for `keys`, in order, applied to `editor`. */
  function SaveKeys(kind: Kind, editor: Prefs, keys: seq<string>, data: Bundle, xml: XmlLibrary): Prefs
    decreases |keys|
  {
    if keys == [] then editor
    else
      var ed := SaveKeys(kind, editor, keys[..|keys| - 1], data, xml);
      var key := keys[|keys| - 1];
      SetEntry(ed, key, Written(kind, Get(ed, key), data, key, xml))
  }

  /** The preferences file after save(data): a cleared editor, the five loops, then the sentinel. */
  function SavedPrefs(ks: KeyLists, data: Bundle, xml: XmlLibrary): Prefs {
    var afterStrings := SaveKeys(StringKind, map[], ks.strings, data, xml);
    var afterLongs := SaveKeys(LongKind, afterStrings, ks.longs, data, xml);
    var afterInts := SaveKeys(IntKind, afterLongs, ks.ints, data, xml);
    var afterBooleans := SaveKeys(BooleanKind, afterInts, ks.booleans, data, xml);
    var afterBundles := SaveKeys(BundleKind, afterBooleans, ks.bundles, data, xml);
    afterBundles[IS_SET := BooleanPref(true)]
  }

  /**
   * Reference description of the saved file, key by key: the sentinel is true; a
   * string key holds the Bundle's string or is absent; a long, int or boolean key
   * always holds the Bundle's value or 0/false; a bundle key holds the bundle's
   * text when it serializes and is absent otherwise; no other key is present.
   */
  function ExpectedSaved(ks: KeyLists, data: Bundle, xml: XmlLibrary, key: string): Option<PrefValue> {
    if key == IS_SET then Some(BooleanPref(true))
    else if key in ks.strings then
      (if key in data && data[key].StringExtra? then Some(StringPref(data[key].s)) else None)
    else if key in ks.longs then
      Some(LongPref(if key in data && data[key].LongExtra? then data[key].l else 0))
    else if key in ks.ints then
      Some(IntPref(if key in data && data[key].IntExtra? then data[key].i else 0))
    else if key in ks.booleans then
      Some(BooleanPref(key in data && data[key].BooleanExtra? && data[key].b))
    else if key in ks.bundles then
      (if key in data && data[key].BundleExtra? then
         (match BundleToString(Some(data[key].bundle), xml)
          case Some(s) => Some(StringPref(s))
          case None => None)
       else None)
    else None
  }

  /** One more iteration of a save loop applies the put for the next key. */
  lemma SaveKeysStep(kind: Kind, editor: Prefs, keys: seq<string>, i: nat, data: Bundle, xml: XmlLibrary)
    requires i < |keys|
    ensures var ed := SaveKeys(kind, editor, keys[..i], data, xml);
            SaveKeys(kind, editor, keys[..i + 1], data, xml) == SetEntry(ed, keys[i], Written(kind, Get(ed, keys[i]), data, keys[i], xml))
  {
    assert keys[..i + 1][..i] == keys[..i];
  }

  lemma WrittenIdempotent(kind: Kind, prev: Option<PrefValue>, data: Bundle, key: string, xml: XmlLibrary)
    ensures Written(kind, Written(kind, prev, data, key, xml), data, key, xml) == Written(kind, prev, data, key, xml)
  {
  }

  /** After one loop, a key holds what the last put for it wrote, or what it held before the loop. */
  lemma {:induction false} SaveKeysAt(kind: Kind, editor: Prefs, keys: seq<string>, data: Bundle, xml: XmlLibrary, k: string)
    ensures Get(SaveKeys(kind, editor, keys, data, xml), k)
         == if k in keys then Written(kind, Get(editor, k), data, k, xml) else Get(editor, k)
    decreases |keys|
  {
    if keys != [] {
      var init := keys[..|keys| - 1];
      var last := keys[|keys| - 1];
      assert keys == init + [last];
      assert k in keys <==> k in init || k == last;
      SaveKeysAt(kind, editor, init, data, xml, k);
      var ed := SaveKeys(kind, editor, init, data, xml);
      if k == last {
        WrittenIdempotent(kind, Get(editor, k), data, k, xml);
      } else {
        assert Get(SaveKeys(kind, editor, keys, data, xml), k) == Get(ed, k);
      }
    }
  }

  /** save is a full overwrite: the file afterwards is exactly ExpectedSaved, whatever it held before. */
  lemma SavedAt(ks: KeyLists, data: Bundle, xml: XmlLibrary, k: string)
    requires ks.Disjoint()
    ensures Get(SavedPrefs(ks, data, xml), k) == ExpectedSaved(ks, data, xml, k)
  {
    var afterStrings := SaveKeys(StringKind, map[], ks.strings, data, xml);
    var afterLongs := SaveKeys(LongKind, afterStrings, ks.longs, data, xml);
    var afterInts := SaveKeys(IntKind, afterLongs, ks.ints, data, xml);
    var afterBooleans := SaveKeys(BooleanKind, afterInts, ks.booleans, data, xml);
    SaveKeysAt(StringKind, map[], ks.strings, data, xml, k);
    SaveKeysAt(LongKind, afterStrings, ks.longs, data, xml, k);
    SaveKeysAt(IntKind, afterLongs, ks.ints, data, xml, k);
    SaveKeysAt(BooleanKind, afterInts, ks.booleans, data, xml, k);
    SaveKeysAt(BundleKind, afterBooleans, ks.bundles, data, xml, k);
  }

  /** The saved file holds the sentinel and declared keys only, and every declared long, int and boolean key. */
  lemma SavedKeys(ks: KeyLists, data: Bundle, xml: XmlLibrary, k: string)
    requires ks.Disjoint()
    ensures k in SavedPrefs(ks, data, xml) ==> k == IS_SET || ks.Declares(k)
    ensures k == IS_SET || k in ks.longs || k in ks.ints || k in ks.booleans ==> k in SavedPrefs(ks, data, xml)
  {
    SavedAt(ks, data, xml, k);
  }

  // ---------------------------------------------------------------------------
  // load

  /** What load returns: null, a restored Intent, or the ClassCastException a getter throws for `key`. */
  datatype Loaded = NoData | Restored(intent: Intent) | ClassCast(key: string)

  /** Whether the preferences getter load uses for `kind` reads `key` without a ClassCastException. */
  predicate Readable(kind: Kind, prefs: Prefs, key: string) {
    key in prefs ==>
      match kind
      case StringKind => prefs[key].StringPref?
      case LongKind => prefs[key].LongPref?
      case IntKind => prefs[key].IntPref?
      case BooleanKind => prefs[key].BooleanPref?
      case BundleKind => prefs[key].StringPref?
  }

  /** The extra load puts for `key`, or None when it puts none (absent key, or a bundle that does not decode). */
  function Fetched(kind: Kind, prefs: Prefs, key: string, xml: XmlLibrary): Option<Extra>
    requires Readable(kind, prefs, key)
  {
    if key !in prefs then None
    else
      match kind
      case StringKind => Some(StringExtra(prefs[key].s))
      case LongKind => Some(LongExtra(prefs[key].l))
      case IntKind => Some(IntExtra(prefs[key].i))
      case BooleanKind => Some(BooleanExtra(prefs[key].b))
      case BundleKind =>
        (match StringToBundle(Some(prefs[key].s), xml)
         case Some(b) => Some(BundleExtra(b))
         case None => None)
  }

  /** One step of one of load's loops. */
  function LoadKey(kind: Kind, extras: Bundle, key: string, prefs: Prefs, xml: XmlLibrary): Result<Bundle, string> {
    if !Readable(kind, prefs, key) then Err(key)
    else
      match Fetched(kind, prefs, key, xml)
      case Some(v) => Ok(extras[key := v])
      case None => Ok(extras)
  }

  /** One of load's loops over `keys`: it stops at the first key whose entry has the wrong type. */
  function LoadKeys(kind: Kind, extras: Bundle, keys: seq<string>, prefs: Prefs, xml: XmlLibrary): (r: Result<Bundle, string>)
    ensures r.Err? ==> r.error in keys && !Readable(kind, prefs, r.error)
    decreases |keys|
  {
    if keys == [] then Ok(extras)
    else
      assert keys == keys[..|keys| - 1] + [keys[|keys| - 1]];
      var r := LoadKeys(kind, extras, keys[..|keys| - 1], prefs, xml);
      if r.Err? then r else LoadKey(kind, r.value, keys[|keys| - 1], prefs, xml)
  }

  /** A loop completes exactly when every key it visits has the type its getter expects. */
  lemma {:induction false} LoadKeysOk(kind: Kind, extras: Bundle, keys: seq<string>, prefs: Prefs, xml: XmlLibrary)
    ensures LoadKeys(kind, extras, keys, prefs, xml).Ok? <==> forall key :: key in keys ==> Readable(kind, prefs, key)
    decreases |keys|
  {
    if keys != [] {
      var init := keys[..|keys| - 1];
      assert keys == init + [keys[|keys| - 1]];
      LoadKeysOk(kind, extras, init, prefs, xml);
    }
  }

  /** One more iteration of a load loop applies the step for the next key. */
  lemma LoadKeysStep(kind: Kind, extras: Bundle, keys: seq<string>, i: nat, prefs: Prefs, xml: XmlLibrary)
    requires i < |keys|
    requires LoadKeys(kind, extras, keys[..i], prefs, xml).Ok?
    ensures LoadKeys(kind, extras, keys[..i + 1], prefs, xml)
         == LoadKey(kind, LoadKeys(kind, extras, keys[..i], prefs, xml).value, keys[i], prefs, xml)
  {
    assert keys[..i + 1][..i] == keys[..i];
  }

  /** Every declared key can be read with the getter of its kind. */
  predicate AllReadable(ks: KeyLists, prefs: Prefs) {
    && (forall key :: key in ks.strings ==> Readable(StringKind, prefs, key))
    && (forall key :: key in ks.longs ==> Readable(LongKind, prefs, key))
    && (forall key :: key in ks.ints ==> Readable(IntKind, prefs, key))
    && (forall key :: key in ks.booleans ==> Readable(BooleanKind, prefs, key))
    && (forall key :: key in ks.bundles ==> Readable(BundleKind, prefs, key))
  }

  /** The extras of a restored Intent: the five loops, one after the other. */
  function LoadExtras(prefs: Prefs, ks: KeyLists, xml: XmlLibrary): (r: Result<Bundle, string>)
    ensures r.Err? ==> ks.Declares(r.error)
  {
    var afterStrings :- LoadKeys(StringKind, map[], ks.strings, prefs, xml);
    var afterLongs :- LoadKeys(LongKind, afterStrings, ks.longs, prefs, xml);
    var afterInts :- LoadKeys(IntKind, afterLongs, ks.ints, prefs, xml);
    var afterBooleans :- LoadKeys(BooleanKind, afterInts, ks.booleans, prefs, xml);
    LoadKeys(BundleKind, afterBooleans, ks.bundles, prefs, xml)
  }

  /** The file holds the sentinel, set to true. */
  predicate IsSet(prefs: Prefs) {
    IS_SET in prefs && prefs[IS_SET] == BooleanPref(true)
  }

  /** What load() returns for a store whose file is `prefs`. */
  function LoadSpec(prefs: Prefs, ks: KeyLists, target: ComponentName, xml: XmlLibrary): (r: Loaded)
    ensures r.NoData? <==> IS_SET !in prefs || prefs[IS_SET] == BooleanPref(false)
    ensures r.Restored? ==> r.intent.component == target
    ensures r.ClassCast? ==> r.key == IS_SET || ks.Declares(r.key)
  {
    if IS_SET !in prefs then NoData
    else if !prefs[IS_SET].BooleanPref? then ClassCast(IS_SET)
    else if !prefs[IS_SET].b then NoData
    else
      match LoadExtras(prefs, ks, xml)
      case Ok(extras) => Restored(Intent(target, extras))
      case Err(key) => ClassCast(key)
  }

  /** load restores an Intent exactly when the store is set and every declared key has its kind's type. */
  lemma RestoredIff(prefs: Prefs, ks: KeyLists, target: ComponentName, xml: XmlLibrary)
    ensures LoadSpec(prefs, ks, target, xml).Restored? <==> IsSet(prefs) && AllReadable(ks, prefs)
  {
    var afterStrings := LoadKeys(StringKind, map[], ks.strings, prefs, xml);
    LoadKeysOk(StringKind, map[], ks.strings, prefs, xml);
    if afterStrings.Ok? {
      var afterLongs := LoadKeys(LongKind, afterStrings.value, ks.longs, prefs, xml);
      LoadKeysOk(LongKind, afterStrings.value, ks.longs, prefs, xml);
      if afterLongs.Ok? {
        var afterInts := LoadKeys(IntKind, afterLongs.value, ks.ints, prefs, xml);
        LoadKeysOk(IntKind, afterLongs.value, ks.ints, prefs, xml);
        if afterInts.Ok? {
          var afterBooleans := LoadKeys(BooleanKind, afterInts.value, ks.booleans, prefs, xml);
          LoadKeysOk(BooleanKind, afterInts.value, ks.booleans, prefs, xml);
          if afterBooleans.Ok? {
            LoadKeysOk(BundleKind, afterBooleans.value, ks.bundles, prefs, xml);
          }
        }
      }
    }
  }

  /**
   * Reference description of a restored Intent, key by key: a declared string,
   * long, int or boolean key is there exactly when the file holds it, with the
   * stored value; a bundle key is there when its text decodes; nothing else is.
   */
  function ExpectedLoaded(ks: KeyLists, prefs: Prefs, xml: XmlLibrary, key: string): Option<Extra> {
    if key in ks.strings then
      (if key in prefs && prefs[key].StringPref? then Some(StringExtra(prefs[key].s)) else None)
    else if key in ks.longs then
      (if key in prefs && prefs[key].LongPref? then Some(LongExtra(prefs[key].l)) else None)
    else if key in ks.ints then
      (if key in prefs && prefs[key].IntPref? then Some(IntExtra(prefs[key].i)) else None)
    else if key in ks.booleans then
      (if key in prefs && prefs[key].BooleanPref? then Some(BooleanExtra(prefs[key].b)) else None)
    else if key in ks.bundles && key in prefs && prefs[key].StringPref? then
      (match StringToBundle(Some(prefs[key].s), xml)
       case Some(b) => Some(BundleExtra(b))
       case None => None)
    else None
  }

  /** A loop that has met a wrongly typed entry ends with that failure, whatever keys follow. */
  lemma {:induction false} LoadErrSticks(kind: Kind, extras: Bundle, keys: seq<string>, j: nat, prefs: Prefs, xml: XmlLibrary)
    requires j <= |keys|
    requires LoadKeys(kind, extras, keys[..j], prefs, xml).Err?
    ensures LoadKeys(kind, extras, keys, prefs, xml) == LoadKeys(kind, extras, keys[..j], prefs, xml)
    decreases |keys|
  {
    if j < |keys| {
      var init := keys[..|keys| - 1];
      assert init[..j] == keys[..j];
      LoadErrSticks(kind, extras, init, j, prefs, xml);
    } else {
      assert keys[..j] == keys;
    }
  }

  /** After one loop that completes, a key holds what the last fetch for it put, or what it held before. */
  lemma {:induction false} LoadKeysAt(kind: Kind, extras: Bundle, keys: seq<string>, prefs: Prefs, xml: XmlLibrary, k: string)
    requires LoadKeys(kind, extras, keys, prefs, xml).Ok?
    ensures k in keys ==> Readable(kind, prefs, k)
    ensures Get(LoadKeys(kind, extras, keys, prefs, xml).value, k)
         == if k in keys && Fetched(kind, prefs, k, xml).Some? then Fetched(kind, prefs, k, xml) else Get(extras, k)
    decreases |keys|
  {
    LoadKeysOk(kind, extras, keys, prefs, xml);
    if keys != [] {
      var init := keys[..|keys| - 1];
      var last := keys[|keys| - 1];
      assert keys == init + [last];
      assert k in keys <==> k in init || k == last;
      LoadKeysAt(kind, extras, init, prefs, xml, k);
    }
  }

  /** When the store is set and well typed, load restores exactly ExpectedLoaded, aimed at the target. */
  lemma RestoredAt(prefs: Prefs, ks: KeyLists, target: ComponentName, xml: XmlLibrary, k: string)
    requires ks.Disjoint()
    requires IsSet(prefs) && AllReadable(ks, prefs)
    ensures LoadSpec(prefs, ks, target, xml).Restored?
    ensures LoadSpec(prefs, ks, target, xml).intent.component == target
    ensures Get(LoadSpec(prefs, ks, target, xml).intent.extras, k) == ExpectedLoaded(ks, prefs, xml, k)
  {
    RestoredIff(prefs, ks, target, xml);
    var afterStrings := LoadKeys(StringKind, map[], ks.strings, prefs, xml).value;
    var afterLongs := LoadKeys(LongKind, afterStrings, ks.longs, prefs, xml).value;
    var afterInts := LoadKeys(IntKind, afterLongs, ks.ints, prefs, xml).value;
    var afterBooleans := LoadKeys(BooleanKind, afterInts, ks.booleans, prefs, xml).value;
    LoadKeysAt(StringKind, map[], ks.strings, prefs, xml, k);
    LoadKeysAt(LongKind, afterStrings, ks.longs, prefs, xml, k);
    LoadKeysAt(IntKind, afterLongs, ks.ints, prefs, xml, k);
    LoadKeysAt(BooleanKind, afterInts, ks.booleans, prefs, xml, k);
    LoadKeysAt(BundleKind, afterBooleans, ks.bundles, prefs, xml, k);
  }

  // ---------------------------------------------------------------------------
  // save, then load

  /**
   * Reference description of load() after save(data): the Bundle's string for a
   * string key; the Bundle's value or 0/false for a long, int or boolean key (save
   * wrote it even when the Bundle lacked it); for a bundle key, the decoded text
   * of the encoded bundle; nothing for any other key.
   */
  function ExpectedRoundTrip(ks: KeyLists, data: Bundle, xml: XmlLibrary, key: string): Option<Extra> {
    if key in ks.strings then
      (if key in data && data[key].StringExtra? then Some(data[key]) else None)
    else if key in ks.longs then
      Some(LongExtra(if key in data && data[key].LongExtra? then data[key].l else 0))
    else if key in ks.ints then
      Some(IntExtra(if key in data && data[key].IntExtra? then data[key].i else 0))
    else if key in ks.booleans then
      Some(BooleanExtra(key in data && data[key].BooleanExtra? && data[key].b))
    else if key in ks.bundles && key in data && data[key].BundleExtra? then
      (match StringToBundle(BundleToString(Some(data[key].bundle), xml), xml)
       case Some(b) => Some(BundleExtra(b))
       case None => None)
    else None
  }

  /** Every declared key of a saved file has the type its kind's getter expects. */
  lemma SavedIsReadable(ks: KeyLists, data: Bundle, xml: XmlLibrary)
    requires ks.Disjoint() && !ks.Declares(IS_SET)
    ensures IsSet(SavedPrefs(ks, data, xml)) && AllReadable(ks, SavedPrefs(ks, data, xml))
  {
    var saved := SavedPrefs(ks, data, xml);
    SavedAt(ks, data, xml, IS_SET);
    forall key | key in ks.strings ensures Readable(StringKind, saved, key) { SavedAt(ks, data, xml, key); }
    forall key | key in ks.longs ensures Readable(LongKind, saved, key) { SavedAt(ks, data, xml, key); }
    forall key | key in ks.ints ensures Readable(IntKind, saved, key) { SavedAt(ks, data, xml, key); }
    forall key | key in ks.booleans ensures Readable(BooleanKind, saved, key) { SavedAt(ks, data, xml, key); }
    forall key | key in ks.bundles ensures Readable(BundleKind, saved, key) { SavedAt(ks, data, xml, key); }
  }

  /** Round trip: for disjoint key lists that avoid the sentinel, load after save restores ExpectedRoundTrip. */
  lemma RoundTrip(ks: KeyLists, data: Bundle, xml: XmlLibrary, target: ComponentName, k: string)
    requires ks.Disjoint() && !ks.Declares(IS_SET)
    ensures LoadSpec(SavedPrefs(ks, data, xml), ks, target, xml).Restored?
    ensures LoadSpec(SavedPrefs(ks, data, xml), ks, target, xml).intent.component == target
    ensures Get(LoadSpec(SavedPrefs(ks, data, xml), ks, target, xml).intent.extras, k) == ExpectedRoundTrip(ks, data, xml, k)
  {
    var saved := SavedPrefs(ks, data, xml);
    SavedIsReadable(ks, data, xml);
    RestoredAt(saved, ks, target, xml, k);
    SavedAt(ks, data, xml, k);
  }

  /** A bundle that the library writes and reads back faithfully survives save and load unchanged. */
  lemma BundleSurvives(ks: KeyLists, data: Bundle, xml: XmlLibrary, target: ComponentName, k: string)
    requires ks.Disjoint() && !ks.Declares(IS_SET)
    requires LibraryRoundTrips(xml)
    requires k in ks.bundles && k in data && data[k].BundleExtra?
    requires BundleToString(Some(data[k].bundle), xml).Some?
    ensures LoadSpec(SavedPrefs(ks, data, xml), ks, target, xml).Restored?
    ensures Get(LoadSpec(SavedPrefs(ks, data, xml), ks, target, xml).intent.extras, k) == Some(data[k])
  {
    RoundTrip(ks, data, xml, target, k);
    BundleRoundTrip(xml, data[k].bundle);
  }

  /**
   * The asymmetry between save and load: an int key missing from the Bundle comes
   * back as 0 after save and load, whereas load of a file without that key leaves it out.
   */
  lemma MissingIntComesBackZero(ks: KeyLists, data: Bundle, xml: XmlLibrary, target: ComponentName, k: string)
    requires ks.Disjoint() && !ks.Declares(IS_SET)
    requires k in ks.ints && k !in data
    ensures LoadSpec(SavedPrefs(ks, data, xml), ks, target, xml).Restored?
    ensures Get(LoadSpec(SavedPrefs(ks, data, xml), ks, target, xml).intent.extras, k) == Some(IntExtra(0))
    ensures forall prefs :: IsSet(prefs) && AllReadable(ks, prefs) && k !in prefs ==>
              LoadSpec(prefs, ks, target, xml).Restored? && k !in LoadSpec(prefs, ks, target, xml).intent.extras
  {
    RoundTrip(ks, data, xml, target, k);
    forall prefs | IsSet(prefs) && AllReadable(ks, prefs) && k !in prefs
      ensures LoadSpec(prefs, ks, target, xml).Restored? && k !in LoadSpec(prefs, ks, target, xml).intent.extras
    {
      RestoredAt(prefs, ks, target, xml, k);
    }
  }

  /**
   * Without disjointness the round trip breaks: a key declared as a string key and
   * also as a long, int or boolean key makes load after save throw, since the file
   * can hold only one type under it.
   */
  lemma OverlappingKeysThrow(ks: KeyLists, data: Bundle, xml: XmlLibrary, target: ComponentName, k: string)
    requires k in ks.strings && (k in ks.longs || k in ks.ints || k in ks.booleans)
    ensures LoadSpec(SavedPrefs(ks, data, xml), ks, target, xml).ClassCast?
  {
    var saved := SavedPrefs(ks, data, xml);
    var afterStrings := SaveKeys(StringKind, map[], ks.strings, data, xml);
    var afterLongs := SaveKeys(LongKind, afterStrings, ks.longs, data, xml);
    var afterInts := SaveKeys(IntKind, afterLongs, ks.ints, data, xml);
    var afterBooleans := SaveKeys(BooleanKind, afterInts, ks.booleans, data, xml);
    SaveKeysAt(LongKind, afterStrings, ks.longs, data, xml, k);
    SaveKeysAt(IntKind, afterLongs, ks.ints, data, xml, k);
    SaveKeysAt(BooleanKind, afterInts, ks.booleans, data, xml, k);
    SaveKeysAt(BundleKind, afterBooleans, ks.bundles, data, xml, k);
    assert k in saved;
    assert !AllReadable(ks, saved) by {
      if Readable(StringKind, saved, k) {
        assert saved[k].StringPref?;
      }
    }
    RestoredIff(saved, ks, target, xml);
  }

  /** Declaring the sentinel's own name as a string, long, int or bundle key makes load throw after save. */
  lemma SentinelKeyThrows(ks: KeyLists, data: Bundle, xml: XmlLibrary, target: ComponentName)
    requires IS_SET in ks.strings || IS_SET in ks.longs || IS_SET in ks.ints || IS_SET in ks.bundles
    ensures LoadSpec(SavedPrefs(ks, data, xml), ks, target, xml).ClassCast?
  {
    var saved := SavedPrefs(ks, data, xml);
    assert saved[IS_SET] == BooleanPref(true);
    RestoredIff(saved, ks, target, xml);
  }

  /** One string key "a" and one int key "b". */
  function ScenarioKeys(): KeyLists {
    KeyLists(["a"], [], ["b"], [], [])
  }

  function ScenarioData(): Bundle {
    map["a" := StringExtra("hello"), "b" := IntExtra(42)]
  }

  /** Saving {a: "hello", b: 42} and loading it back gives exactly those extras, aimed at the target. */
  lemma ScenarioRoundTrip(target: ComponentName, xml: XmlLibrary)
    ensures LoadSpec(SavedPrefs(ScenarioKeys(), ScenarioData(), xml), ScenarioKeys(), target, xml)
         == Restored(Intent(target, ScenarioData()))
  {
  }
}
