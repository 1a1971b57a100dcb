/** Device configurations: the five-integer text codec, the device-type table, and the
    configuration store that always keeps the built-in MINI2-384 entry and persists the
    others as a set of strings in the shared preferences. */
module DeviceSettings {
  import opened Wrappers
  import opened KotlinText

  datatype DeviceConfig = DeviceConfig(productId: int32, width: int32, height: int32, fps: int32, deviceType: int32)

  /** The five fields, in the order the text form lists them. */
  function Fields(c: DeviceConfig): seq<int32>
  {
    [c.productId, c.width, c.height, c.fps, c.deviceType]
  }

  /** DeviceConfig.toString: the five fields in decimal, joined by commas. Splitting the
      text at its commas gives back the five numerals. */
  function ToString(c: DeviceConfig): (s: string)
    ensures Split(s, ',') == [IntToString(c.productId), IntToString(c.width), IntToString(c.height),
                              IntToString(c.fps), IntToString(c.deviceType)]
  {
    var parts := [IntToString(c.productId), IntToString(c.width), IntToString(c.height),
                  IntToString(c.fps), IntToString(c.deviceType)];
    forall i | 0 <= i < |parts|
      ensures ',' !in parts[i]
    {
      NumeralHasNoComma(parts[i]);
    }
    SplitJoin(parts, ',');
    Join(parts, ',')
  }

  lemma NumeralHasNoComma(s: string)
    requires |s| >= 1 && (s[0] == '-' || IsDigit(s[0]))
    requires forall i :: 0 < i < |s| ==> IsDigit(s[i])
    ensures ',' !in s
  {
    if ',' in s {
      var i :| 0 <= i < |s| && s[i] == ',';
    }
  }

  /** Each part read as an Int, in order, or nothing when some part is not an Int
      numeral. */
  function ParseAll(parts: seq<string>): (r: Option<seq<int32>>)
    ensures r.Some? <==> forall i :: 0 <= i < |parts| ==> ToInt(parts[i]).Some?
    ensures r.Some? ==> |r.value| == |parts| && forall i :: 0 <= i < |parts| ==> ToInt(parts[i]) == Some(r.value[i])
  {
    if |parts| == 0 then Some([])
    else
      match (ToInt(parts[0]), ParseAll(parts[1..]))
      case (Some(v), Some(vs)) => Some([v] + vs)
      case (None, _) => None
      case (_, None) => None
  }

  /** Parts that are all numerals are read as their values. */
  lemma {:induction false} ParseAllOfNumerals(parts: seq<string>, values: seq<int32>)
    requires |parts| == |values|
    requires forall i :: 0 <= i < |parts| ==> ToInt(parts[i]) == Some(values[i])
    ensures ParseAll(parts) == Some(values)
  {
    if |parts| > 0 {
      forall i | 0 <= i < |parts| - 1
        ensures ToInt(parts[1..][i]) == Some(values[1..][i])
      {
        assert ToInt(parts[i + 1]) == Some(values[i + 1]);
      }
      ParseAllOfNumerals(parts[1..], values[1..]);
      assert ToInt(parts[0]) == Some(values[0]);
      assert values == [values[0]] + values[1..];
    }
  }

  /** DeviceConfig.fromString: a config exactly when the text splits into five parts at
      its commas and each part is an Int numeral, the fields read in order. */
  function FromString(s: string): (r: Option<DeviceConfig>)
    ensures r.Some? <==> |Split(s, ',')| == 5 && ParseAll(Split(s, ',')).Some?
    ensures r.Some? ==> forall i :: 0 <= i < 5 ==> ToInt(Split(s, ',')[i]) == Some(Fields(r.value)[i])
  {
    var parts := Split(s, ',');
    if |parts| != 5 then None
    else
      match ParseAll(parts)
      case None => None
      case Some(v) => Some(DeviceConfig(v[0], v[1], v[2], v[3], v[4]))
  }

  /** Every config survives being written and read back. */
  lemma RoundTrip(c: DeviceConfig)
    ensures FromString(ToString(c)) == Some(c)
  {
    var parts := Split(ToString(c), ',');
    forall i | 0 <= i < 5
      ensures ToInt(parts[i]) == Some(Fields(c)[i])
    {
      ToIntOfToString(Fields(c)[i]);
    }
    ParseAllOfNumerals(parts, Fields(c));
  }

  /** Different configs are written as different strings. */
  lemma ToStringInjective(a: DeviceConfig, b: DeviceConfig)
    ensures ToString(a) == ToString(b) <==> a == b
  {
    RoundTrip(a);
    RoundTrip(b);
  }

  /** A config written with a trailing comma has a sixth, empty part, so it is refused. */
  lemma TrailingCommaRejected(c: DeviceConfig)
    ensures FromString(ToString(c) + ",") == None
  {
    var parts := Split(ToString(c), ',');
    JoinSnoc(parts, "", ',');
    assert ToString(c) + "," == Join(parts + [""], ',');
    SplitJoin(parts + [""], ',');
  }

  /** Adding a part at the end adds a delimiter and the part. */
  lemma {:induction false} JoinSnoc(parts: seq<string>, q: string, d: char)
    requires |parts| >= 1
    ensures Join(parts + [q], d) == Join(parts, d) + [d] + q
    decreases |parts|
  {
    if |parts| == 1 {
      assert (parts + [q])[1..] == [q];
    } else {
      assert (parts + [q])[1..] == parts[1..] + [q];
      JoinSnoc(parts[1..], q, d);
    }
  }

  /** An entry of the device-type table. */
  datatype DeviceTypeInfo = DeviceTypeInfo(name: string, width: int, height: int, fpsOptions: seq<int>)

  /** The supported device types, keyed by the native device_type_e value. */
  const DeviceTypes: map<int, DeviceTypeInfo> := map[
    3 := DeviceTypeInfo("MINI2-384", 384, 288, [30, 60]),
    7 := DeviceTypeInfo("MINI2-256", 256, 192, [25, 50]),
    8 := DeviceTypeInfo("MINI2-640", 640, 512, [30])]

  /** A config agrees with the device-type table: a known type, its resolution, and one of
      its frame rates. */
  predicate MatchesDeviceType(c: DeviceConfig)
  {
    c.deviceType as int in DeviceTypes &&
    c.width as int == DeviceTypes[c.deviceType as int].width &&
    c.height as int == DeviceTypes[c.deviceType as int].height &&
    c.fps as int in DeviceTypes[c.deviceType as int].fpsOptions
  }

  /** The table admits exactly five type/resolution/rate combinations. */
  lemma DeviceTypeCombinations(c: DeviceConfig)
    ensures MatchesDeviceType(c) <==>
              (c.deviceType, c.width, c.height, c.fps) in
                {(3, 384, 288, 30), (3, 384, 288, 60), (7, 256, 192, 25), (7, 256, 192, 50), (8, 640, 512, 30)}
  {
  }

  const DefaultProductId: int32 := 0x43D1

  /** The built-in MINI2-384 configuration. */
  const DefaultConfig: DeviceConfig := DeviceConfig(DefaultProductId, 384, 288, 60, 3)

  /** The built-in configuration is one the device-type table allows. */
  lemma DefaultMatchesDeviceType()
    ensures MatchesDeviceType(DefaultConfig)
    ensures DeviceTypes[DefaultConfig.deviceType as int].name == "MINI2-384"
  {
  }

  /** The shared preferences' string sets, by key. */
  type Prefs = map<string, set<string>>

  const KeyConfigs: string := "configs"

  /** What saveConfigs writes: every config but the default's product ID, as text. */
  function SavedStrings(configs: map<int32, DeviceConfig>): (r: set<string>)
    ensures forall s :: s in r ==> FromString(s).Some? && FromString(s).value in configs.Values &&
                                   FromString(s).value.productId != DefaultProductId
    ensures forall c :: c in configs.Values && c.productId != DefaultProductId ==> ToString(c) in r
  {
    var r := set c | c in configs.Values && c.productId != DefaultProductId :: ToString(c);
    forall s | s in r
      ensures FromString(s).Some? && FromString(s).value in configs.Values &&
              FromString(s).value.productId != DefaultProductId
    {
      var c :| c in configs.Values && c.productId != DefaultProductId && s == ToString(c);
      RoundTrip(c);
    }
    r
  }

  /** The preferences after saveConfigs: unchanged while there are none, otherwise the
      configs key holds the saved strings. */
  function Saved(prefs: Option<Prefs>, configs: map<int32, DeviceConfig>): (r: Option<Prefs>)
    ensures r.Some? <==> prefs.Some?
    ensures r.Some? ==> r.value.Keys == prefs.value.Keys + {KeyConfigs} && r.value[KeyConfigs] == SavedStrings(configs)
    ensures r.Some? ==> forall k :: k in prefs.value && k != KeyConfigs ==> r.value[k] == prefs.value[k]
  {
    if prefs.None? then None else Some(prefs.value[KeyConfigs := SavedStrings(configs)])
  }

  /** What loadConfigs reads: the configs key's strings, or none. */
  function StoredStrings(p: Prefs): set<string>
  {
    if KeyConfigs in p then p[KeyConfigs] else {}
  }

  /** A map loadConfigs may produce from the stored strings: the default under its product
      ID; every other entry is a parsed string keyed by its product ID; every parsed
      string's product ID is present. Which of two strings with the same product ID wins
      depends on the set's iteration order, so it is left open. */
  ghost predicate LoadedFrom(m: map<int32, DeviceConfig>, strings: set<string>)
  {
    DefaultProductId in m && m[DefaultProductId] == DefaultConfig &&
    (forall s :: s in strings && FromString(s).Some? ==> FromString(s).value.productId in m) &&
    (forall k :: k in m && k != DefaultProductId ==>
       m[k].productId == k && exists s :: s in strings && FromString(s) == Some(m[k]))
  }

  /** Every entry is stored under its own product ID. */
  predicate KeyedByProductId(m: map<int32, DeviceConfig>)
  {
    forall k :: k in m ==> m[k].productId == k
  }

  /** Every saved string reads back as the entry stored under its product ID. */
  lemma SavedStringIsEntry(configs: map<int32, DeviceConfig>, s: string)
    requires KeyedByProductId(configs)
    requires s in SavedStrings(configs)
    ensures FromString(s).Some? && FromString(s).value.productId in configs
    ensures configs[FromString(s).value.productId] == FromString(s).value
  {
    var c := FromString(s).value;
    var j :| j in configs && configs[j] == c;
  }

  /** An entry loaded from the saved strings is the entry stored under the same key. */
  lemma LoadedEntryIsSaved(configs: map<int32, DeviceConfig>, loaded: map<int32, DeviceConfig>, k: int32)
    requires KeyedByProductId(configs)
    requires LoadedFrom(loaded, SavedStrings(configs))
    requires k in loaded && k != DefaultProductId
    ensures k in configs && configs[k] == loaded[k]
  {
    var s :| s in SavedStrings(configs) && FromString(s) == Some(loaded[k]);
    SavedStringIsEntry(configs, s);
  }

  /** Saving and loading again gives back the same configurations, whenever they are keyed
      by product ID and hold the default. */
  lemma SaveLoadRoundTrip(configs: map<int32, DeviceConfig>, loaded: map<int32, DeviceConfig>)
    requires KeyedByProductId(configs)
    requires DefaultProductId in configs && configs[DefaultProductId] == DefaultConfig
    requires LoadedFrom(loaded, SavedStrings(configs))
    ensures loaded == configs
  {
    var saved := SavedStrings(configs);
    forall k | k in loaded
      ensures k in configs && configs[k] == loaded[k]
    {
      if k != DefaultProductId {
        LoadedEntryIsSaved(configs, loaded, k);
      }
    }
    forall k | k in configs
      ensures k in loaded
    {
      if k != DefaultProductId {
        var c := configs[k];
        assert c in configs.Values;
        RoundTrip(c);
        assert FromString(ToString(c)).value.productId == k;
      }
    }
  }

  /** The configuration store (object DeviceConfigs). */
  class DeviceConfigs {
    var configs: map<int32, DeviceConfig>
    var prefs: Option<Prefs>

    /** The store starts with the default alone and no preferences. */
    constructor ()
      ensures configs == map[DefaultProductId := DefaultConfig] && prefs == None
    {
      configs := map[DefaultProductId := DefaultConfig];
      prefs := None;
    }

    /** The default entry is present and unchanged. */
    predicate HasDefault()
      reads this`configs
    {
      DefaultProductId in configs && configs[DefaultProductId] == DefaultConfig
    }

    /** The configs setter: the new map with the default put back on top, then saved. */
    method SetConfigs(value: map<int32, DeviceConfig>)
      modifies this`configs, this`prefs
      ensures configs == value[DefaultProductId := DefaultConfig]
      ensures HasDefault()
      ensures prefs == Saved(old(prefs), configs)
    {
      configs := value[DefaultProductId := DefaultConfig];
      SaveConfigs();
    }

    /** saveConfigs: nothing without preferences, otherwise the non-default configs are
        written under the configs key. */
    method SaveConfigs()
      modifies this`prefs
      ensures prefs == Saved(old(prefs), configs)
    {
      if prefs.Some? {
        prefs := Some(prefs.value[KeyConfigs := SavedStrings(configs)]);
      }
    }

    /** initialize: the preferences are those given, and the configs are loaded from them. */
    method Initialize(stored: Prefs)
      modifies this`configs, this`prefs
      ensures prefs == Some(stored)
      ensures HasDefault() && LoadedFrom(configs, StoredStrings(stored))
    {
      prefs := Some(stored);
      LoadConfigs();
    }

    /** loadConfigs: nothing without preferences, otherwise every stored string that
        parses is keyed by its product ID, in the set's iteration order, and the default
        is put back on top. */
    method LoadConfigs()
      modifies this`configs
      ensures prefs.None? ==> configs == old(configs)
      ensures prefs.Some? ==> HasDefault() && LoadedFrom(configs, StoredStrings(prefs.value))
    {
      if prefs.None? {
        return;
      }
      var strings := StoredStrings(prefs.value);
      var remaining := strings;
      var loaded: map<int32, DeviceConfig> := map[];
      while remaining != {}
        invariant remaining <= strings
        invariant forall s :: s in strings - remaining && FromString(s).Some? ==> FromString(s).value.productId in loaded
        invariant forall k :: k in loaded ==>
                    loaded[k].productId == k && exists s :: s in strings && FromString(s) == Some(loaded[k])
        decreases remaining
      {
        var s :| s in remaining;
        remaining := remaining - {s};
        var parsed := FromString(s);
        if parsed.Some? {
          loaded := loaded[parsed.value.productId := parsed.value];
        }
      }
      configs := loaded[DefaultProductId := DefaultConfig];
    }
  }

  /** Setting the configs and loading them back from what was saved restores them, when
      they are keyed by product ID. */
  lemma SetThenReloadRestores(value: map<int32, DeviceConfig>, stored: Prefs, loaded: map<int32, DeviceConfig>)
    requires KeyedByProductId(value)
    requires stored == Saved(Some(map[]), value[DefaultProductId := DefaultConfig]).value
    requires LoadedFrom(loaded, StoredStrings(stored))
    ensures loaded == value[DefaultProductId := DefaultConfig]
  {
    SaveLoadRoundTrip(value[DefaultProductId := DefaultConfig], loaded);
  }
}
