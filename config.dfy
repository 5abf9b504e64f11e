/**
  The settings store of mkchromecast (`mkchromecast/config.py`): one
  `settings` section of string values, filled with defaults for any missing
  key, read through typed getters, and written back unless read-only.

  The parser is a map from option name to stored text; the config file on
  disk is a parameter of `LoadAndValidate` (its `settings` section, or `None`
  when the file or the section is absent), and every write is recorded as a
  snapshot of the section, so the number of writes is `|written|`.
 */
module Config {
  import opened Wrappers
  import opened Strings
  import opened Console

  const SettingsSection: string := "settings"

  const BackendKey: string := "backend"
  const CodecKey: string := "codec"
  const BitrateKey: string := "bitrate"
  const SamplerateKey: string := "samplerate"
  const NotificationsKey: string := "notifications"
  const ColorsKey: string := "colors"
  const SearchAtLaunchKey: string := "search_at_launch"
  const AlsaDeviceKey: string := "alsa_device"

  /** A Python value as the defaults table holds it. */
  datatype PyValue = Str(s: string) | Int(i: int) | Bool(b: bool) | NoneValue

  /** `str(value)`: what every setter hands to the parser. */
  function StrOf(v: PyValue): string {
    match v
    case Str(s) => s
    case Int(i) => IntToString(i)
    case Bool(b) => if b then "True" else "False"
    case NoneValue => "None"
  }

  /** What `configparser` raises from `get`, `getint`, `getboolean` and `set`. */
  datatype ConfigError =
    | NoSection(section: string)
    | NoOption(section: string, option: string)
    | NotAnInt(text: string)
    | NotABoolean(text: string)

  /** The option names of a defaults table, in order. */
  function Keys(defaults: seq<(string, PyValue)>): (keys: seq<string>)
    ensures |keys| == |defaults|
    ensures forall i :: 0 <= i < |defaults| ==> keys[i] == defaults[i].0
  {
    seq(|defaults|, i requires 0 <= i < |defaults| => defaults[i].0)
  }

  /**
    `_default_conf` in insertion order: the backend is added last, "node" on
    "Darwin" and "parec" on every other platform.
   */
  function DefaultConf(platform: string): (defaults: seq<(string, PyValue)>)
    ensures Keys(defaults) == [CodecKey, BitrateKey, SamplerateKey, NotificationsKey,
                               ColorsKey, SearchAtLaunchKey, AlsaDeviceKey, BackendKey]
    ensures defaults[7].1 == Str(if platform == "Darwin" then "node" else "parec")
  {
    [(CodecKey, Str("mp3")),
     (BitrateKey, Int(192)),
     (SamplerateKey, Int(44100)),
     (NotificationsKey, Bool(false)),
     (ColorsKey, Str("black")),
     (SearchAtLaunchKey, Bool(false)),
     (AlsaDeviceKey, NoneValue),
     (BackendKey, Str(if platform == "Darwin" then "node" else "parec"))]
  }

  /**
    The default-filling pass of `_update_any_missing_values`: walking the
    defaults in order, every key the section lacks is set to `str(default)`
    and reported missing. Returns the new section and the missing keys.
   */
  function FillMissing(settings: map<string, string>, defaults: seq<(string, PyValue)>)
    : (map<string, string>, seq<string>)
    decreases |defaults|
  {
    if defaults == [] then (settings, [])
    else
      var key := defaults[0].0;
      if key in settings then FillMissing(settings, defaults[1..])
      else
        var rest := FillMissing(settings[key := StrOf(defaults[0].1)], defaults[1..]);
        (rest.0, [key] + rest.1)
  }

  /** One step of the pass, from position `i` of the defaults. */
  lemma FillMissingStep(settings: map<string, string>, defaults: seq<(string, PyValue)>, i: nat)
    requires i < |defaults|
    ensures defaults[i].0 in settings ==> FillMissing(settings, defaults[i..]) == FillMissing(settings, defaults[i + 1..])
    ensures defaults[i].0 !in settings ==>
              var rest := FillMissing(settings[defaults[i].0 := StrOf(defaults[i].1)], defaults[i + 1..]);
              FillMissing(settings, defaults[i..]) == (rest.0, [defaults[i].0] + rest.1)
  {
    assert defaults[i..][0] == defaults[i] && defaults[i..][1..] == defaults[i + 1..];
  }

  /**
    The pass keeps every stored value, adds exactly the keys of the table the
    section lacked, and reports exactly those.
   */
  lemma {:induction false} FillMissingKeys(settings: map<string, string>, defaults: seq<(string, PyValue)>, k: string)
    ensures k in settings ==> k in FillMissing(settings, defaults).0 && FillMissing(settings, defaults).0[k] == settings[k]
    ensures k in FillMissing(settings, defaults).0 <==> k in settings || k in Keys(defaults)
    ensures k in FillMissing(settings, defaults).1 <==> k !in settings && k in Keys(defaults)
    decreases |defaults|
  {
    if defaults != [] {
      var key := defaults[0].0;
      assert Keys(defaults) == [key] + Keys(defaults[1..]);
      if key in settings {
        FillMissingKeys(settings, defaults[1..], k);
      } else {
        FillMissingKeys(settings[key := StrOf(defaults[0].1)], defaults[1..], k);
      }
    }
  }

  /** A key the section lacks gets the value of its first entry in the defaults. */
  lemma {:induction false} FillMissingUsesDefault(settings: map<string, string>, defaults: seq<(string, PyValue)>, i: nat)
    requires i < |defaults| && defaults[i].0 !in settings
    requires forall j :: 0 <= j < i ==> defaults[j].0 != defaults[i].0
    ensures defaults[i].0 in FillMissing(settings, defaults).0
    ensures FillMissing(settings, defaults).0[defaults[i].0] == StrOf(defaults[i].1)
    decreases i
  {
    var key := defaults[0].0;
    if i == 0 {
      var next := settings[key := StrOf(defaults[0].1)];
      assert FillMissing(settings, defaults).0 == FillMissing(next, defaults[1..]).0;
      FillMissingKeys(next, defaults[1..], key);
    } else if key in settings {
      FillMissingUsesDefault(settings, defaults[1..], i - 1);
    } else {
      FillMissingUsesDefault(settings[key := StrOf(defaults[0].1)], defaults[1..], i - 1);
    }
  }

  /** When no key is missing, the pass changes nothing and reports nothing. */
  lemma {:induction false} FillMissingAllPresent(settings: map<string, string>, defaults: seq<(string, PyValue)>)
    requires forall i :: 0 <= i < |defaults| ==> defaults[i].0 in settings
    ensures FillMissing(settings, defaults) == (settings, [])
  {
    if defaults != [] {
      FillMissingAllPresent(settings, defaults[1..]);
    }
  }

  /** A second pass over a filled section finds nothing missing. */
  lemma FillMissingIdempotent(settings: map<string, string>, defaults: seq<(string, PyValue)>)
    ensures FillMissing(FillMissing(settings, defaults).0, defaults) == (FillMissing(settings, defaults).0, [])
  {
    var filled := FillMissing(settings, defaults).0;
    forall i | 0 <= i < |defaults|
      ensures defaults[i].0 in filled
    {
      assert defaults[i].0 in Keys(defaults);
      FillMissingKeys(settings, defaults, defaults[i].0);
    }
    FillMissingAllPresent(filled, defaults);
  }

  predicate NoRepeats(keys: seq<string>) {
    forall a, b :: 0 <= a < b < |keys| ==> keys[a] != keys[b]
  }

  /** `_default_conf` is a dict: each option has one default. */
  lemma DefaultKeysDistinct(platform: string)
    ensures NoRepeats(Keys(DefaultConf(platform)))
  {
  }

  /** The reported keys carry no repeats. */
  lemma {:induction false} FillMissingReportsOnce(settings: map<string, string>, defaults: seq<(string, PyValue)>)
    ensures NoRepeats(FillMissing(settings, defaults).1)
    decreases |defaults|
  {
    if defaults != [] {
      var key := defaults[0].0;
      var missing := FillMissing(settings, defaults).1;
      if key in settings {
        FillMissingReportsOnce(settings, defaults[1..]);
        var sub := FillMissing(settings, defaults[1..]).1;
        assert missing == sub;
      } else {
        var next := settings[key := StrOf(defaults[0].1)];
        FillMissingReportsOnce(next, defaults[1..]);
        var rest := FillMissing(next, defaults[1..]).1;
        FillMissingKeys(next, defaults[1..], key);
        assert missing == [key] + rest;
        forall a, b | 0 <= a < b < |missing|
          ensures missing[a] != missing[b]
        {
          assert missing[b] == rest[b - 1];
          if a > 0 {
            assert missing[a] == rest[a - 1];
          }
        }
      }
    }
  }

  /** With distinct keys all absent, every key is reported, in table order. */
  lemma {:induction false} FillMissingAllAbsent(settings: map<string, string>, defaults: seq<(string, PyValue)>)
    requires forall a, b :: 0 <= a < b < |defaults| ==> defaults[a].0 != defaults[b].0
    requires forall i :: 0 <= i < |defaults| ==> defaults[i].0 !in settings
    ensures FillMissing(settings, defaults).1 == Keys(defaults)
    decreases |defaults|
  {
    if defaults != [] {
      var key := defaults[0].0;
      FillMissingAllAbsent(settings[key := StrOf(defaults[0].1)], defaults[1..]);
      assert Keys(defaults) == [key] + Keys(defaults[1..]);
    }
  }

  /** A fresh file has every option missing, reported in table order. */
  lemma NewFileReportsEveryKey(platform: string)
    ensures FillMissing(map[], DefaultConf(platform)).1
         == [CodecKey, BitrateKey, SamplerateKey, NotificationsKey, ColorsKey, SearchAtLaunchKey, AlsaDeviceKey, BackendKey]
  {
    FillMissingAllAbsent(map[], DefaultConf(platform));
  }

  /** Every option of a fresh file holds `str()` of its default. */
  lemma NewFileValues(platform: string, i: nat)
    requires i < |DefaultConf(platform)|
    ensures var d := DefaultConf(platform);
            d[i].0 in FillMissing(map[], d).0 && FillMissing(map[], d).0[d[i].0] == StrOf(d[i].1)
  {
    FillMissingUsesDefault(map[], DefaultConf(platform), i);
  }

  /** A fresh file gets the eight defaults, as `str()` writes them. */
  lemma NewFileDefaults(platform: string)
    ensures var r := FillMissing(map[], DefaultConf(platform)).0;
            && CodecKey in r && r[CodecKey] == "mp3" && BitrateKey in r && r[BitrateKey] == "192" && SamplerateKey in r && r[SamplerateKey] == "44100"
            && NotificationsKey in r && r[NotificationsKey] == "False" && ColorsKey in r && r[ColorsKey] == "black" && SearchAtLaunchKey in r && r[SearchAtLaunchKey] == "False"
            && AlsaDeviceKey in r && r[AlsaDeviceKey] == "None" && BackendKey in r && r[BackendKey] == (if platform == "Darwin" then "node" else "parec")
  {
    NewFileValues(platform, 0);
    NewFileValues(platform, 1);
    NewFileValues(platform, 2);
    NewFileValues(platform, 3);
    NewFileValues(platform, 4);
    NewFileValues(platform, 5);
    NewFileValues(platform, 6);
    NewFileValues(platform, 7);
    assert IntToString(192) == "192" by {
      assert NatToString(1) == "1";
      assert NatToString(19) == "19";
    }
    assert IntToString(44100) == "44100" by {
      assert NatToString(4) == "4";
      assert NatToString(44) == "44";
      assert NatToString(441) == "441";
      assert NatToString(4410) == "4410";
    }
  }

  /** `configparser`'s boolean states, looked up after lower-casing. */
  function BooleanState(text: string): (r: Option<bool>)
    ensures r == Some(true) <==> Lower(text) in ["1", "yes", "true", "on"]
    ensures r == Some(false) <==> Lower(text) in ["0", "no", "false", "off"]
  {
    var t := Lower(text);
    if t == "1" || t == "yes" || t == "true" || t == "on" then Some(true)
    else if t == "0" || t == "no" || t == "false" || t == "off" then Some(false)
    else None
  }

  /** `get(SETTINGS, key)`: the stored text, or the error for a missing section or option. */
  function Get(hasSection: bool, settings: map<string, string>, key: string): (r: Result<string, ConfigError>)
    ensures r.Ok? <==> hasSection && key in settings
  {
    if !hasSection then Err(NoSection(SettingsSection))
    else if key !in settings then Err(NoOption(SettingsSection, key))
    else Ok(settings[key])
  }

  /** `getint(SETTINGS, key)`: `int()` of the stored text. */
  function GetInt(hasSection: bool, settings: map<string, string>, key: string): (r: Result<int, ConfigError>)
    ensures r.Ok? ==> Get(hasSection, settings, key).Ok?
  {
    match Get(hasSection, settings, key)
    case Err(e) => Err(e)
    case Ok(text) =>
      match ParseInt(text)
      case Some(n) => Ok(n)
      case None => Err(NotAnInt(text))
  }

  /** `getboolean(SETTINGS, key)`: the boolean state of the stored text. */
  function GetBoolean(hasSection: bool, settings: map<string, string>, key: string): (r: Result<bool, ConfigError>)
    ensures r.Ok? ==> Get(hasSection, settings, key).Ok?
  {
    match Get(hasSection, settings, key)
    case Err(e) => Err(e)
    case Ok(text) =>
      match BooleanState(text)
      case Some(b) => Ok(b)
      case None => Err(NotABoolean(text))
  }

  /** `alsa_device` reads the text "None" as `None` and any other text as itself. */
  function DecodeAlsaDevice(text: string): (device: Option<string>)
    ensures device == None <==> text == "None"
    ensures device.Some? ==> device.value == text
  {
    if text == "None" then None else Some(text)
  }

  /** What the `alsa_device` setter hands to `str()`. */
  function AlsaDeviceValue(device: Option<string>): PyValue {
    match device
    case None => NoneValue
    case Some(s) => Str(s)
  }

  /** An integer written by a setter reads back as itself. */
  lemma IntSettingRoundTrip(settings: map<string, string>, key: string, n: int)
    ensures GetInt(true, settings[key := StrOf(Int(n))], key) == Ok(n)
  {
    IntToStringRoundTrip(n);
  }

  /** A boolean written by a setter ("True" or "False") reads back as itself. */
  lemma BoolSettingRoundTrip(settings: map<string, string>, key: string, b: bool)
    ensures GetBoolean(true, settings[key := StrOf(Bool(b))], key) == Ok(b)
  {
    if b {
      assert Lower("True") == "true";
    } else {
      assert Lower("False") == "false";
    }
  }

  /**
    A device written by the setter reads back as itself, except the device
    named "None", which is indistinguishable from no device.
   */
  lemma AlsaDeviceRoundTrip(device: Option<string>)
    ensures DecodeAlsaDevice(StrOf(AlsaDeviceValue(device))) == device <==> device != Some("None")
  {
  }

  /** A setter changes its own key and no other. */
  lemma StoreIsLocal(settings: map<string, string>, key: string, text: string, other: string)
    requires other != key
    ensures Get(true, settings[key := text], key) == Ok(text)
    ensures Get(true, settings[key := text], other) == Get(true, settings, other)
  {
  }

  /** `"Re-writing config to add missing keys: " + repr(missing_keys)` */
  function KeyListRepr(keys: seq<string>): string {
    "[" + Join(seq(|keys|, i requires 0 <= i < |keys| => "'" + keys[i] + "'"), ", ") + "]"
  }

  function CreatingSectionMessage(): string {
    ":::config::: Creating missing section '" + SettingsSection + "'"
  }

  function SettingMissingKeyMessage(key: string): string {
    ":::config::: Setting missing key " + key + " to default value."
  }

  /** The per-key lines of the default-filling pass: one per missing key, in debug mode only. */
  function MissingKeyNotices(missing: seq<string>, debug: bool): (notices: seq<Notice>)
    ensures |notices| == if debug then |missing| else 0
    ensures debug ==> forall i :: 0 <= i < |missing| ==> notices[i] == SettingMissingKey(missing[i])
  {
    if !debug || missing == [] then []
    else MissingKeyNotices(missing[..|missing| - 1], debug) + [SettingMissingKey(missing[|missing| - 1])]
  }

  lemma MissingKeyNoticesSnoc(missing: seq<string>, key: string, debug: bool)
    ensures MissingKeyNotices(missing + [key], debug)
         == MissingKeyNotices(missing, debug) + (if debug then [SettingMissingKey(key)] else [])
  {
    assert (missing + [key])[..|missing|] == missing;
  }

  function NotSavingMessage(): string {
    ":::config::: Missing keys _not_ being saved for read-only config"
  }

  function RewritingMessage(missing: seq<string>): string {
    ":::config::: Re-writing config to add missing keys: " + KeyListRepr(missing)
  }

  /** What `_update_any_missing_values` prints after the pass. */
  function SaveNotices(missing: seq<string>, readOnly: bool, debug: bool): (notices: seq<Notice>)
    ensures missing == [] ==> notices == []
    ensures missing != [] && readOnly ==> notices == [NotSaving]
    ensures missing != [] && !readOnly ==> (notices == [Rewriting(missing)] <==> debug) && (notices == [] <==> !debug)
  {
    if missing == [] then []
    else if readOnly then [NotSaving]
    else if debug then [Rewriting(missing)]
    else []
  }

  /** What the store prints, one value per `print`; `Shown` gives the console line. */
  datatype Notice =
    | CreatingSection
    | SettingMissingKey(key: string)
    | NotSaving
    | Rewriting(missing: seq<string>)

  function Shown(n: Notice): Line {
    match n
    case CreatingSection => Plain(CreatingSectionMessage())
    case SettingMissingKey(key) => Plain(SettingMissingKeyMessage(key))
    case NotSaving => Plain(NotSavingMessage())
    case Rewriting(missing) => Plain(RewritingMessage(missing))
  }

  class Config {
    const platform: string
    const readOnly: bool
    const debug: bool
    /** `_default_conf`: the value each option takes when the file lacks it. */
    const defaultConf: seq<(string, PyValue)>

    /** Whether the parser holds a `settings` section. */
    var hasSection: bool
    /** The options of the `settings` section. */
    var settings: map<string, string>
    /** One snapshot of the section per write to the config file. */
    var written: seq<map<string, string>>
    /** What the store has printed. */
    var console: seq<Notice>

    /** A store with an empty parser; nothing is read until it is loaded. */
    constructor(platform: string, readOnly: bool, debug: bool)
      ensures this.platform == platform && this.readOnly == readOnly && this.debug == debug
      ensures defaultConf == DefaultConf(platform)
      ensures !hasSection && settings == map[] && written == [] && console == []
    {
      this.platform := platform;
      this.readOnly := readOnly;
      this.debug := debug;
      defaultConf := DefaultConf(platform);
      hasSection := false;
      settings := map[];
      written := [];
      console := [];
    }

    /** `with conf:` enters by loading and validating. */
    method Enter(disk: Option<map<string, string>>)
      modifies this
      ensures hasSection
      ensures var (filled, missing) := FillMissing(old(settings) + (if disk.Some? then disk.value else map[]), defaultConf);
              settings == filled
              && written == old(written) + (if missing != [] && !readOnly then [filled] else [])
              && console == old(console) + (if old(hasSection) || disk.Some? then [] else [CreatingSection])
                            + MissingKeyNotices(missing, debug) + SaveNotices(missing, readOnly, debug)
    {
      LoadAndValidate(disk);
    }

    /** Leaving `with conf:` writes the config unless it is read-only. */
    method Exit()
      modifies this
      ensures hasSection == old(hasSection) && settings == old(settings) && console == old(console)
      ensures written == old(written) + (if readOnly then [] else [settings])
    {
      MaybeWriteConfig();
    }

    /**
      A whole `with conf:` block with no settings changed inside it: the
      section ends up filled; a read-only store never writes; otherwise the
      exit writes the filled section once, after one more write of it on
      entry when keys were missing.
     */
    method WithBlock(disk: Option<map<string, string>>)
      modifies this
      ensures hasSection
      ensures var (filled, missing) := FillMissing(old(settings) + (if disk.Some? then disk.value else map[]), defaultConf);
              settings == filled
              && written == old(written) + (if readOnly then [] else if missing == [] then [filled] else [filled, filled])
              && console == old(console) + (if old(hasSection) || disk.Some? then [] else [CreatingSection])
                            + MissingKeyNotices(missing, debug) + SaveNotices(missing, readOnly, debug)
      ensures var missing := FillMissing(old(settings) + (if disk.Some? then disk.value else map[]), defaultConf).1;
              |written| == |old(written)| + (if readOnly then 0 else if missing == [] then 1 else 2)
    {
      Enter(disk);
      Exit();
    }

    /** `read` merges the file's section into the parser, then the missing values are filled. */
    method LoadAndValidate(disk: Option<map<string, string>>)
      modifies this
      ensures hasSection
      ensures var (filled, missing) := FillMissing(old(settings) + (if disk.Some? then disk.value else map[]), defaultConf);
              settings == filled
              && written == old(written) + (if missing != [] && !readOnly then [filled] else [])
              && console == old(console) + (if old(hasSection) || disk.Some? then [] else [CreatingSection])
                            + MissingKeyNotices(missing, debug) + SaveNotices(missing, readOnly, debug)
      ensures forall k :: k in Keys(defaultConf) ==> k in settings
      ensures forall k :: k in old(settings) && (disk.None? || k !in disk.value) ==> k in settings && settings[k] == old(settings)[k]
      ensures disk.Some? ==> forall k :: k in disk.value ==> k in settings && settings[k] == disk.value[k]
    {
      if disk.Some? {
        hasSection := true;
        settings := settings + disk.value;
      } else {
        assert settings + map[] == settings;
      }
      ghost var read := settings;
      UpdateAnyMissingValues();
      forall k
        ensures k in Keys(defaultConf) ==> k in settings
        ensures k in read ==> k in settings && settings[k] == read[k]
      {
        FillMissingKeys(read, defaultConf, k);
      }
    }

    /** Writes the whole section unless the store is read-only. */
    method MaybeWriteConfig()
      modifies this
      ensures hasSection == old(hasSection) && settings == old(settings) && console == old(console)
      ensures written == old(written) + (if readOnly then [] else [settings])
    {
      if readOnly {
        return;
      }
      written := written + [settings];
    }

    /**
      Creates the section if needed, sets every missing key to its default,
      and writes the result back when any key was missing and the store is
      not read-only.
     */
    method UpdateAnyMissingValues()
      modifies this
      ensures hasSection
      ensures var (filled, missing) := FillMissing(old(settings), defaultConf);
              settings == filled
              && written == old(written) + (if missing != [] && !readOnly then [filled] else [])
              && console == old(console) + (if old(hasSection) then [] else [CreatingSection])
                            + MissingKeyNotices(missing, debug) + SaveNotices(missing, readOnly, debug)
    {
      ghost var created := if hasSection then [] else [CreatingSection];
      if !hasSection {
        console := console + [CreatingSection];
        hasSection := true;
      }
      assert console == old(console) + created;
      var missing := SetMissingToDefaults(defaultConf);
      ghost var filled := console;
      if missing != [] {
        if readOnly {
          console := console + [NotSaving];
        } else {
          if debug {
            console := console + [Rewriting(missing)];
          }
          MaybeWriteConfig();
        }
      }
      assert console == filled + SaveNotices(missing, readOnly, debug);
    }

    /**
      The loop of `_update_any_missing_values`: each key of `defaults` the
      section lacks is set to `str()` of its default and collected, with a
      line per key in debug mode.
     */
    method SetMissingToDefaults(defaults: seq<(string, PyValue)>) returns (missing: seq<string>)
      modifies this
      ensures settings == FillMissing(old(settings), defaults).0
      ensures missing == FillMissing(old(settings), defaults).1
      ensures console == old(console) + MissingKeyNotices(missing, debug)
      ensures hasSection == old(hasSection) && written == old(written)
    {
      missing := [];
      var i := 0;
      while i < |defaults|
        invariant 0 <= i <= |defaults|
        invariant hasSection == old(hasSection) && written == old(written)
        invariant FillMissing(settings, defaults[i..]).0 == FillMissing(old(settings), defaults).0
        invariant missing + FillMissing(settings, defaults[i..]).1 == FillMissing(old(settings), defaults).1
        invariant console == old(console) + MissingKeyNotices(missing, debug)
      {
        var key := defaults[i].0;
        FillMissingStep(settings, defaults, i);
        if key !in settings {
          MissingKeyNoticesSnoc(missing, key, debug);
          ghost var rest := FillMissing(settings[key := StrOf(defaults[i].1)], defaults[i + 1..]).1;
          assert missing + ([key] + rest) == (missing + [key]) + rest;
          missing := missing + [key];
          if debug {
            console := console + [SettingMissingKey(key)];
          }
          settings := settings[key := StrOf(defaults[i].1)];
        }
        i := i + 1;
      }
    }

    /** `_config.set(SETTINGS, key, text)`, which fails when the section is absent. */
    method Store(key: string, text: string) returns (r: Result<(), ConfigError>)
      modifies this
      ensures r.Ok? <==> old(hasSection)
      ensures r.Ok? ==> settings == old(settings)[key := text]
      ensures r.Err? ==> r.error == NoSection(SettingsSection) && settings == old(settings)
      ensures hasSection == old(hasSection) && written == old(written) && console == old(console)
    {
      if !hasSection {
        return Err(NoSection(SettingsSection));
      }
      settings := settings[key := text];
      r := Ok(());
    }

    function Backend(): Result<string, ConfigError>
      reads this
    {
      Get(hasSection, settings, BackendKey)
    }

    method SetBackend(value: string) returns (r: Result<(), ConfigError>)
      modifies this
      ensures r.Ok? <==> old(hasSection)
      ensures r.Ok? ==> settings == old(settings)[BackendKey := value] && Backend() == Ok(value)
      ensures r.Err? ==> settings == old(settings)
      ensures hasSection == old(hasSection) && written == old(written) && console == old(console)
    {
      r := Store(BackendKey, StrOf(Str(value)));
    }

    function Codec(): Result<string, ConfigError>
      reads this
    {
      Get(hasSection, settings, CodecKey)
    }

    method SetCodec(value: string) returns (r: Result<(), ConfigError>)
      modifies this
      ensures r.Ok? <==> old(hasSection)
      ensures r.Ok? ==> settings == old(settings)[CodecKey := value] && Codec() == Ok(value)
      ensures r.Err? ==> settings == old(settings)
      ensures hasSection == old(hasSection) && written == old(written) && console == old(console)
    {
      r := Store(CodecKey, StrOf(Str(value)));
    }

    function Bitrate(): Result<int, ConfigError>
      reads this
    {
      GetInt(hasSection, settings, BitrateKey)
    }

    method SetBitrate(value: int) returns (r: Result<(), ConfigError>)
      modifies this
      ensures r.Ok? <==> old(hasSection)
      ensures r.Ok? ==> settings == old(settings)[BitrateKey := IntToString(value)] && Bitrate() == Ok(value)
      ensures r.Err? ==> settings == old(settings)
      ensures hasSection == old(hasSection) && written == old(written) && console == old(console)
    {
      r := Store(BitrateKey, StrOf(Int(value)));
      IntSettingRoundTrip(old(settings), BitrateKey, value);
    }

    function Samplerate(): Result<int, ConfigError>
      reads this
    {
      GetInt(hasSection, settings, SamplerateKey)
    }

    method SetSamplerate(value: int) returns (r: Result<(), ConfigError>)
      modifies this
      ensures r.Ok? <==> old(hasSection)
      ensures r.Ok? ==> settings == old(settings)[SamplerateKey := IntToString(value)] && Samplerate() == Ok(value)
      ensures r.Err? ==> settings == old(settings)
      ensures hasSection == old(hasSection) && written == old(written) && console == old(console)
    {
      r := Store(SamplerateKey, StrOf(Int(value)));
      IntSettingRoundTrip(old(settings), SamplerateKey, value);
    }

    function Notifications(): Result<bool, ConfigError>
      reads this
    {
      GetBoolean(hasSection, settings, NotificationsKey)
    }

    method SetNotifications(value: bool) returns (r: Result<(), ConfigError>)
      modifies this
      ensures r.Ok? <==> old(hasSection)
      ensures r.Ok? ==> settings == old(settings)[NotificationsKey := StrOf(Bool(value))] && Notifications() == Ok(value)
      ensures r.Err? ==> settings == old(settings)
      ensures hasSection == old(hasSection) && written == old(written) && console == old(console)
    {
      r := Store(NotificationsKey, StrOf(Bool(value)));
      BoolSettingRoundTrip(old(settings), NotificationsKey, value);
    }

    function Colors(): Result<string, ConfigError>
      reads this
    {
      Get(hasSection, settings, ColorsKey)
    }

    method SetColors(value: string) returns (r: Result<(), ConfigError>)
      modifies this
      ensures r.Ok? <==> old(hasSection)
      ensures r.Ok? ==> settings == old(settings)[ColorsKey := value] && Colors() == Ok(value)
      ensures r.Err? ==> settings == old(settings)
      ensures hasSection == old(hasSection) && written == old(written) && console == old(console)
    {
      r := Store(ColorsKey, StrOf(Str(value)));
    }

    function SearchAtLaunch(): Result<bool, ConfigError>
      reads this
    {
      GetBoolean(hasSection, settings, SearchAtLaunchKey)
    }

    method SetSearchAtLaunch(value: bool) returns (r: Result<(), ConfigError>)
      modifies this
      ensures r.Ok? <==> old(hasSection)
      ensures r.Ok? ==> settings == old(settings)[SearchAtLaunchKey := StrOf(Bool(value))] && SearchAtLaunch() == Ok(value)
      ensures r.Err? ==> settings == old(settings)
      ensures hasSection == old(hasSection) && written == old(written) && console == old(console)
    {
      r := Store(SearchAtLaunchKey, StrOf(Bool(value)));
      BoolSettingRoundTrip(old(settings), SearchAtLaunchKey, value);
    }

    function AlsaDevice(): Result<Option<string>, ConfigError>
      reads this
    {
      match Get(hasSection, settings, AlsaDeviceKey)
      case Err(e) => Err(e)
      case Ok(text) => Ok(DecodeAlsaDevice(text))
    }

    method SetAlsaDevice(value: Option<string>) returns (r: Result<(), ConfigError>)
      modifies this
      ensures r.Ok? <==> old(hasSection)
      ensures r.Ok? ==> settings == old(settings)[AlsaDeviceKey := StrOf(AlsaDeviceValue(value))]
      ensures r.Ok? && value != Some("None") ==> AlsaDevice() == Ok(value)
      ensures r.Err? ==> settings == old(settings)
      ensures hasSection == old(hasSection) && written == old(written) && console == old(console)
    {
      r := Store(AlsaDeviceKey, StrOf(AlsaDeviceValue(value)));
      AlsaDeviceRoundTrip(value);
    }
  }
}
