/**
 * ConfigManager: config.yml as a flat map from dotted key to value, the
 * version-migration merge, and the getters with their defaults. The file on
 * disk is a field (`None` while config.yml does not exist); the defaults
 * packaged in the plugin JAR are a constant.
 */
module Config {
  import opened Wrappers

  /** A scalar configuration value, as YAML loads it. */
  datatype Value = Str(s: string) | Int(n: int) | Bool(b: bool)

  type Settings = map<string, Value>

  // ---------------------------------------------------------------------
  // Decimal text (an integer value read with getString)
  // ---------------------------------------------------------------------

  predicate IsDigit(c: char) {
    '0' <= c <= '9'
  }

  function Digits(n: nat): (r: string)
    ensures |r| > 0 && forall i :: 0 <= i < |r| ==> IsDigit(r[i])
    decreases n
  {
    var last := ['0' + (n % 10) as char];
    if n < 10 then last else Digits(n / 10) + last
  }

  /** Integer.toString. */
  function Decimal(n: int): string {
    if n < 0 then "-" + Digits(-n) else Digits(n)
  }

  function DigitsValue(s: string): nat
    requires forall i :: 0 <= i < |s| ==> IsDigit(s[i])
    decreases |s|
  {
    if s == [] then 0
    else
      assert IsDigit(s[|s| - 1]);
      DigitsValue(s[..|s| - 1]) * 10 + (s[|s| - 1] as int - '0' as int)
  }

  function ParseDecimal(s: string): int
    requires |s| > 0
    requires forall i :: (if s[0] == '-' then 1 else 0) <= i < |s| ==> IsDigit(s[i])
  {
    if s[0] == '-' then -(DigitsValue(s[1..]) as int) else DigitsValue(s)
  }

  /** Reading back the digits gives the number. */
  lemma {:induction false} DigitsRoundTrip(n: nat)
    ensures DigitsValue(Digits(n)) == n
    decreases n
  {
    if n >= 10 {
      DigitsRoundTrip(n / 10);
      var d := Digits(n);
      assert d[..|d| - 1] == Digits(n / 10);
    }
  }

  /** Decimal text is unambiguous: parsing it gives the number back. */
  lemma DecimalRoundTrip(n: int)
    ensures var s := Decimal(n);
      |s| > 0 && (forall i :: (if s[0] == '-' then 1 else 0) <= i < |s| ==> IsDigit(s[i])) && ParseDecimal(s) == n
  {
    var s := Decimal(n);
    if n < 0 {
      DigitsRoundTrip(-n);
      assert s[1..] == Digits(-n);
    } else {
      DigitsRoundTrip(n);
    }
  }

  // ---------------------------------------------------------------------
  // Getters
  // ---------------------------------------------------------------------

  /** Object.toString of a loaded value. */
  function ValueText(v: Value): string {
    match v
    case Str(s) => s
    case Int(n) => Decimal(n)
    case Bool(b) => if b then "true" else "false"
  }

  /** getString(path, def): the value's text, or the default when the key is absent. */
  function GetString(c: Settings, path: string, def: string): string {
    if path in c then ValueText(c[path]) else def
  }

  /** getInt(path, def): the number, or the default when the key is absent or not a number. */
  function GetInt(c: Settings, path: string, def: int): int {
    if path in c && c[path].Int? then c[path].n else def
  }

  const DefaultModel := "@cf/openai/gpt-oss-120b"

  function CfKey(c: Settings): string { GetString(c, "cloudflare.cf_key", "") }
  function Model(c: Settings): string { GetString(c, "cloudflare.model", DefaultModel) }
  function TimeoutMinutes(c: Settings): int { GetInt(c, "settings.timeout_minutes", 10) }
  function TokenWarningThreshold(c: Settings): int { GetInt(c, "settings.token_warning_threshold", 500) }

  /** Each getter falls back to its default exactly when its key is missing (or, for numbers, not a number). */
  lemma GetterDefaults(c: Settings)
    ensures "cloudflare.cf_key" !in c ==> CfKey(c) == ""
    ensures "cloudflare.model" !in c ==> Model(c) == DefaultModel
    ensures ("settings.timeout_minutes" !in c || !c["settings.timeout_minutes"].Int?) ==> TimeoutMinutes(c) == 10
    ensures ("settings.token_warning_threshold" !in c || !c["settings.token_warning_threshold"].Int?) ==> TokenWarningThreshold(c) == 500
    ensures "cloudflare.cf_key" in c && c["cloudflare.cf_key"].Str? ==> CfKey(c) == c["cloudflare.cf_key"].s
    ensures "settings.timeout_minutes" in c && c["settings.timeout_minutes"].Int? ==> TimeoutMinutes(c) == c["settings.timeout_minutes"].n
  {
  }

  /** A version written as a number reads as its decimal text, so "2" and 2 are the same version. */
  lemma NumericVersion(c: Settings, n: nat)
    requires "version" in c && c["version"] == Int(n)
    ensures GetString(c, "version", "") == Decimal(n)
  {
  }

  // ---------------------------------------------------------------------
  // Migration (checkAndUpdateConfig)
  // ---------------------------------------------------------------------

  /** Migration runs only when config.yml exists and its version differs from the plugin's. */
  predicate NeedsMigration(onDisk: Option<Settings>, pluginVersion: string) {
    onDisk.Some? && GetString(onDisk.value, "version", "") != pluginVersion
  }

  /** The values carried over: every key of the old file except version. */
  function Kept(current: Settings): Settings {
    map k | k in current && k != "version" :: current[k]
  }

  /** The new file: the default keys, each with the kept value when there is one. */
  function Merge(current: Settings, defaults: Settings): Settings {
    map k | k in defaults :: if k in Kept(current) then Kept(current)[k] else defaults[k]
  }

  /** config.yml after checkAndUpdateConfig; when saving fails the freshly released defaults stay. */
  function Migrated(onDisk: Option<Settings>, defaults: Settings, pluginVersion: string, saveFails: bool): Option<Settings> {
    if !NeedsMigration(onDisk, pluginVersion) then onDisk
    else Some(if saveFails then defaults else Merge(onDisk.value, defaults))
  }

  /**
   * The merge: the keys are exactly the new defaults' keys; an old value
   * overrides a key only when the defaults have it; keys new in the defaults
   * keep their default; the version always comes from the defaults.
   */
  lemma MergeRule(current: Settings, defaults: Settings)
    ensures Merge(current, defaults).Keys == defaults.Keys
    ensures forall k :: k in defaults && k in current && k != "version" ==> Merge(current, defaults)[k] == current[k]
    ensures forall k :: k in defaults && k !in current ==> Merge(current, defaults)[k] == defaults[k]
    ensures "version" in defaults ==> Merge(current, defaults)["version"] == defaults["version"]
  {
  }

  /** A migrated file has the plugin's version whenever the defaults carry it. */
  lemma MigrationSettlesVersion(onDisk: Option<Settings>, defaults: Settings, pluginVersion: string, saveFails: bool)
    requires GetString(defaults, "version", "") == pluginVersion
    ensures var m := Migrated(onDisk, defaults, pluginVersion, saveFails);
      && (m.Some? <==> onDisk.Some?)
      && (m.Some? ==> GetString(m.value, "version", "") == pluginVersion)
      && !NeedsMigration(m, pluginVersion)
  {
    if NeedsMigration(onDisk, pluginVersion) && "version" in defaults {
      MergeRule(onDisk.value, defaults);
    }
  }

  class ConfigManager {
    /** config.yml in the data folder. */
    var onDisk: Option<Settings>
    /** The configuration the getters read. */
    var config: Settings
    /** config.yml as packaged in the plugin JAR. */
    const defaults: Settings

    /** The constructor: checkAndUpdateConfig, then loadConfig. */
    constructor (onDisk: Option<Settings>, defaults: Settings, pluginVersion: string, saveFails: bool)
      ensures this.defaults == defaults
      ensures this.onDisk == Some(if Migrated(onDisk, defaults, pluginVersion, saveFails).Some?
                                  then Migrated(onDisk, defaults, pluginVersion, saveFails).value else defaults)
      ensures config == this.onDisk.value
    {
      this.onDisk := onDisk;
      this.config := map[];
      this.defaults := defaults;
      new;
      CheckAndUpdateConfig(pluginVersion, saveFails);
      LoadConfig();
    }

    /** loadConfig: saveDefaultConfig writes the defaults when the file is missing, then the file is read. */
    method LoadConfig()
      modifies this
      ensures onDisk == Some(if old(onDisk).Some? then old(onDisk).value else defaults)
      ensures config == onDisk.value
    {
      if onDisk.None? {
        onDisk := Some(defaults);
      }
      config := onDisk.value;
    }

    /** checkAndUpdateConfig; `saveFails` is newConfig.save throwing, which is logged. */
    method CheckAndUpdateConfig(pluginVersion: string, saveFails: bool)
      modifies this
      ensures onDisk == Migrated(old(onDisk), defaults, pluginVersion, saveFails)
      ensures config == old(config)
    {
      if onDisk.None? {
        return;
      }
      var current := onDisk.value;
      if GetString(current, "version", "") == pluginVersion {
        return;
      }
      var oldValues := CollectOld(current);
      // The old file is deleted and saveDefaultConfig releases the packaged one.
      onDisk := Some(defaults);
      var newConfig := Overlay(defaults, oldValues);
      if !saveFails {
        onDisk := Some(newConfig);
      }
    }

    /** Step 1: every key except version, with its value. */
    static method CollectOld(current: Settings) returns (oldValues: Settings)
      ensures oldValues == Kept(current)
    {
      oldValues := map[];
      var keys := current.Keys;
      while keys != {}
        invariant keys <= current.Keys
        invariant oldValues.Keys == (current.Keys - keys) - {"version"}
        invariant forall k :: k in oldValues ==> oldValues[k] == current[k]
        decreases |keys|
      {
        var key :| key in keys;
        if key != "version" {
          oldValues := oldValues[key := current[key]];
        }
        keys := keys - {key};
      }
    }

    /** Step 4: an old value is set only on keys the new file contains. */
    static method Overlay(newConfig: Settings, oldValues: Settings) returns (merged: Settings)
      ensures merged == map k | k in newConfig :: if k in oldValues then oldValues[k] else newConfig[k]
    {
      merged := newConfig;
      var pending := oldValues.Keys;
      while pending != {}
        invariant pending <= oldValues.Keys
        invariant merged.Keys == newConfig.Keys
        invariant forall k :: k in merged ==> merged[k] == if k in oldValues && k !in pending then oldValues[k] else newConfig[k]
        decreases |pending|
      {
        var key :| key in pending;
        if key in merged {
          merged := merged[key := oldValues[key]];
        }
        pending := pending - {key};
      }
    }
  }
}
