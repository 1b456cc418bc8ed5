/**
 * The configuration store: a JSON object with one section per concern,
 * merged recursively with user updates after each section has been
 * validated key by key.
 */
module Config {
  import opened Wrappers
  import opened Strings
  import opened Ints
  import opened Json

  // ---------------------------------------------------------------------
  // Recursive merge (`_merge_configs`).

  /**
   * `_merge_configs(default, user)`: every key of either map; where both
   * hold a dictionary the two are merged, otherwise the user value wins.
   */
  function Merge(d: Object, u: Object): (r: Object)
    ensures r.Keys == d.Keys + u.Keys
    ensures forall k | k in d && k !in u :: r[k] == d[k]
    ensures forall k | k in u && !(k in d && d[k].JObj? && u[k].JObj?) :: r[k] == u[k]
    decreases JObj(u)
  {
    map k | k in d.Keys + u.Keys ::
      if k in u then
        if k in d && d[k].JObj? && u[k].JObj? then JObj(Merge(d[k].fields, u[k].fields)) else u[k]
      else d[k]
  }

  /** Where both sides hold a dictionary the result holds their merge. */
  lemma MergeNested(d: Object, u: Object, k: string)
    requires k in d && k in u && d[k].JObj? && u[k].JObj?
    ensures Merge(d, u)[k] == JObj(Merge(d[k].fields, u[k].fields))
  {
  }

  /** Merging nothing in returns the defaults unchanged. */
  lemma MergeEmpty(d: Object)
    ensures Merge(d, map[]) == d
  {
  }

  /** Merging into nothing returns the user map. */
  lemma MergeIntoEmpty(u: Object)
    ensures Merge(map[], u) == u
  {
  }

  /** Merging a map with itself changes nothing. */
  lemma {:induction false} MergeSelf(x: Object)
    ensures Merge(x, x) == x
    decreases JObj(x)
  {
    forall k | k in x && x[k].JObj? ensures Merge(x[k].fields, x[k].fields) == x[k].fields {
      MergeSelf(x[k].fields);
    }
  }

  /** Applying the same update twice is the same as applying it once. */
  lemma {:induction false} MergeIdempotent(d: Object, u: Object)
    ensures Merge(Merge(d, u), u) == Merge(d, u)
    decreases JObj(u)
  {
    var m := Merge(d, u);
    forall k | k in u && m[k].JObj? && u[k].JObj?
      ensures Merge(m[k].fields, u[k].fields) == m[k].fields
    {
      if k in d && d[k].JObj? {
        MergeIdempotent(d[k].fields, u[k].fields);
      } else {
        MergeSelf(u[k].fields);
      }
    }
  }

  // ---------------------------------------------------------------------
  // Key-by-key validation (`_validate_*`). `None` means Python raised.

  datatype Section = PlotterSettings | PlotterInfo | ApiSettings | SafetySettings

  /** The update key that routes a section to its validator. */
  function SectionOf(key: string): Option<Section> {
    if key == "plotter_settings" then Some(PlotterSettings)
    else if key == "plotter_info" then Some(PlotterInfo)
    else if key == "api_settings" then Some(ApiSettings)
    else if key == "safety_settings" then Some(SafetySettings)
    else None
  }

  /** `max(lo, min(hi, int(value)))` */
  function ClampInt(lo: int, hi: int, value: Json): Option<Json> {
    match PyInt(value)
    case None => None
    case Some(v) => Some(JInt(Clamp(lo, hi, v)))
  }

  /** `max(lo, int(value))` */
  function AtLeast(lo: int, value: Json): Option<Json> {
    match PyInt(value)
    case None => None
    case Some(v) => Some(JInt(Max(lo, v)))
  }

  /** `str(value) if value is not None else None` */
  function PortValue(value: Json): Json {
    if value.JNull? then JNull else JStr(PyStr(value))
  }

  /** `1 if value else 0` */
  function Flag01(value: Json): Json {
    JInt(if Truthy(value) then 1 else 0)
  }

  /** `d.get(key, default)` on a value that must be a dictionary (anything else raises). */
  function GetIn(d: Json, key: string, default: Json): Option<Json> {
    if d.JObj? then Some(Get(d.fields, key, default)) else None
  }

  /** A limit read from the safety section: integers only (see README). */
  function Limit(v: Option<Json>): Option<int> {
    if v.Some? && v.value.JInt? then Some(v.value.i) else None
  }

  /** Fixed ranges of the plotter settings that do not depend on the safety section. */
  function FixedRange(key: string): Option<(int, int)> {
    if key == "pen_rate_lower" || key == "pen_rate_raise" || key == "accel" then Some((1, 100))
    else if key == "handling" then Some((1, 4))
    else if key == "model" then Some((1, 10))
    else if key == "penlift" then Some((1, 3))
    else if key == "reordering" then Some((0, 4))
    else None
  }

  predicate IsBoolSetting(key: string) {
    key in ["homing", "auto_rotate", "random_start", "hiding", "report_time"]
  }

  /** The limits for a speed or pen-height key, read from the safety section with their defaults. */
  function SafetyLimits(safety: Json, key: string): Option<(int, int)>
    requires key in ["speed_pendown", "speed_penup", "pen_pos_down", "pen_pos_up"]
  {
    if key == "speed_pendown" || key == "speed_penup" then
      var suffix := if key == "speed_pendown" then "pendown" else "penup";
      var limits := GetIn(safety, "speed_limits", JObj(map[]));
      if limits.None? then None
      else
        var lo := Limit(GetIn(limits.value, "min_" + suffix, JInt(1)));
        var hi := Limit(GetIn(limits.value, "max_" + suffix, JInt(100)));
        if lo.Some? && hi.Some? then Some((lo.value, hi.value)) else None
    else
      var limits := GetIn(safety, "pen_height_limits", JObj(map[]));
      if limits.None? then None
      else
        var lo := Limit(GetIn(limits.value, "min", JInt(0)));
        var hi := Limit(GetIn(limits.value, "max", JInt(100)));
        if lo.Some? && hi.Some? then Some((lo.value, hi.value)) else None
  }

  /** `_validate_plotter_settings` for one key; `safety` is the current safety section. */
  function PlotterSetting(safety: Json, key: string, value: Json): Option<Json> {
    if key in ["speed_pendown", "speed_penup", "pen_pos_down", "pen_pos_up"] then
      match SafetyLimits(safety, key)
      case None => None
      case Some((lo, hi)) => ClampInt(lo, hi, value)
    else if FixedRange(key).Some? then ClampInt(FixedRange(key).value.0, FixedRange(key).value.1, value)
    else if IsBoolSetting(key) then Some(JBool(Truthy(value)))
    else if key == "port" then Some(PortValue(value))
    else if key == "port_config" then Some(Flag01(value))
    else Some(value)
  }

  /** `_validate_plotter_info` for one key. */
  function InfoSetting(key: string, value: Json): Option<Json> {
    if key in ["nickname", "firmware_version", "software_version"] then Some(JStr(PyStr(value)))
    else if key == "model" then ClampInt(1, 10, value)
    else if key == "port" then Some(PortValue(value))
    else if key == "port_config" then Some(Flag01(value))
    else Some(value)
  }

  const LogLevels: seq<string> := ["DEBUG", "INFO", "WARNING", "ERROR", "CRITICAL"]

  /** `_validate_api_settings` for one key. */
  function ApiSetting(key: string, value: Json): Option<Json> {
    if key == "port" then ClampInt(1, 65535, value)
    else if key == "debug" || key == "cors_enabled" then Some(JBool(Truthy(value)))
    else if key == "max_job_queue" || key == "job_timeout" then AtLeast(1, value)
    else if key == "log_level" then Some(if value.JStr? && value.s in LogLevels then value else JStr("INFO"))
    else Some(value)
  }

  /** `_validate_safety_settings` for one key. */
  function SafetySetting(key: string, value: Json): Option<Json> {
    if key == "max_plot_time" then AtLeast(60, value)
    else if key == "emergency_stop_enabled" then Some(JBool(Truthy(value)))
    else if key == "pen_height_limits" || key == "speed_limits" then Some(if value.JObj? then value else JObj(map[]))
    else Some(value)
  }

  function ValidateKey(section: Section, safety: Json, key: string, value: Json): Option<Json> {
    match section
    case PlotterSettings => PlotterSetting(safety, key, value)
    case PlotterInfo => InfoSetting(key, value)
    case ApiSettings => ApiSetting(key, value)
    case SafetySettings => SafetySetting(key, value)
  }

  predicate AllValid(section: Section, safety: Json, m: Object) {
    forall k | k in m :: ValidateKey(section, safety, k, m[k]).Some?
  }

  /**
   * The dictionary a section validator returns, or `None` when the input
   * is not a dictionary or some key's conversion raises.
   */
  function SectionSpec(section: Section, safety: Json, settings: Json): (r: Option<Object>)
    ensures r.Some? <==> settings.JObj? && AllValid(section, safety, settings.fields)
    ensures r.Some? ==> r.value.Keys == settings.fields.Keys
    ensures r.Some? ==> forall k | k in r.value :: Some(r.value[k]) == ValidateKey(section, safety, k, settings.fields[k])
  {
    if settings.JObj? && AllValid(section, safety, settings.fields) then
      Some(map k | k in settings.fields :: ValidateKey(section, safety, k, settings.fields[k]).value)
    else None
  }

  /** One entry of `_validate_config_updates`: sections are validated, other keys pass through. */
  function UpdateEntry(safety: Json, key: string, value: Json): Option<Json> {
    match SectionOf(key)
    case None => Some(value)
    case Some(section) =>
      match SectionSpec(section, safety, value)
      case None => None
      case Some(m) => Some(JObj(m))
  }

  /** `_validate_config_updates(updates)` against the current configuration's safety section. */
  function UpdatesSpec(safety: Json, updates: Json): (r: Option<Object>)
    ensures r.Some? ==> updates.JObj? && r.value.Keys == updates.fields.Keys
    ensures r.Some? ==> forall k | k in r.value :: Some(r.value[k]) == UpdateEntry(safety, k, updates.fields[k])
    ensures r.None? ==> !updates.JObj? || exists k | k in updates.fields :: UpdateEntry(safety, k, updates.fields[k]).None?
  {
    if updates.JObj? && forall k | k in updates.fields :: UpdateEntry(safety, k, updates.fields[k]).Some? then
      Some(map k | k in updates.fields :: UpdateEntry(safety, k, updates.fields[k]).value)
    else None
  }

  // ---------------------------------------------------------------------
  // What the validators promise.

  /** Fixed-range integer settings land in their range; they raise exactly when `int(value)` does. */
  lemma FixedRangeHolds(safety: Json, key: string, value: Json)
    requires FixedRange(key).Some?
    ensures var (lo, hi) := FixedRange(key).value;
            var r := PlotterSetting(safety, key, value);
            && (r.None? <==> PyInt(value).None?)
            && (r.Some? ==> r.value.JInt? && lo <= r.value.i <= hi)
  {
  }

  /** Speeds are clamped to the safety speed limits, which default to 1..100. */
  lemma SpeedWithinLimits(safety: Object, key: string, value: Json)
    requires key == "speed_pendown" || key == "speed_penup"
    ensures var suffix := if key == "speed_pendown" then "pendown" else "penup";
            var r := PlotterSetting(JObj(safety), key, value);
            && ("speed_limits" !in safety && PyInt(value).Some? ==>
                  r.Some? && r.value.JInt? && 1 <= r.value.i <= 100)
            && ("speed_limits" in safety && safety["speed_limits"].JObj? && r.Some? ==>
                  var limits := safety["speed_limits"].fields;
                  var lo := Get(limits, "min_" + suffix, JInt(1));
                  var hi := Get(limits, "max_" + suffix, JInt(100));
                  lo.JInt? && hi.JInt? && (lo.i <= hi.i ==> lo.i <= r.value.i <= hi.i))
  {
    var lim := SafetyLimits(JObj(safety), key);
    assert PlotterSetting(JObj(safety), key, value) == if lim.None? then None else ClampInt(lim.value.0, lim.value.1, value);
    if lim.Some? {
      ClampIntRange(lim.value.0, lim.value.1, value);
    }
  }

  /** Pen positions are clamped to `pen_height_limits`, which default to 0..100. */
  lemma PenWithinLimits(safety: Object, key: string, value: Json)
    requires key == "pen_pos_down" || key == "pen_pos_up"
    ensures var r := PlotterSetting(JObj(safety), key, value);
            && ("pen_height_limits" !in safety && PyInt(value).Some? ==>
                  r.Some? && r.value.JInt? && 0 <= r.value.i <= 100)
            && ("pen_height_limits" in safety && safety["pen_height_limits"].JObj? && r.Some? ==>
                  var limits := safety["pen_height_limits"].fields;
                  var lo := Get(limits, "min", JInt(0));
                  var hi := Get(limits, "max", JInt(100));
                  lo.JInt? && hi.JInt? && (lo.i <= hi.i ==> lo.i <= r.value.i <= hi.i))
  {
    var lim := SafetyLimits(JObj(safety), key);
    assert PlotterSetting(JObj(safety), key, value) == if lim.None? then None else ClampInt(lim.value.0, lim.value.1, value);
    if lim.Some? {
      ClampIntRange(lim.value.0, lim.value.1, value);
    }
  }

  /** A clamped setting is an integer in the range, and exists exactly when `int(value)` does. */
  lemma ClampIntRange(lo: int, hi: int, value: Json)
    ensures ClampInt(lo, hi, value).Some? <==> PyInt(value).Some?
    ensures ClampInt(lo, hi, value).Some? ==> ClampInt(lo, hi, value).value.JInt?
    ensures lo <= hi && ClampInt(lo, hi, value).Some? ==> lo <= ClampInt(lo, hi, value).value.i <= hi
  {
  }

  /** Flags become booleans, `port_config` becomes 0 or 1, and keys nobody checks pass through unchanged. */
  lemma PlotterCoercions(safety: Json, key: string, value: Json)
    ensures IsBoolSetting(key) ==> PlotterSetting(safety, key, value) == Some(JBool(Truthy(value)))
    ensures key == "port_config" ==> PlotterSetting(safety, key, value) in {Some(JInt(0)), Some(JInt(1))}
    ensures key !in ["speed_pendown", "speed_penup", "pen_pos_down", "pen_pos_up", "port", "port_config"]
            && FixedRange(key).None? && !IsBoolSetting(key)
            ==> PlotterSetting(safety, key, value) == Some(value)
  {
    var clamped := ["speed_pendown", "speed_penup", "pen_pos_down", "pen_pos_up"];
    if IsBoolSetting(key) {
      assert key !in clamped && FixedRange(key).None?;
    } else if key == "port_config" {
      assert key !in clamped && FixedRange(key).None?;
      assert PlotterSetting(safety, key, value) == Some(Flag01(value));
    }
  }

  /** API settings: port within 1..65535, queue size and timeout at least 1, log level one of five names. */
  lemma ApiRanges(key: string, value: Json)
    ensures var r := ApiSetting(key, value);
            && (key == "port" && r.Some? ==> r.value.JInt? && 1 <= r.value.i <= 65535)
            && ((key == "max_job_queue" || key == "job_timeout") && r.Some? ==> r.value.JInt? && r.value.i >= 1)
            && (key == "log_level" ==> r.Some? && r.value.JStr? && r.value.s in LogLevels)
            && (key == "log_level" && value.JStr? && value.s in LogLevels ==> r == Some(value))
  {
  }

  /** Safety settings: at least a minute of plot time, and limit entries that are always dictionaries. */
  lemma SafetyRanges(key: string, value: Json)
    ensures var r := SafetySetting(key, value);
            && (key == "max_plot_time" && r.Some? ==> r.value.JInt? && r.value.i >= 60)
            && ((key == "pen_height_limits" || key == "speed_limits") ==> r.Some? && r.value.JObj?)
  {
  }

  // ---------------------------------------------------------------------
  // The validator loops.

  /** The loop shared by the four `_validate_*` methods: one entry of the fresh dictionary per key. */
  method ValidateSection(section: Section, safety: Json, settings: Json) returns (r: Option<Object>)
    ensures r == SectionSpec(section, safety, settings)
  {
    if !settings.JObj? {
      return None;
    }
    var m := settings.fields;
    var validated: Object := map[];
    var pending := m.Keys;
    while pending != {}
      invariant pending <= m.Keys
      invariant validated.Keys == m.Keys - pending
      invariant forall k | k in validated :: Some(validated[k]) == ValidateKey(section, safety, k, m[k])
      decreases pending
    {
      var k :| k in pending;
      var v := ValidateKey(section, safety, k, m[k]);
      if v.None? {
        return None;
      }
      validated := validated[k := v.value];
      pending := pending - {k};
    }
    assert AllValid(section, safety, m);
    assert validated == SectionSpec(section, safety, settings).value;
    return Some(validated);
  }

  /** `_validate_config_updates`: the section validators applied to their keys, other keys copied. */
  method ValidateUpdates(safety: Json, updates: Json) returns (r: Option<Object>)
    ensures r == UpdatesSpec(safety, updates)
  {
    if !updates.JObj? {
      return None;
    }
    var m := updates.fields;
    var validated: Object := map[];
    var pending := m.Keys;
    while pending != {}
      invariant pending <= m.Keys
      invariant validated.Keys == m.Keys - pending
      invariant forall k | k in validated :: Some(validated[k]) == UpdateEntry(safety, k, m[k])
      decreases pending
    {
      var k :| k in pending;
      var section := SectionOf(k);
      if section.Some? {
        var s := ValidateSection(section.value, safety, m[k]);
        if s.None? {
          return None;
        }
        validated := validated[k := JObj(s.value)];
      } else {
        validated := validated[k := m[k]];
      }
      pending := pending - {k};
    }
    assert forall k | k in m :: UpdateEntry(safety, k, m[k]).Some?;
    assert validated == UpdatesSpec(safety, updates).value;
    return Some(validated);
  }

  // ---------------------------------------------------------------------
  // The manager.

  /** How the configuration file looked at start-up. */
  datatype ConfigFile = Missing | Unreadable | Loaded(contents: Json)

  /** `datetime.now().isoformat()` rendered from an abstract clock reading. */
  function StampText(now: nat): Json {
    JStr(NatToString(now))
  }

  /** `save_config` writes the file after setting `last_updated`; only that key is modelled. */
  function Saved(config: Object, now: nat): (r: Object)
    ensures r.Keys == config.Keys + {"last_updated"}
    ensures forall k | k in config && k != "last_updated" :: r[k] == config[k]
  {
    config["last_updated" := StampText(now)]
  }

  /** `_get_default_config()` */
  function DefaultConfig(now: nat): Object {
    map[
      "plotter_info" := JObj(map[
        "model" := JInt(8), "nickname" := JStr(""), "firmware_version" := JStr(""),
        "software_version" := JStr(""), "port" := JNull, "port_config" := JInt(0)]),
      "plotter_settings" := JObj(map[
        "speed_pendown" := JInt(25), "speed_penup" := JInt(75), "accel" := JInt(75),
        "pen_pos_down" := JInt(40), "pen_pos_up" := JInt(60),
        "pen_rate_lower" := JInt(50), "pen_rate_raise" := JInt(50),
        "handling" := JInt(1), "homing" := JBool(true), "model" := JInt(8), "penlift" := JInt(1),
        "auto_rotate" := JBool(true), "reordering" := JInt(0), "random_start" := JBool(false),
        "hiding" := JBool(false), "report_time" := JBool(true)]),
      "api_settings" := JObj(map[
        "host" := JStr("0.0.0.0"), "port" := JInt(5000), "debug" := JBool(false),
        "cors_enabled" := JBool(true), "max_job_queue" := JInt(100), "job_timeout" := JInt(3600),
        "log_level" := JStr("INFO")]),
      "file_settings" := JObj(map[
        "upload_directory" := JStr("uploads"), "output_directory" := JStr("output"),
        "max_file_size" := JInt(10485760), "allowed_extensions" := JList([JStr(".svg")]),
        "auto_cleanup" := JBool(true), "cleanup_age_days" := JInt(7)]),
      "safety_settings" := JObj(map[
        "max_plot_time" := JInt(7200), "emergency_stop_enabled" := JBool(true),
        "pen_height_limits" := JObj(map["min" := JInt(0), "max" := JInt(100)]),
        "speed_limits" := JObj(map[
          "min_pendown" := JInt(1), "max_pendown" := JInt(100),
          "min_penup" := JInt(1), "max_penup" := JInt(100)])]),
      "notification_settings" := JObj(map[
        "webhook_enabled" := JBool(false), "webhook_url" := JStr(""), "email_enabled" := JBool(false),
        "email_settings" := JObj(map[
          "smtp_server" := JStr(""), "smtp_port" := JInt(587), "username" := JStr(""),
          "password" := JStr(""), "recipient" := JStr("")])]),
      "version" := JStr("1.0.0"),
      "last_updated" := StampText(now)]
  }

  /** `self.config.get('safety_settings', {})`, the limits the plotter settings are checked against. */
  function SafetyOf(config: Object): Json {
    Get(config, "safety_settings", JObj(map[]))
  }

  class ConfigManager {
    var config: Object
    const defaults: Object

    /**
     * `__init__` with `load_config`: a loaded dictionary is merged over the
     * defaults; a missing file gives the defaults and saves them; anything
     * unreadable, or a file that is not a dictionary, gives the defaults.
     */
    constructor(file: ConfigFile, now: nat)
      ensures defaults == DefaultConfig(now)
      ensures file.Missing? ==> config == Saved(defaults, now)
      ensures file.Loaded? && file.contents.JObj? ==> config == Merge(defaults, file.contents.fields)
      ensures file.Unreadable? || (file.Loaded? && !file.contents.JObj?) ==> config == defaults
    {
      defaults := DefaultConfig(now);
      match file
      case Missing => config := Saved(DefaultConfig(now), now);
      case Unreadable => config := DefaultConfig(now);
      case Loaded(contents) =>
        config := if contents.JObj? then Merge(DefaultConfig(now), contents.fields) else DefaultConfig(now);
    }

    /**
     * `update_config`: the updates are validated against the current
     * safety section and merged in; when validation raises nothing changes.
     */
    method UpdateConfig(updates: Json, save: bool, now: nat) returns (ok: bool)
      modifies this
      ensures ok <==> UpdatesSpec(SafetyOf(old(config)), updates).Some?
      ensures !ok ==> config == old(config)
      ensures ok ==>
                var merged := Merge(old(config), UpdatesSpec(SafetyOf(old(config)), updates).value);
                config == if save then Saved(merged, now) else merged
    {
      var validated := ValidateUpdates(SafetyOf(config), updates);
      if validated.None? {
        return false;
      }
      config := Merge(config, validated.value);
      if save {
        config := Saved(config, now);
      }
      return true;
    }

    /**
     * `update_plotter_settings`: validated entries overwrite those of the
     * `plotter_settings` section (created when absent); a section that is not a
     * dictionary, or a validation that raises, changes nothing.
     */
    method UpdatePlotterSettings(settings: Json, save: bool, now: nat) returns (ok: bool)
      modifies this
      ensures var v := SectionSpec(PlotterSettings, SafetyOf(old(config)), settings);
              var current := Get(old(config), "plotter_settings", JObj(map[]));
              ok <==> v.Some? && current.JObj?
      ensures !ok ==> config == old(config)
      ensures ok ==>
                var v := SectionSpec(PlotterSettings, SafetyOf(old(config)), settings).value;
                var section := JObj(Get(old(config), "plotter_settings", JObj(map[])).fields + v);
                config == if save then Saved(old(config)["plotter_settings" := section], now)
                          else old(config)["plotter_settings" := section]
    {
      var validated := ValidateSection(PlotterSettings, SafetyOf(config), settings);
      if validated.None? {
        return false;
      }
      var current := Get(config, "plotter_settings", JObj(map[]));
      if !current.JObj? {
        return false;
      }
      config := config["plotter_settings" := JObj(current.fields + validated.value)];
      if save {
        config := Saved(config, now);
      }
      return true;
    }

    /** `reset_to_defaults` */
    method ResetToDefaults(save: bool, now: nat)
      modifies this
      ensures config == if save then Saved(defaults, now) else defaults
    {
      config := defaults;
      if save {
        config := Saved(config, now);
      }
    }
  }

  /** A non-dictionary entry of a user section survives the merge as it is. */
  lemma MergeLeaf(d: Object, u: Object, k: string, key: string)
    requires k in u && u[k].JObj? && key in u[k].fields && !u[k].fields[key].JObj?
    ensures var r := Merge(d, u);
            k in r && r[k].JObj? && key in r[k].fields && r[k].fields[key] == u[k].fields[key]
  {
    if k in d && d[k].JObj? {
      MergeNested(d, u, k);
    }
  }

  /**
   * A validated plotter setting reaches the stored configuration: after a
   * successful update that sets `plotter_settings[key]` to a value the
   * validator turns into a non-dictionary, the section holds that value,
   * whatever the section held before.
   */
  lemma ValidatedSettingSticks(config: Object, updates: Object, key: string)
    requires "plotter_settings" in updates && updates["plotter_settings"].JObj?
    requires key in updates["plotter_settings"].fields
    requires UpdatesSpec(SafetyOf(config), JObj(updates)).Some?
    ensures var w := PlotterSetting(SafetyOf(config), key, updates["plotter_settings"].fields[key]);
            var merged := Merge(config, UpdatesSpec(SafetyOf(config), JObj(updates)).value);
            && w.Some?
            && (!w.value.JObj? ==>
                  "plotter_settings" in merged && merged["plotter_settings"].JObj?
                  && key in merged["plotter_settings"].fields
                  && merged["plotter_settings"].fields[key] == w.value)
  {
    var safety := SafetyOf(config);
    var v := UpdatesSpec(safety, JObj(updates)).value;
    var section := updates["plotter_settings"];
    assert Some(v["plotter_settings"]) == UpdateEntry(safety, "plotter_settings", section);
    var ps := SectionSpec(PlotterSettings, safety, section).value;
    assert v["plotter_settings"] == JObj(ps);
    assert Some(ps[key]) == ValidateKey(PlotterSettings, safety, key, section.fields[key]);
    if !ps[key].JObj? {
      MergeLeaf(config, v, "plotter_settings", key);
    }
  }
}
