/**
 * The settings dialog of ChartSettingsDialog.tsx: the current settings, the
 * named profiles and the active profile, the handlers that save, load and
 * delete profiles, the colour presets and the precision input, and the
 * mount effect that restores all of it from storage. The three storage
 * entries (`chartSettings`, `chartSettingsProfiles`, `activeChartProfile`)
 * are fields; `alert` and the CSS side effects are left out.
 */
module ChartSettings {
  import opened Wrappers
  import opened Strings
  import opened ChartMath

  datatype SettingVal = SStr(s: string) | SBool(b: bool) | SNum(n: real)

  /** A settings object: a value per setting name. */
  type Settings = map<string, SettingVal>

  /** `defaultSettings` (ChartSettingsDialog.tsx:35-58). */
  const DefaultSettings: Settings := map[
    "symbolColorBody" := SStr("#1e90ff"), "symbolColorWick" := SStr("#ffffff"),
    "showBody" := SBool(true), "precision" := SNum(2.0), "timezone" := SStr("UTC"),
    "statusLine" := SBool(true), "scalesAndLines" := SBool(true), "canvas" := SBool(true),
    "trading" := SBool(true), "alerts" := SBool(true), "events" := SBool(true),
    "bullishColor" := SStr("#22c55e"), "bearishColor" := SStr("#ef4444"),
    "chartBg" := SStr("#0f1724"), "uiAccent" := SStr("#5b21b6"), "iconColor" := SStr("#ffffff"),
    "bullishBody" := SStr("#22c55e"), "bearishBody" := SStr("#ef4444"),
    "bullishWick" := SStr("#16a34a"), "bearishWick" := SStr("#dc2626"),
    "showBullishBody" := SBool(true), "showBearishBody" := SBool(true)]

  /** A palette of the five theme colours. */
  function Palette(bull: string, bear: string, bg: string, accent: string, icon: string): Settings
  {
    map["bullishColor" := SStr(bull), "bearishColor" := SStr(bear), "chartBg" := SStr(bg),
        "uiAccent" := SStr(accent), "iconColor" := SStr(icon)]
  }

  /** The presets of ChartSettingsDialog.tsx:70-72. */
  const Dark: Settings := Palette("#22c55e", "#ef4444", "#0f1724", "#7c3aed", "#ffffff")
  const Light: Settings := Palette("#16a34a", "#dc2626", "#f8fafc", "#2563eb", "#0f1724")
  const Solarized: Settings := Palette("#2aa198", "#b58900", "#002b36", "#859900", "#fdf6e3")

  /** `{ ...s, ...values }` (ChartSettingsDialog.tsx:278): the preset's keys win, every other key is kept. */
  function WithPreset(s: Settings, values: Settings): (r: Settings)
    ensures r.Keys == s.Keys + values.Keys
    ensures forall k :: k in values ==> r[k] == values[k]
    ensures forall k :: k in s && k !in values ==> r[k] == s[k]
  {
    s + values
  }

  /** Applying the same preset twice is applying it once. */
  lemma PresetIdempotent(s: Settings, values: Settings)
    ensures WithPreset(WithPreset(s, values), values) == WithPreset(s, values)
  {
  }

  /** Every preset changes the five theme colours only. */
  lemma PresetsTouchThemeOnly(s: Settings)
    ensures forall k :: k in s && k !in Dark.Keys ==> WithPreset(s, Dark)[k] == s[k]
    ensures Dark.Keys == Light.Keys == Solarized.Keys
    ensures Dark.Keys == {"bullishColor", "bearishColor", "chartBg", "uiAccent", "iconColor"}
  {
  }

  /**
   * `Math.max(0, Math.min(8, Number(v) || 0))` (ChartSettingsDialog.tsx:306);
   * `None` is a `Number` that is `NaN`.
   */
  function Precision(v: Option<real>): (r: real)
    ensures 0.0 <= r <= 8.0
    ensures v.None? ==> r == 0.0
    ensures v.Some? && 0.0 <= v.value <= 8.0 ==> r == v.value
    ensures v.Some? && v.value > 8.0 ==> r == 8.0
    ensures v.Some? && v.value < 0.0 ==> r == 0.0
  {
    var n := if v.Some? && v.value != 0.0 then v.value else 0.0;
    MaxReal(0.0, MinReal(8.0, n))
  }

  /** Clamping an already clamped precision changes nothing. */
  lemma PrecisionIdempotent(v: Option<real>)
    ensures Precision(Some(Precision(v))) == Precision(v)
  {
  }

  /** `if (activeProfile)`, `if (active)`: a profile name counts only when it is non-empty. */
  predicate Named(n: Option<string>)
  {
    n.Some? && n.value != ""
  }

  /** The dialog's state and the three storage entries. */
  datatype DialogState = DialogState(
    settings: Settings, profiles: map<string, Settings>, active: Option<string>,
    newProfileName: string, showNewProfile: bool, open: bool,
    storedSettings: Option<Settings>, storedProfiles: Option<map<string, Settings>>, storedActive: Option<string>)

  /** A dialog that has just been created over the given storage (ChartSettingsDialog.tsx:61-67). */
  function Fresh(s: DialogState): (r: DialogState)
    ensures r.storedSettings == s.storedSettings && r.storedProfiles == s.storedProfiles && r.storedActive == s.storedActive
    ensures r.settings == DefaultSettings && r.profiles == map[] && r.active.None?
  {
    DialogState(DefaultSettings, map[], None, "", false, false, s.storedSettings, s.storedProfiles, s.storedActive)
  }

  /**
   * The mount effect (ChartSettingsDialog.tsx:75-94): stored profiles and a
   * stored active name are restored; the active profile's settings win over
   * the stored plain settings, which win over the current ones.
   */
  function MountStep(s: DialogState): (r: DialogState)
    ensures r.profiles == if s.storedProfiles.Some? then s.storedProfiles.value else s.profiles
    ensures r.active == if Named(s.storedActive) then s.storedActive else s.active
    ensures Named(s.storedActive) && s.storedProfiles.Some? && s.storedActive.value in s.storedProfiles.value ==>
              r.settings == s.storedProfiles.value[s.storedActive.value]
    ensures !(Named(s.storedActive) && s.storedProfiles.Some? && s.storedActive.value in s.storedProfiles.value) ==>
              r.settings == s.storedSettings.UnwrapOr(s.settings)
    ensures r.(settings := s.settings, profiles := s.profiles, active := s.active) == s
  {
    var profiles := if s.storedProfiles.Some? then s.storedProfiles.value else s.profiles;
    var active := if Named(s.storedActive) then s.storedActive else s.active;
    var p := s.storedProfiles.UnwrapOr(map[]);
    if Named(s.storedActive) && s.storedActive.value in p then
      s.(profiles := profiles, active := active, settings := p[s.storedActive.value])
    else
      s.(profiles := profiles, active := active, settings := s.storedSettings.UnwrapOr(s.settings))
  }

  /**
   * `handleSave` (ChartSettingsDialog.tsx:174-189): the settings are stored,
   * and with an active profile they are also written under its name and the
   * profiles and the active name are stored; the dialog closes.
   */
  function SaveStep(s: DialogState): (r: DialogState)
    ensures r.storedSettings == Some(s.settings) && !r.open && r.settings == s.settings && r.active == s.active
    ensures Named(s.active) ==>
              r.profiles == s.profiles[s.active.value := s.settings]
              && r.storedProfiles == Some(r.profiles) && r.storedActive == s.active
    ensures !Named(s.active) ==>
              r.profiles == s.profiles && r.storedProfiles == s.storedProfiles && r.storedActive == s.storedActive
  {
    var saved := s.(storedSettings := Some(s.settings), open := false);
    if Named(s.active) then
      var next := s.profiles[s.active.value := s.settings];
      saved.(profiles := next, storedProfiles := Some(next), storedActive := s.active)
    else saved
  }

  /**
   * `handleSaveAsProfile` (ChartSettingsDialog.tsx:193-206): a name that is
   * blank after trimming changes nothing; otherwise the settings are stored
   * under the trimmed name, replacing any profile of that name, and it
   * becomes the active profile.
   */
  function SaveAsStep(s: DialogState): (r: DialogState)
    ensures Trim(s.newProfileName) == "" ==> r == s
    ensures Trim(s.newProfileName) != "" ==>
              var name := Trim(s.newProfileName);
              r.profiles == s.profiles[name := s.settings] && r.active == Some(name)
              && r.storedProfiles == Some(r.profiles) && r.storedActive == Some(name)
              && r.settings == s.settings && r.newProfileName == "" && !r.showNewProfile
              && r.storedSettings == s.storedSettings && r.open == s.open
  {
    var name := Trim(s.newProfileName);
    if name == "" then s
    else
      var next := s.profiles[name := s.settings];
      s.(profiles := next, storedProfiles := Some(next), storedActive := Some(name), active := Some(name),
         showNewProfile := false, newProfileName := "")
  }

  /** `handleLoadProfile` (ChartSettingsDialog.tsx:208-215): an unknown name changes nothing. */
  function LoadStep(s: DialogState, name: string): (r: DialogState)
    ensures name !in s.profiles ==> r == s
    ensures name in s.profiles ==>
              r == s.(settings := s.profiles[name], active := Some(name), storedActive := Some(name))
  {
    if name !in s.profiles then s
    else s.(settings := s.profiles[name], active := Some(name), storedActive := Some(name))
  }

  /**
   * `handleDeleteProfile` (ChartSettingsDialog.tsx:217-232): an unknown
   * name changes nothing; otherwise only that profile goes, and the active
   * profile is cleared when it was the one deleted.
   */
  function DeleteStep(s: DialogState, name: string): (r: DialogState)
    ensures name !in s.profiles ==> r == s
    ensures name in s.profiles ==>
              r.profiles == s.profiles - {name} && r.storedProfiles == Some(r.profiles)
              && r.settings == s.settings
    ensures name in s.profiles && s.active == Some(name) ==> r.active.None? && r.storedActive.None?
    ensures name in s.profiles && s.active != Some(name) ==> r.active == s.active && r.storedActive == s.storedActive
  {
    if name !in s.profiles then s
    else
      var rest := s.profiles - {name};
      var r := s.(profiles := rest, storedProfiles := Some(rest));
      if s.active == Some(name) then r.(active := None, storedActive := None) else r
  }

  /** The Delete button: `activeProfile && handleDeleteProfile(activeProfile)` (ChartSettingsDialog.tsx:262). */
  function DeleteActiveStep(s: DialogState): (r: DialogState)
    ensures !Named(s.active) ==> r == s
    ensures Named(s.active) && s.active.value in s.profiles ==> r.active.None? && s.active.value !in r.profiles
  {
    if Named(s.active) then DeleteStep(s, s.active.value) else s
  }

  /** Saving under a name and loading that name brings the saved settings back. */
  lemma SaveAsThenLoad(s: DialogState, other: Settings)
    requires Trim(s.newProfileName) != ""
    ensures var name := Trim(s.newProfileName);
            LoadStep(SaveAsStep(s).(settings := other), name).settings == s.settings
            && LoadStep(SaveAsStep(s).(settings := other), name).active == Some(name)
  {
  }

  /** Deleting a newly saved profile restores the profiles that were there before. */
  lemma DeleteUndoesSaveAs(s: DialogState)
    requires Trim(s.newProfileName) != "" && Trim(s.newProfileName) !in s.profiles
    ensures DeleteStep(SaveAsStep(s), Trim(s.newProfileName)).profiles == s.profiles
    ensures DeleteStep(SaveAsStep(s), Trim(s.newProfileName)).active.None?
  {
    var name := Trim(s.newProfileName);
    assert s.profiles[name := s.settings] - {name} == s.profiles;
  }

  /** After a save with an active profile, a new dialog over the same storage shows the same settings and profiles. */
  lemma SaveSurvivesRemount(s: DialogState)
    requires Named(s.active)
    ensures var saved := SaveStep(s);
            var back := MountStep(Fresh(saved));
            back.settings == s.settings && back.profiles == saved.profiles && back.active == s.active
  {
  }

  /** After a save without an active profile, a new dialog over storage that names no profile shows the saved settings. */
  lemma PlainSaveSurvivesRemount(s: DialogState)
    requires !Named(s.active) && !Named(s.storedActive)
    ensures MountStep(Fresh(SaveStep(s))).settings == s.settings
  {
  }

  /** The dialog component bound to its storage. */
  class Dialog {
    var settings: Settings
    var profiles: map<string, Settings>
    var active: Option<string>
    var newProfileName: string
    var showNewProfile: bool
    var open: bool
    var storedSettings: Option<Settings>
    var storedProfiles: Option<map<string, Settings>>
    var storedActive: Option<string>

    function State(): DialogState
      reads this
    {
      DialogState(settings, profiles, active, newProfileName, showNewProfile, open,
                  storedSettings, storedProfiles, storedActive)
    }

    /** A new dialog over the given storage entries, before its mount effect runs. */
    constructor(storedSettings: Option<Settings>, storedProfiles: Option<map<string, Settings>>, storedActive: Option<string>)
      ensures State() == DialogState(DefaultSettings, map[], None, "", false, false, storedSettings, storedProfiles, storedActive)
    {
      settings, profiles, active := DefaultSettings, map[], None;
      newProfileName, showNewProfile, open := "", false, false;
      this.storedSettings, this.storedProfiles, this.storedActive := storedSettings, storedProfiles, storedActive;
    }

    method Mount()
      modifies this
      ensures State() == MountStep(old(State()))
    {
      if storedProfiles.Some? {
        profiles := storedProfiles.value;
      }
      if Named(storedActive) {
        active := storedActive;
        var p := storedProfiles.UnwrapOr(map[]);
        if storedActive.value in p {
          settings := p[storedActive.value];
          return;
        }
      }
      if storedSettings.Some? {
        settings := storedSettings.value;
      }
    }

    /** Returns the settings handed to `onSave`. */
    method Save() returns (saved: Settings)
      modifies this
      ensures saved == old(settings) && State() == SaveStep(old(State()))
    {
      storedSettings := Some(settings);
      if Named(active) {
        var next := profiles[active.value := settings];
        storedProfiles := Some(next);
        storedActive := active;
        profiles := next;
      }
      saved := settings;
      open := false;
    }

    method SaveAsProfile()
      modifies this
      ensures State() == SaveAsStep(old(State()))
    {
      var name := Trim(newProfileName);
      if name == "" {
        return;
      }
      var next := profiles[name := settings];
      storedProfiles := Some(next);
      storedActive := Some(name);
      profiles := next;
      active := Some(name);
      showNewProfile := false;
      newProfileName := "";
    }

    method LoadProfile(name: string)
      modifies this
      ensures State() == LoadStep(old(State()), name)
    {
      if name !in profiles {
        return;
      }
      settings := profiles[name];
      active := Some(name);
      storedActive := Some(name);
    }

    method DeleteProfile(name: string)
      modifies this
      ensures State() == DeleteStep(old(State()), name)
    {
      if name !in profiles {
        return;
      }
      var rest := profiles - {name};
      storedProfiles := Some(rest);
      if active == Some(name) {
        storedActive := None;
        active := None;
      }
      profiles := rest;
    }

    method ApplyPreset(values: Settings)
      modifies this
      ensures State() == old(State()).(settings := WithPreset(old(settings), values))
    {
      settings := WithPreset(settings, values);
    }

    method SetPrecision(v: Option<real>)
      modifies this
      ensures State() == old(State()).(settings := old(settings)["precision" := SNum(Precision(v))])
    {
      settings := settings["precision" := SNum(Precision(v))];
    }
  }
}
