/**
 * The settings screen: the settings record, how a stored copy is vetted
 * and normalised on load, the handlers that change one field each, and the
 * save that updates the screen only when the storage write went through.
 */
module Preferences {
  import opened Wrappers
  import opened Config
  import opened Storage
  import opened JsText

  datatype Settings = Settings(
    soundEnabled: bool,
    vibrationEnabled: bool,
    difficulty: Difficulty,
    viewMode: ViewMode)

  /** The screen's initial state: sound and vibration on, medium keeper, day stadium. */
  const Defaults := Settings(true, true, Medium, Day)

  /**
   * The text checks made before the stored string is handed to the parser:
   * non-blank, and once trimmed braced, longer than `{}` and holding a quote.
   */
  function PassesPreCheck(raw: string): (b: bool)
    ensures b ==> !AllWhiteSpace(raw) && 3 <= |Trim(raw)| <= |raw|
  {
    var t := Trim(raw);
    t != "" && |t| > 2 && t[0] == '{' && t[|t| - 1] == '}' && ('"' in t || '\'' in t)
  }

  /** `value ?? true`; a present non-boolean counts by its truthiness. */
  function OrTrue(v: Value): (b: bool)
    ensures (v.Missing? || v.Null?) ==> b
    ensures v.Bool? ==> b == v.b
  {
    match v
    case Missing => true
    case Null => true
    case Bool(b) => b
    case _ => Truthy(v)
  }

  /** The stored difficulty if it is one of the three names, else medium. */
  function DifficultyOr(v: Value): (d: Difficulty)
    ensures v.Text? && ParseDifficulty(v.t).Some? ==> d == ParseDifficulty(v.t).value
    ensures !(v.Text? && v.t in ["easy", "medium", "hard"]) ==> d == Medium
  {
    if v.Text? && ParseDifficulty(v.t).Some? then ParseDifficulty(v.t).value else Medium
  }

  /** The stored view mode if it is one of the three names, else day. */
  function ViewModeOr(v: Value): (m: ViewMode)
    ensures v.Text? && ParseViewMode(v.t).Some? ==> m == ParseViewMode(v.t).value
    ensures !(v.Text? && v.t in ["day", "night", "rain"]) ==> m == Day
  {
    if v.Text? && ParseViewMode(v.t).Some? then ParseViewMode(v.t).value else Day
  }

  /** The record built from a parsed object, field by field. */
  function Normalise(f: StoredFields): (s: Settings)
    ensures s.soundEnabled == OrTrue(f.soundEnabled)
    ensures s.vibrationEnabled == OrTrue(f.vibrationEnabled)
    ensures s.difficulty == DifficultyOr(f.difficulty)
    ensures s.viewMode == ViewModeOr(f.viewMode)
  {
    Settings(OrTrue(f.soundEnabled), OrTrue(f.vibrationEnabled), DifficultyOr(f.difficulty), ViewModeOr(f.viewMode))
  }

  /** An object with none of the four properties normalises to the defaults. */
  lemma EmptyObjectGivesDefaults()
    ensures Normalise(StoredFields(Missing, Missing, Missing, Missing)) == Defaults
  {
  }

  /** `JSON.stringify(settings)`, properties in declaration order. */
  function Stringify(s: Settings): (r: string)
    ensures |r| == |Members(s)| + 2 && r[0] == '{' && r[|r| - 1] == '}'
    ensures r[1] == '"'
  {
    "{" + Members(s) + "}"
  }

  /** The four members of the object literal, in declaration order. */
  function Members(s: Settings): (m: string)
    ensures m != [] && m[0] == '"' && m[|m| - 1] == '"'
  {
    "\"soundEnabled\":" + BoolToString(s.soundEnabled)
    + ",\"vibrationEnabled\":" + BoolToString(s.vibrationEnabled)
    + ",\"difficulty\":\"" + DifficultyName(s.difficulty)
    + "\",\"viewMode\":\"" + ViewModeName(s.viewMode) + "\""
  }

  /** The object `JSON.parse` yields for `Stringify(s)`. */
  function Fields(s: Settings): StoredFields
  {
    StoredFields(Bool(s.soundEnabled), Bool(s.vibrationEnabled), Text(DifficultyName(s.difficulty)), Text(ViewModeName(s.viewMode)))
  }

  /** What a saved copy looks like survives the text checks unchanged by trimming. */
  lemma {:induction false} StringifiedPassesPreCheck(s: Settings)
    ensures Trim(Stringify(s)) == Stringify(s)
    ensures PassesPreCheck(Stringify(s))
  {
    var t := Stringify(s);
    TrimOfUnpadded(t);
    assert t[1] in t;
  }

  /** Normalising the parsed copy of a saved record gives the record back. */
  lemma NormaliseRoundTrip(s: Settings)
    ensures Normalise(Fields(s)) == s
  {
    DifficultyNameRoundTrip(s.difficulty);
    ViewModeNameRoundTrip(s.viewMode);
  }

  /** The new screen state and the new stored entry after `loadSettings`. */
  datatype LoadResult = LoadResult(settings: Settings, item: Option<string>)

  /**
   * `loadSettings`: `readOk` is false when `getItem` threw; `parsed` is what
   * `JSON.parse` returned for the trimmed text. Rejected text is removed
   * from storage; absent or blank text is left alone.
   */
  function LoadStep(item: Option<string>, readOk: bool, parsed: ParseOutcome, current: Settings): (r: LoadResult)
    ensures r.settings == current || (parsed.Object? && r.settings == Normalise(parsed.fields))
    ensures r.item == item || r.item == None
    ensures r.settings != current ==> r.item == item
  {
    if !readOk then LoadResult(current, None)
    else if item.None? || Trim(item.value) == "" then LoadResult(current, item)
    else if !PassesPreCheck(item.value) then LoadResult(current, None)
    else if !parsed.Object? then LoadResult(current, None)
    else LoadResult(Normalise(parsed.fields), item)
  }

  /** The screen takes the stored copy exactly when it passes the checks and parses to an object. */
  lemma LoadAdoptsExactlyValidObjects(item: Option<string>, readOk: bool, parsed: ParseOutcome, current: Settings)
    ensures var r := LoadStep(item, readOk, parsed, current);
            if readOk && item.Some? && PassesPreCheck(item.value) && parsed.Object?
            then r.settings == Normalise(parsed.fields) && r.item == item
            else r.settings == current
  {
  }

  /** The stored entry is removed exactly when reading failed or non-blank text was rejected. */
  lemma LoadRemovesExactlyRejected(item: Option<string>, readOk: bool, parsed: ParseOutcome, current: Settings)
    requires item.Some?
    ensures LoadStep(item, readOk, parsed, current).item == None <==>
              !readOk || (!AllWhiteSpace(item.value) && !(PassesPreCheck(item.value) && parsed.Object?))
  {
  }

  /** Reading back what a save wrote restores the saved record and keeps the entry. */
  lemma SaveThenLoad(s: Settings, current: Settings)
    ensures LoadStep(Some(Stringify(s)), true, Object(Fields(s)), current) == LoadResult(s, Some(Stringify(s)))
  {
    StringifiedPassesPreCheck(s);
    NormaliseRoundTrip(s);
  }

  /** `{ ...settings, soundEnabled: !settings.soundEnabled }` */
  function ToggleSound(s: Settings): (r: Settings)
    ensures r.soundEnabled == !s.soundEnabled
    ensures r.vibrationEnabled == s.vibrationEnabled && r.difficulty == s.difficulty && r.viewMode == s.viewMode
  {
    s.(soundEnabled := !s.soundEnabled)
  }

  /** `{ ...settings, vibrationEnabled: !settings.vibrationEnabled }` */
  function ToggleVibration(s: Settings): (r: Settings)
    ensures r.vibrationEnabled == !s.vibrationEnabled
    ensures r.soundEnabled == s.soundEnabled && r.difficulty == s.difficulty && r.viewMode == s.viewMode
  {
    s.(vibrationEnabled := !s.vibrationEnabled)
  }

  /** `{ ...settings, difficulty }` */
  function WithDifficulty(s: Settings, d: Difficulty): (r: Settings)
    ensures r.difficulty == d
    ensures r.soundEnabled == s.soundEnabled && r.vibrationEnabled == s.vibrationEnabled && r.viewMode == s.viewMode
  {
    s.(difficulty := d)
  }

  /** `{ ...settings, viewMode }` */
  function WithViewMode(s: Settings, v: ViewMode): (r: Settings)
    ensures r.viewMode == v
    ensures r.soundEnabled == s.soundEnabled && r.vibrationEnabled == s.vibrationEnabled && r.difficulty == s.difficulty
  {
    s.(viewMode := v)
  }

  /** Toggling a switch twice restores the record. */
  lemma ToggleTwice(s: Settings)
    ensures ToggleSound(ToggleSound(s)) == s
    ensures ToggleVibration(ToggleVibration(s)) == s
  {
  }

  /** The settings screen's state: its record and the shared storage entry it reads and writes. */
  class SettingsScreen {
    var settings: Settings
    const store: Store

    constructor (store: Store)
      ensures settings == Settings(true, true, Medium, Day)
      ensures this.store == store
    {
      settings := Defaults;
      this.store := store;
    }

    /** `loadSettings` (the removal of a rejected entry is taken to succeed). */
    method LoadSettings(readOk: bool, parsed: ParseOutcome)
      modifies this, store
      ensures LoadResult(settings, store.item) == LoadStep(old(store.item), readOk, parsed, old(settings))
    {
      if !readOk {
        store.item := None;
        return;
      }
      var saved := store.item;
      if saved.Some? && Trim(saved.value) != "" {
        var trimmed := Trim(saved.value);
        if trimmed[0] == '{' && trimmed[|trimmed| - 1] == '}' && |trimmed| > 2 {
          if '"' in trimmed || '\'' in trimmed {
            if parsed.Object? {
              settings := Normalise(parsed.fields);
            } else {
              store.item := None;
            }
          } else {
            store.item := None;
          }
        } else {
          store.item := None;
        }
      }
    }

    /** `saveSettings`: the screen takes the new record only once the write has succeeded. */
    method SaveSettings(newSettings: Settings, writeOk: bool)
      modifies this, store
      ensures writeOk ==> settings == newSettings && store.item == Some(Stringify(newSettings))
      ensures !writeOk ==> settings == old(settings) && store.item == old(store.item)
    {
      if writeOk {
        store.item := Some(Stringify(newSettings));
        settings := newSettings;
      }
    }

    method HandleSoundToggle(writeOk: bool)
      modifies this, store
      ensures settings == (if writeOk then ToggleSound(old(settings)) else old(settings))
      ensures store.item == (if writeOk then Some(Stringify(ToggleSound(old(settings)))) else old(store.item))
    {
      SaveSettings(ToggleSound(settings), writeOk);
    }

    method HandleVibrationToggle(writeOk: bool)
      modifies this, store
      ensures settings == (if writeOk then ToggleVibration(old(settings)) else old(settings))
      ensures store.item == (if writeOk then Some(Stringify(ToggleVibration(old(settings)))) else old(store.item))
    {
      SaveSettings(ToggleVibration(settings), writeOk);
    }

    method HandleDifficultyChange(difficulty: Difficulty, writeOk: bool)
      modifies this, store
      ensures settings == (if writeOk then WithDifficulty(old(settings), difficulty) else old(settings))
      ensures store.item == (if writeOk then Some(Stringify(WithDifficulty(old(settings), difficulty))) else old(store.item))
    {
      SaveSettings(WithDifficulty(settings, difficulty), writeOk);
    }

    method HandleViewModeChange(viewMode: ViewMode, writeOk: bool)
      modifies this, store
      ensures settings == (if writeOk then WithViewMode(old(settings), viewMode) else old(settings))
      ensures store.item == (if writeOk then Some(Stringify(WithViewMode(old(settings), viewMode))) else old(store.item))
    {
      SaveSettings(WithViewMode(settings, viewMode), writeOk);
    }
  }
}
