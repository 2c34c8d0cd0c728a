/**
 * The plugin object's own rules (`Main`): per-world validation with reset-to-default, the
 * first-install welcome counter, the language and style settings, MiniMessage sanitising,
 * the pick of the newest release from the version list, and the update-available flag.
 */
module Plugin {
  import opened Wrappers
  import opened Text
  import opened Config
  import SmallCaps

  const CURRENT_VERSION: string := "1.4"
  const FIRST_INSTALL_SHOWS: int := 5
  const FIRST_INSTALL_KEY: string := "first_install_completed"
  const FIRST_INSTALL_MENU: string := "first_install"

  // ---------------------------------------------------------------------------------------
  // validateWorldConfiguration

  const VALID_MODES: seq<string> := ["double_jump", "auto", "sneak_jump", "f_key"]
  const DEFAULT_SOUND: string := "ENTITY_BAT_TAKEOFF"
  const DEFAULT_LAUNCH_STRENGTH: Decimal := Decimal(1.5, "1.5")

  /** The six checks, each on the value the section holds (or its default when absent). */
  predicate RadiusInvalid(d: Document) {
    GetInt(d, "radius", 100) <= 0
  }

  predicate StrengthInvalid(d: Document) {
    GetInt(d, "boost.strength", 2) <= 0
  }

  predicate ModeInvalid(d: Document) {
    GetString(d, "activation_mode", "double_jump") !in VALID_MODES
  }

  predicate DirectionInvalid(d: Document) {
    var direction := GetString(d, "boost.direction", "forward");
    direction != "forward" && direction != "upward"
  }

  /** `Sound.valueOf(name.toUpperCase())` fails; `isSound` stands for Bukkit's sound enum. */
  predicate SoundInvalid(d: Document, isSound: string -> bool) {
    !isSound(Upper(GetString(d, "boost.sound", DEFAULT_SOUND)))
  }

  predicate LaunchInvalid(d: Document) {
    GetDouble(d, "f_key.launch_strength", DEFAULT_LAUNCH_STRENGTH).value <= 0.0
  }

  predicate SomeInvalid(d: Document, isSound: string -> bool) {
    RadiusInvalid(d) || StrengthInvalid(d) || ModeInvalid(d) || DirectionInvalid(d)
    || SoundInvalid(d, isSound) || LaunchInvalid(d)
  }

  /** The value at `path` is the same in both documents, absence included. */
  predicate Kept(before: Document, after: Document, path: string) {
    (path in after <==> path in before) && (path in before ==> after[path] == before[path])
  }

  /** `path` holds `v` when `reset`, and is kept otherwise. */
  predicate ResetOrKept(before: Document, after: Document, reset: bool, path: string, v: Value) {
    if reset then path in after && after[path] == v else Kept(before, after, path)
  }

  const CHECKED_PATHS: set<string> :=
    {"radius", "boost.strength", "activation_mode", "boost.direction", "boost.sound", "f_key.launch_strength"}

  function ResetIf(d: Document, reset: bool, path: string, v: Value): Document {
    if reset then d[path := v] else d
  }

  /** The section after validation, step by step as `validateWorldConfiguration` resets it. */
  function Repaired(d: Document, isSound: string -> bool): (r: Document)
    ensures d.Keys <= r.Keys <= d.Keys + CHECKED_PATHS
  {
    var d1 := ResetIf(d, RadiusInvalid(d), "radius", Int(100));
    var d2 := ResetIf(d1, StrengthInvalid(d), "boost.strength", Int(2));
    var d3 := ResetIf(d2, ModeInvalid(d), "activation_mode", Str("double_jump"));
    var d4 := ResetIf(d3, DirectionInvalid(d), "boost.direction", Str("forward"));
    var d5 := ResetIf(d4, SoundInvalid(d, isSound), "boost.sound", Str(DEFAULT_SOUND));
    ResetIf(d5, LaunchInvalid(d), "f_key.launch_strength", Dbl(DEFAULT_LAUNCH_STRENGTH))
  }

  /** Every field that fails its check holds its default afterwards; every field that passes is
    * as it was. */
  lemma RepairedFields(d: Document, isSound: string -> bool)
    ensures ResetOrKept(d, Repaired(d, isSound), RadiusInvalid(d), "radius", Int(100))
    ensures ResetOrKept(d, Repaired(d, isSound), StrengthInvalid(d), "boost.strength", Int(2))
    ensures ResetOrKept(d, Repaired(d, isSound), ModeInvalid(d), "activation_mode", Str("double_jump"))
  {
  }

  lemma MoreRepairedFields(d: Document, isSound: string -> bool)
    ensures ResetOrKept(d, Repaired(d, isSound), DirectionInvalid(d), "boost.direction", Str("forward"))
    ensures ResetOrKept(d, Repaired(d, isSound), SoundInvalid(d, isSound), "boost.sound", Str(DEFAULT_SOUND))
    ensures ResetOrKept(d, Repaired(d, isSound), LaunchInvalid(d), "f_key.launch_strength", Dbl(DEFAULT_LAUNCH_STRENGTH))
  {
  }

  /** A radius stored as 2^32 reads through `getInt` as 0, fails the check and is reset. */
  lemma OverflowingRadiusReset(d: Document, isSound: string -> bool)
    requires "radius" in d && d["radius"] == Int(0x1_0000_0000)
    ensures GetInt(d, "radius", 100) == 0 && RadiusInvalid(d)
    ensures Repaired(d, isSound)["radius"] == Int(100)
  {
    RepairedFields(d, isSound);
  }

  /** Paths other than the six checked ones are never touched. */
  lemma RepairedElsewhere(d: Document, isSound: string -> bool, k: string)
    requires k !in CHECKED_PATHS
    ensures Kept(d, Repaired(d, isSound), k)
  {
  }

  lemma DefaultSoundUpper()
    ensures Upper(DEFAULT_SOUND) == DEFAULT_SOUND
  {
    LowerFreeUpper(DEFAULT_SOUND);
  }

  lemma LowerFreeUpper(s: string)
    requires forall i :: 0 <= i < |s| ==> !IsLower(s[i])
    ensures Upper(s) == s
  {
  }

  /** After validation every check passes, provided Bukkit knows the default sound. */
  lemma RepairedPassesChecks(d: Document, isSound: string -> bool)
    requires isSound(DEFAULT_SOUND)
    ensures !SomeInvalid(Repaired(d, isSound), isSound)
  {
    var r := Repaired(d, isSound);
    RepairedFields(d, isSound);
    MoreRepairedFields(d, isSound);
    if SoundInvalid(d, isSound) {
      DefaultSoundUpper();
    }
    assert !RadiusInvalid(r);
    assert !StrengthInvalid(r);
    assert !ModeInvalid(r);
    assert !DirectionInvalid(r);
    assert !LaunchInvalid(r);
  }

  /** A section that passes every check is left exactly as it was. */
  lemma ValidSectionUntouched(d: Document, isSound: string -> bool)
    requires !SomeInvalid(d, isSound)
    ensures Repaired(d, isSound) == d
  {
  }

  /** Validating twice changes nothing the first run did not. */
  lemma RepairIdempotent(d: Document, isSound: string -> bool)
    requires isSound(DEFAULT_SOUND)
    ensures Repaired(Repaired(d, isSound), isSound) == Repaired(d, isSound)
  {
    RepairedPassesChecks(d, isSound);
    ValidSectionUntouched(Repaired(d, isSound), isSound);
  }

  /** A world's configuration section; `onDisk` is what the last `saveConfig` wrote for it. */
  class WorldSection {
    var values: Document
    var onDisk: Document

    constructor(values: Document)
      ensures this.values == values && onDisk == values
    {
      this.values := values;
      onDisk := values;
    }

    /** `worldConfig.set(path, v)`. */
    method Set(path: string, v: Value)
      modifies this`values
      ensures values == old(values)[path := v]
    {
      values := values[path := v];
    }

    /** One check's outcome: the default is written when the field is `invalid`, and `valid`
      * drops to false with it. */
    method ResetIfInvalid(invalid: bool, path: string, v: Value, valid: bool) returns (stillValid: bool)
      modifies this`values
      ensures values == ResetIf(old(values), invalid, path, v)
      ensures stillValid == (valid && !invalid)
    {
      stillValid := valid;
      if invalid {
        Set(path, v);
        stillValid := false;
      }
    }

    /** Bukkit's `saveConfig` as seen from this section. */
    method Save()
      modifies this`onDisk
      ensures onDisk == values
    {
      onDisk := values;
    }
  }

  // ---------------------------------------------------------------------------------------
  // Setting normalisation, sanitising and display names

  /** `applyStyleSetting`'s normalisation. */
  function NormalizedStyle(style: string): (r: string)
    ensures r == "small_caps" || r == "classic"
    ensures r == "small_caps" <==> EqualsIgnoreCase(style, "small_caps")
  {
    if EqualsIgnoreCase(style, "small_caps") then "small_caps" else "classic"
  }

  /** A stored style is its own normal form. */
  lemma NormalizedStyleIdempotent(style: string)
    ensures NormalizedStyle(NormalizedStyle(style)) == NormalizedStyle(style)
  {
    assert Lower("small_caps") == "small_caps";
    assert Lower("classic")[0] == 'c';
  }

  function SanitizeChar(c: char): char {
    if c == '<' then '[' else if c == '>' then ']' else c
  }

  /** `sanitizeMiniMessageValue`: null is empty, `<` becomes `[` and `>` becomes `]`. */
  function SanitizeMiniMessageValue(value: Option<string>): (r: string)
    ensures value.None? ==> r == ""
    ensures value.Some? ==> |r| == |value.value|
    ensures SmallCaps.NoBrackets(r)
    ensures value.Some? ==> forall i :: 0 <= i < |r| && value.value[i] != '<' && value.value[i] != '>'
                                        ==> r[i] == value.value[i]
  {
    match value
    case None => ""
    case Some(v) => seq(|v|, i requires 0 <= i < |v| => SanitizeChar(v[i]))
  }

  /** Text without angle brackets comes through unchanged, so sanitising twice is sanitising once. */
  lemma SanitizeKeepsPlainText(v: string)
    requires SmallCaps.NoBrackets(v)
    ensures SanitizeMiniMessageValue(Some(v)) == v
  {
  }

  lemma SanitizeIdempotent(value: Option<string>)
    ensures SanitizeMiniMessageValue(Some(SanitizeMiniMessageValue(value))) == SanitizeMiniMessageValue(value)
  {
    SanitizeKeepsPlainText(SanitizeMiniMessageValue(value));
  }

  /** A sanitised value cannot open a tag: the small-caps scanner maps every character of it. */
  lemma SanitizedIsPlainText(t: SmallCaps.Table, value: Option<string>)
    ensures SmallCaps.Scan(t, SmallCaps.OUTSIDE, SanitizeMiniMessageValue(value))
         == SmallCaps.TransliterateAll(t, SanitizeMiniMessageValue(value))
  {
    SmallCaps.PlainTextTransliterated(t, SanitizeMiniMessageValue(value));
  }

  const CLASSIC_NAMES: map<string, string> :=
    map["de" := "Klassisch", "es" := "Cl\U{00E1}sico", "fr" := "Classique", "pl" := "Klasyczny"]

  /** The small-caps style's name, the same in every language. */
  const SMALL_CAPS_NAME: string := "\U{A731}\U{1D0D}\U{1D00}\U{029F}\U{029F} \U{1D04}\U{1D00}\U{1D18}\U{A731}"

  /** `localizedStyleName`: the style's display name in the given language; an unknown style, and
    * null, come back as given. */
  function LocalizedStyleName(style: Option<string>, language: Option<string>): (r: Option<string>)
    ensures style.None? ==> r.None?
    ensures style.Some? && Lower(style.value) == "small_caps" ==> r == Some(SMALL_CAPS_NAME)
    ensures style.Some? && Lower(style.value) == "classic" ==>
              var lang := if language.None? then "en" else Lower(language.value);
              r == Some(if lang in CLASSIC_NAMES then CLASSIC_NAMES[lang] else "Classic")
    ensures style.Some? && Lower(style.value) != "classic" && Lower(style.value) != "small_caps" ==> r == style
  {
    var lang := if language.None? then "en" else Lower(language.value);
    var s := if style.None? then "" else Lower(style.value);
    if s == "classic" then Some(if lang in CLASSIC_NAMES then CLASSIC_NAMES[lang] else "Classic")
    else if s == "small_caps" then Some(SMALL_CAPS_NAME)
    else style
  }

  /** The small-caps style's name is the phrase "small caps" in that style. */
  lemma SmallCapsNameInItsStyle()
    ensures SmallCaps.TransliterateAll(SmallCaps.MessageTable, "small caps") == SMALL_CAPS_NAME
  {
    SplitPhrase();
    TransliterateAllConcat(SmallCaps.MessageTable, "small", " caps");
    SmallWord();
    CapsWord();
    NameHalves();
  }

  lemma SplitPhrase()
    ensures "small caps" == "small" + " caps"
  {
  }

  lemma NameHalves()
    ensures "\U{A731}\U{1D0D}\U{1D00}\U{029F}\U{029F}" + " \U{1D04}\U{1D00}\U{1D18}\U{A731}" == SMALL_CAPS_NAME
  {
  }

  lemma SmallWord()
    ensures SmallCaps.TransliterateAll(SmallCaps.MessageTable, "small") == "\U{A731}\U{1D0D}\U{1D00}\U{029F}\U{029F}"
  {
  }

  lemma CapsWord()
    ensures SmallCaps.TransliterateAll(SmallCaps.MessageTable, " caps") == " \U{1D04}\U{1D00}\U{1D18}\U{A731}"
  {
  }

  lemma {:induction false} TransliterateAllConcat(t: SmallCaps.Table, a: string, b: string)
    ensures SmallCaps.TransliterateAll(t, a + b) == SmallCaps.TransliterateAll(t, a) + SmallCaps.TransliterateAll(t, b)
    decreases |a|
  {
    if a == [] {
      assert a + b == b;
    } else {
      assert (a + b)[0] == a[0];
      assert (a + b)[1..] == a[1..] + b;
      TransliterateAllConcat(t, a[1..], b);
    }
  }

  /** Every stored style has a name: no normalised style comes back unnamed. */
  lemma NormalizedStyleHasName(style: string, language: Option<string>)
    ensures LocalizedStyleName(Some(NormalizedStyle(style)), language) != Some(NormalizedStyle(style))
  {
    assert Lower("small_caps") == "small_caps";
    assert Lower("classic") == "classic";
  }

  // ---------------------------------------------------------------------------------------
  // getString: the newest release in the version list

  /** One entry of the version list: its `version_type` and `version_number`. */
  datatype VersionInfo = VersionInfo(versionType: string, versionNumber: string)

  /** The parsed response: not an array, or the array of versions, newest first. */
  datatype Response = NotArray | Versions(entries: seq<VersionInfo>)

  predicate IsRelease(v: VersionInfo) {
    EqualsIgnoreCase(v.versionType, "release")
  }

  /** Entry `i` is a release and no entry before it is. */
  predicate FirstReleaseAt(entries: seq<VersionInfo>, i: int) {
    0 <= i < |entries| && IsRelease(entries[i]) && forall j :: 0 <= j < i ==> !IsRelease(entries[j])
  }

  /** `getString`: the number of the first release entry, or the `IOException` message. */
  method PickRelease(root: Response) returns (r: Result<string, string>)
    ensures root.NotArray? ==> r == Err("Unexpected response from Modrinth")
    ensures root.Versions? && root.entries == [] ==> r == Err("No version data available")
    ensures root.Versions? && root.entries != [] && (forall i :: 0 <= i < |root.entries| ==> !IsRelease(root.entries[i]))
            ==> r == Err("No release versions found. huh?")
    ensures r.Ok? ==> root.Versions? && (exists i :: FirstReleaseAt(root.entries, i) && r.value == root.entries[i].versionNumber)
    ensures root.Versions? && (exists i :: 0 <= i < |root.entries| && IsRelease(root.entries[i])) ==> r.Ok?
  {
    if root.NotArray? {
      return Err("Unexpected response from Modrinth");
    }
    var versions := root.entries;
    if |versions| == 0 {
      return Err("No version data available");
    }
    var latestRelease: Option<string> := None;
    var i := 0;
    while i < |versions|
      invariant 0 <= i <= |versions|
      invariant latestRelease.None?
      invariant forall j :: 0 <= j < i ==> !IsRelease(versions[j])
    {
      if IsRelease(versions[i]) {
        latestRelease := Some(versions[i].versionNumber);
        assert FirstReleaseAt(versions, i);
        break;
      }
      i := i + 1;
    }
    if latestRelease.None? {
      return Err("No release versions found. huh?");
    }
    return Ok(latestRelease.value);
  }

  // ---------------------------------------------------------------------------------------
  // The plugin object

  /** Whoever ran a command: the console, or a player known by its UUID. */
  datatype Actor = Console | PlayerActor(uuid: string)

  class Plugin {
    /** `getConfig()` in memory, and the file `saveConfig` last wrote. */
    var config: Document
    var onDisk: Document
    var remainingFirstInstallShows: int
    /** Welcomes shown so far by this process. */
    ghost var welcomesShown: nat
    var lastMenuSent: map<string, string>
    var latestVersion: Option<string>
    var updateAvailable: bool

    /** The counter never leaves 0..5 and, with the welcomes shown, always adds up to 5. */
    ghost predicate CounterValid()
      reads this
    {
      0 <= remainingFirstInstallShows <= FIRST_INSTALL_SHOWS
      && welcomesShown + remainingFirstInstallShows == FIRST_INSTALL_SHOWS
    }

    /** An update is announced exactly when a version other than the running one is known. */
    predicate UpdateFlagValid()
      reads this
    {
      updateAvailable <==> latestVersion.Some? && latestVersion.value != CURRENT_VERSION
    }

    ghost predicate Valid()
      reads this
    {
      CounterValid() && UpdateFlagValid()
    }

    predicate FirstInstallCompleted()
      reads this
    {
      GetBoolean(config, FIRST_INSTALL_KEY, false)
    }

    /** `onEnable` with the configuration it loaded. */
    constructor(loaded: Document)
      ensures config == loaded && onDisk == loaded
      ensures remainingFirstInstallShows == FIRST_INSTALL_SHOWS && welcomesShown == 0
      ensures lastMenuSent == map[] && latestVersion.None? && !updateAvailable
      ensures Valid()
    {
      config := loaded;
      onDisk := loaded;
      remainingFirstInstallShows := FIRST_INSTALL_SHOWS;
      welcomesShown := 0;
      lastMenuSent := map[];
      latestVersion := None;
      updateAvailable := false;
    }

    method SaveConfig()
      modifies this`onDisk
      ensures onDisk == config
    {
      onDisk := config;
    }

    /** `markFirstInstallCompleted`: sets and saves the flag, but only when it is not already set. */
    method MarkFirstInstallCompleted()
      modifies this`config, this`onDisk
      ensures FirstInstallCompleted()
      ensures !old(FirstInstallCompleted()) ==> config == old(config)[FIRST_INSTALL_KEY := Bool(true)] && onDisk == config
      ensures old(FirstInstallCompleted()) ==> config == old(config) && onDisk == old(onDisk)
    {
      if !GetBoolean(config, FIRST_INSTALL_KEY, false) {
        config := config[FIRST_INSTALL_KEY := Bool(true)];
        SaveConfig();
      }
    }

    /** `sendFirstInstallWelcome`: shows the welcome (`shown`) while the counter is positive and
      * first install is not completed; marks it completed once the counter is used up. */
    method SendFirstInstallWelcome(player: Option<string>) returns (shown: bool)
      requires CounterValid()
      modifies this`config, this`onDisk, this`remainingFirstInstallShows, this`welcomesShown, this`lastMenuSent
      ensures CounterValid()
      ensures shown <==> player.Some? && !old(FirstInstallCompleted()) && old(remainingFirstInstallShows) > 0
      ensures shown ==> (remainingFirstInstallShows == old(remainingFirstInstallShows) - 1
                         && lastMenuSent == old(lastMenuSent)[player.value := FIRST_INSTALL_MENU])
      ensures !shown ==> remainingFirstInstallShows == old(remainingFirstInstallShows) && lastMenuSent == old(lastMenuSent)
      ensures if player.Some? && !old(FirstInstallCompleted()) && old(remainingFirstInstallShows) <= 1
              then config == old(config)[FIRST_INSTALL_KEY := Bool(true)] && onDisk == config
              else config == old(config) && onDisk == old(onDisk)
    {
      shown := false;
      if player.None? {
        return;
      }
      if GetBoolean(config, FIRST_INSTALL_KEY, false) {
        return;
      }
      if remainingFirstInstallShows <= 0 {
        MarkFirstInstallCompleted();
        return;
      }
      remainingFirstInstallShows := remainingFirstInstallShows - 1;
      welcomesShown := welcomesShown + 1;
      lastMenuSent := lastMenuSent[player.value := FIRST_INSTALL_MENU];
      shown := true;
      if remainingFirstInstallShows == 0 {
        MarkFirstInstallCompleted();
      }
    }

    /** `debug firstinstall` (the command handler): clears and saves the flag, then sends the
      * welcome again; the counter is not reset. */
    method DebugResetFirstInstall(player: string) returns (shown: bool)
      requires CounterValid()
      modifies this`config, this`onDisk, this`remainingFirstInstallShows, this`welcomesShown, this`lastMenuSent
      ensures CounterValid()
      ensures shown <==> old(remainingFirstInstallShows) > 0
      ensures old(remainingFirstInstallShows) <= 1 ==> config == old(config)[FIRST_INSTALL_KEY := Bool(true)]
      ensures old(remainingFirstInstallShows) > 1 ==> config == old(config)[FIRST_INSTALL_KEY := Bool(false)]
      ensures onDisk == config
    {
      config := config[FIRST_INSTALL_KEY := Bool(false)];
      SaveConfig();
      shown := SendFirstInstallWelcome(Some(player));
    }

    /** The actor is a player whose last menu was the first-install welcome. */
    predicate FromFirstInstall(actor: Actor)
      reads this
    {
      actor.PlayerActor? && actor.uuid in lastMenuSent && lastMenuSent[actor.uuid] == FIRST_INSTALL_MENU
    }

    /** `set(path, v)` and save, then the first-install mark when the actor came from the welcome. */
    method ApplySetting(actor: Actor, path: string, v: Value)
      modifies this`config, this`onDisk
      ensures var written := old(config)[path := v];
              if old(FromFirstInstall(actor)) && !GetBoolean(written, FIRST_INSTALL_KEY, false)
              then config == written[FIRST_INSTALL_KEY := Bool(true)]
              else config == written
      ensures onDisk == config
    {
      config := config[path := v];
      SaveConfig();
      if FromFirstInstall(actor) {
        MarkFirstInstallCompleted();
      }
    }

    /** `applyLanguageSetting`: stores the lower-cased code. */
    method ApplyLanguageSetting(actor: Actor, langCode: string)
      modifies this`config, this`onDisk
      ensures "language" in config && config["language"] == Str(Lower(langCode))
      ensures forall k :: k in old(config) && k != "language" && k != FIRST_INSTALL_KEY ==> k in config && config[k] == old(config)[k]
      ensures old(FromFirstInstall(actor)) ==> GetBoolean(config, FIRST_INSTALL_KEY, false)
      ensures !old(FromFirstInstall(actor)) ==> config == old(config)["language" := Str(Lower(langCode))]
      ensures onDisk == config
    {
      ApplySetting(actor, "language", Str(Lower(langCode)));
    }

    /** `applyStyleSetting`: stores `small_caps` or `classic`. */
    method ApplyStyleSetting(actor: Actor, style: string)
      modifies this`config, this`onDisk
      ensures "messages.style" in config && config["messages.style"] == Str(NormalizedStyle(style))
      ensures forall k :: k in old(config) && k != "messages.style" && k != FIRST_INSTALL_KEY ==> k in config && config[k] == old(config)[k]
      ensures old(FromFirstInstall(actor)) ==> GetBoolean(config, FIRST_INSTALL_KEY, false)
      ensures !old(FromFirstInstall(actor)) ==> config == old(config)["messages.style" := Str(NormalizedStyle(style))]
      ensures onDisk == config
    {
      ApplySetting(actor, "messages.style", Str(NormalizedStyle(style)));
    }

    /** `validateWorldConfiguration`: resets the fields that fail their check, saves if one did,
      * and always accepts the world. */
    method ValidateWorldConfiguration(worldName: string, section: WorldSection, isSound: string -> bool)
      returns (accepted: bool)
      modifies section
      ensures accepted
      ensures section.values == Repaired(old(section.values), isSound)
      ensures SomeInvalid(old(section.values), isSound) ==> section.onDisk == section.values
      ensures !SomeInvalid(old(section.values), isSound) ==> section.onDisk == old(section.onDisk)
    {
      ghost var d := section.values;
      var valid := true;
      var radius := GetInt(section.values, "radius", 100);
      valid := section.ResetIfInvalid(radius <= 0, "radius", Int(100), valid);
      ghost var d1 := section.values;
      var boostStrength := GetInt(section.values, "boost.strength", 2);
      valid := section.ResetIfInvalid(boostStrength <= 0, "boost.strength", Int(2), valid);
      ghost var d2 := section.values;
      var activationMode := GetString(section.values, "activation_mode", "double_jump");
      valid := section.ResetIfInvalid(activationMode !in VALID_MODES, "activation_mode", Str("double_jump"), valid);
      ghost var d3 := section.values;
      var boostDirection := GetString(section.values, "boost.direction", "forward");
      valid := section.ResetIfInvalid(boostDirection != "forward" && boostDirection != "upward",
                                      "boost.direction", Str("forward"), valid);
      ghost var d4 := section.values;
      var soundName := GetString(section.values, "boost.sound", DEFAULT_SOUND);
      valid := section.ResetIfInvalid(!isSound(Upper(soundName)), "boost.sound", Str(DEFAULT_SOUND), valid);
      ghost var d5 := section.values;
      var launchStrength := GetDouble(section.values, "f_key.launch_strength", DEFAULT_LAUNCH_STRENGTH);
      valid := section.ResetIfInvalid(launchStrength.value <= 0.0, "f_key.launch_strength",
                                      Dbl(DEFAULT_LAUNCH_STRENGTH), valid);
      ValidationSteps(d, d1, d2, d3, d4, d5, section.values, isSound);
      assert valid <==> !SomeInvalid(d, isSound);
      if !valid {
        section.Save();
      }
      return true;
    }

    /** `VersionChecker.tick` given the fetch outcome: any version other than the running one is
      * announced, older ones included; the running version clears the flag; a failure only logs
      * its sanitised message. */
    method Tick(fetched: Result<string, string>) returns (logged: Option<string>)
      requires UpdateFlagValid()
      modifies this`latestVersion, this`updateAvailable
      ensures UpdateFlagValid()
      ensures fetched.Ok? && fetched.value != CURRENT_VERSION ==> updateAvailable && latestVersion == Some(fetched.value)
      ensures fetched.Ok? && fetched.value == CURRENT_VERSION ==> !updateAvailable && latestVersion.None?
      ensures fetched.Ok? ==> logged.None?
      ensures fetched.Err? ==> (latestVersion == old(latestVersion) && updateAvailable == old(updateAvailable)
                                && logged == Some(SanitizeMiniMessageValue(Some(fetched.error))))
    {
      match fetched
      case Ok(latest) =>
        if CURRENT_VERSION != latest {
          latestVersion := Some(latest);
          updateAvailable := true;
        } else {
          updateAvailable := false;
          latestVersion := None;
        }
        logged := None;
      case Err(message) =>
        logged := Some(SanitizeMiniMessageValue(Some(message)));
    }
  }

  /** The six steps of `validateWorldConfiguration`, each reading the section the previous step left,
    * end in `Repaired` of the original section. */
  lemma ValidationSteps(d: Document, d1: Document, d2: Document, d3: Document, d4: Document,
                        d5: Document, d6: Document, isSound: string -> bool)
    requires d1 == ResetIf(d, RadiusInvalid(d), "radius", Int(100))
    requires d2 == ResetIf(d1, StrengthInvalid(d1), "boost.strength", Int(2))
    requires d3 == ResetIf(d2, ModeInvalid(d2), "activation_mode", Str("double_jump"))
    requires d4 == ResetIf(d3, DirectionInvalid(d3), "boost.direction", Str("forward"))
    requires d5 == ResetIf(d4, SoundInvalid(d4, isSound), "boost.sound", Str(DEFAULT_SOUND))
    requires d6 == ResetIf(d5, LaunchInvalid(d5), "f_key.launch_strength", Dbl(DEFAULT_LAUNCH_STRENGTH))
    ensures d6 == Repaired(d, isSound)
    ensures (RadiusInvalid(d) || StrengthInvalid(d1) || ModeInvalid(d2) || DirectionInvalid(d3)
             || SoundInvalid(d4, isSound) || LaunchInvalid(d5)) <==> SomeInvalid(d, isSound)
  {
    ChecksAfterReset(d, RadiusInvalid(d), "radius", Int(100), isSound);
    MoreChecksAfterReset(d, RadiusInvalid(d), "radius", Int(100), isSound);
    ChecksAfterReset(d1, StrengthInvalid(d1), "boost.strength", Int(2), isSound);
    MoreChecksAfterReset(d1, StrengthInvalid(d1), "boost.strength", Int(2), isSound);
    ChecksAfterReset(d2, ModeInvalid(d2), "activation_mode", Str("double_jump"), isSound);
    MoreChecksAfterReset(d2, ModeInvalid(d2), "activation_mode", Str("double_jump"), isSound);
    ChecksAfterReset(d3, DirectionInvalid(d3), "boost.direction", Str("forward"), isSound);
    MoreChecksAfterReset(d3, DirectionInvalid(d3), "boost.direction", Str("forward"), isSound);
    ChecksAfterReset(d4, SoundInvalid(d4, isSound), "boost.sound", Str(DEFAULT_SOUND), isSound);
    MoreChecksAfterReset(d4, SoundInvalid(d4, isSound), "boost.sound", Str(DEFAULT_SOUND), isSound);
  }

  /** A reset of one path leaves the checks of the other paths as they were. */
  lemma ChecksAfterReset(d: Document, reset: bool, path: string, v: Value, isSound: string -> bool)
    ensures path != "radius" ==> RadiusInvalid(ResetIf(d, reset, path, v)) == RadiusInvalid(d)
    ensures path != "boost.strength" ==> StrengthInvalid(ResetIf(d, reset, path, v)) == StrengthInvalid(d)
    ensures path != "activation_mode" ==> ModeInvalid(ResetIf(d, reset, path, v)) == ModeInvalid(d)
  {
  }

  lemma MoreChecksAfterReset(d: Document, reset: bool, path: string, v: Value, isSound: string -> bool)
    ensures path != "boost.direction" ==> DirectionInvalid(ResetIf(d, reset, path, v)) == DirectionInvalid(d)
    ensures path != "boost.sound" ==> SoundInvalid(ResetIf(d, reset, path, v), isSound) == SoundInvalid(d, isSound)
    ensures path != "f_key.launch_strength" ==> LaunchInvalid(ResetIf(d, reset, path, v)) == LaunchInvalid(d)
  {
  }
}
