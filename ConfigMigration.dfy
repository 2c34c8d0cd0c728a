/**
 * ConfigUpdater: recognising which release wrote `config.yml`, carrying an old file's values
 * into the 1.4 layout, and patching a 1.4 file with the sections it lacks.
 */
module ConfigMigration {
  import opened Wrappers
  import opened Text
  import opened Config

  const SUPPORTED_LANGUAGES: set<string> := {"en", "de", "es", "fr", "ar", "pl"}
  const CONFIG_VERSION_1_4: string := "1.4"

  datatype ConfigVersion = V1_2 | V1_3 | V1_4 | Unknown

  /** `detectConfigVersion`: the first marker found decides, `worlds` before everything else. */
  function DetectConfigVersion(doc: Document): (v: ConfigVersion)
    ensures v == V1_4 <==> ContainsPath(doc, "worlds")
    ensures v == V1_3 <==> !ContainsPath(doc, "worlds")
                           && (ContainsPath(doc, "boost_enabled") || ContainsPath(doc, "disable_fireworks_in_spawn_elytra"))
    ensures v == Unknown <==> !ContainsPath(doc, "worlds") && !ContainsPath(doc, "boost_enabled")
                              && !ContainsPath(doc, "disable_fireworks_in_spawn_elytra")
                              && !ContainsPath(doc, "activation_mode") && !ContainsPath(doc, "radius")
                              && !ContainsPath(doc, "world")
  {
    if ContainsPath(doc, "worlds") then V1_4
    else if ContainsPath(doc, "boost_enabled") || ContainsPath(doc, "disable_fireworks_in_spawn_elytra") then V1_3
    else if ContainsPath(doc, "activation_mode") || ContainsPath(doc, "radius") || ContainsPath(doc, "world") then V1_2
    else Unknown
  }

  /** A stored path stays contained when keys are only added. */
  lemma ContainsMonotone(small: Document, large: Document, path: string)
    requires forall k :: k in small ==> k in large
    requires ContainsPath(small, path)
    ensures ContainsPath(large, path)
  {
    if path !in small {
      var k :| k in small && IsBelow(k, path);
      assert k in large;
    }
  }

  /** Once `worlds` is there, no other key moves the file away from 1.4. */
  lemma WorldsDecides(doc: Document, path: string, v: Value)
    requires ContainsPath(doc, "worlds")
    ensures DetectConfigVersion(SetPath(doc, path, v)) == V1_4
  {
    ContainsMonotone(doc, SetPath(doc, path, v), "worlds");
  }

  /** The arguments of `generateV14Config`. */
  datatype Settings = Settings(
    language: string, activationMode: string, radius: int, strength: int, boostDirection: string,
    worldName: string, spawnMode: string, spawnX: int, spawnY: int, spawnZ: int,
    spawnX2: int, spawnY2: int, spawnZ2: int, boostSound: string,
    disableInCreative: bool, disableInAdventure: bool, showPressToBoost: bool, showBoostActivated: bool,
    boostEnabled: bool, disableFireworks: bool, fKeyLaunchStrength: Decimal)

  const DEFAULT_LAUNCH_STRENGTH: Decimal := Decimal(1.5, "1.5")

  /** Every number a migration writes is a Java `int`. */
  predicate IntsInRange(s: Settings) {
    InIntRange(s.radius) && InIntRange(s.strength) && InIntRange(s.spawnX) && InIntRange(s.spawnY) &&
    InIntRange(s.spawnZ) && InIntRange(s.spawnX2) && InIntRange(s.spawnY2) && InIntRange(s.spawnZ2)
  }

  /** A coordinate from the old `spawn` section, or its default when there is no such section. */
  function SpawnCoordinate(doc: Document, key: string, def: int): (r: int)
    ensures !IsSection(doc, "spawn") ==> r == def
    ensures IsSection(doc, "spawn") ==> r == GetInt(doc, "spawn." + key, def)
  {
    if IsSection(doc, "spawn") then GetInt(doc, "spawn." + key, def) else def
  }

  /** A flag from the old `messages` section, true when there is no such section. */
  function MessageFlag(doc: Document, key: string): (r: bool)
    ensures !IsSection(doc, "messages") ==> r
    ensures IsSection(doc, "messages") ==> r == GetBoolean(doc, "messages." + key, true)
  {
    if IsSection(doc, "messages") then GetBoolean(doc, "messages." + key, true) else true
  }

  /** `migrateFromV12`: boosting on and fireworks allowed whatever the old file says. The old
    * custom messages are read but not carried over. */
  function V12Settings(doc: Document): (s: Settings)
    ensures s.boostEnabled && !s.disableFireworks && s.fKeyLaunchStrength == DEFAULT_LAUNCH_STRENGTH
    ensures s.language == GetString(doc, "language", "de")
    ensures s.spawnMode == GetString(doc, "mode", "auto")
    ensures !IsSection(doc, "spawn") ==> s.spawnX == 0 && s.spawnY == 64 && s.spawnZ == 0
                                         && s.spawnX2 == 0 && s.spawnY2 == 0 && s.spawnZ2 == 0
    ensures s.radius == GetInt(doc, "radius", 100) && s.strength == GetInt(doc, "strength", 2)
    ensures s.activationMode == GetString(doc, "activation_mode", "double_jump")
    ensures IntsInRange(s)
  {
    Settings(
      GetString(doc, "language", "de"), GetString(doc, "activation_mode", "double_jump"),
      GetInt(doc, "radius", 100), GetInt(doc, "strength", 2), GetString(doc, "boost_direction", "forward"),
      GetString(doc, "world", "world"), GetString(doc, "mode", "auto"),
      SpawnCoordinate(doc, "x", 0), SpawnCoordinate(doc, "y", 64), SpawnCoordinate(doc, "z", 0),
      SpawnCoordinate(doc, "x2", 0), SpawnCoordinate(doc, "y2", 0), SpawnCoordinate(doc, "z2", 0),
      GetString(doc, "boost_sound", "ENTITY_BAT_TAKEOFF"),
      GetBoolean(doc, "disable_in_creative", true), GetBoolean(doc, "disable_in_adventure", false),
      MessageFlag(doc, "show_press_to_boost"), MessageFlag(doc, "show_boost_activated"),
      true, false, DEFAULT_LAUNCH_STRENGTH)
  }

  /** `migrateFromV13`: the boost and fireworks settings are carried over, and the spawn mode is
    * `auto` without a `spawn` section and `spawn.mode` (default `advanced`) with one. */
  function V13Settings(doc: Document): (s: Settings)
    ensures s.boostEnabled == GetBoolean(doc, "boost_enabled", true)
    ensures s.disableFireworks == GetBoolean(doc, "disable_fireworks_in_spawn_elytra", false)
    ensures s.fKeyLaunchStrength == GetDouble(doc, "f_key_launch_strength", DEFAULT_LAUNCH_STRENGTH)
    ensures s.language == GetString(doc, "language", "de")
    ensures !IsSection(doc, "spawn") ==> s.spawnMode == "auto"
    ensures IsSection(doc, "spawn") ==> s.spawnMode == GetString(doc, "spawn.mode", "advanced")
    ensures s.radius == GetInt(doc, "radius", 100) && s.strength == GetInt(doc, "strength", 2)
    ensures IntsInRange(s)
  {
    Settings(
      GetString(doc, "language", "de"), GetString(doc, "activation_mode", "double_jump"),
      GetInt(doc, "radius", 100), GetInt(doc, "strength", 2), GetString(doc, "boost_direction", "forward"),
      GetString(doc, "world", "world"),
      if IsSection(doc, "spawn") then GetString(doc, "spawn.mode", "advanced") else "auto",
      SpawnCoordinate(doc, "x", 0), SpawnCoordinate(doc, "y", 64), SpawnCoordinate(doc, "z", 0),
      SpawnCoordinate(doc, "x2", 0), SpawnCoordinate(doc, "y2", 0), SpawnCoordinate(doc, "z2", 0),
      GetString(doc, "boost_sound", "ENTITY_BAT_TAKEOFF"),
      GetBoolean(doc, "disable_in_creative", true), GetBoolean(doc, "disable_in_adventure", false),
      MessageFlag(doc, "show_press_to_boost"), MessageFlag(doc, "show_boost_activated"),
      GetBoolean(doc, "boost_enabled", true), GetBoolean(doc, "disable_fireworks_in_spawn_elytra", false),
      GetDouble(doc, "f_key_launch_strength", DEFAULT_LAUNCH_STRENGTH))
  }

  /** The fixed values `createBackupAndGenerateNew` writes for a file it does not recognise. */
  const DEFAULT_SETTINGS: Settings := Settings(
    "en", "double_jump", 100, 2, "forward", "world", "auto", 0, 64, 0, 0, 0, 0, "ENTITY_BAT_TAKEOFF",
    true, false, true, true, true, false, DEFAULT_LAUNCH_STRENGTH)

  /** An old file with no `language` moves to German; an unrecognised file is regenerated in English. */
  lemma MigrationLanguageDefaults(doc: Document)
    requires "language" !in doc
    ensures V12Settings(doc).language == "de" && V13Settings(doc).language == "de"
    ensures DEFAULT_SETTINGS.language == "en"
  {
  }

  /** The area is circular exactly when the second corner is all zero. */
  function AreaType(x2: int, y2: int, z2: int): (r: string)
    ensures r == "circular" <==> x2 == 0 && y2 == 0 && z2 == 0
    ensures r == "circular" || r == "rectangular"
  {
    if x2 == 0 && y2 == 0 && z2 == 0 then "circular" else "rectangular"
  }

  /** The path of a setting of one world. */
  function WorldPath(world: string, key: string): string {
    "worlds." + (world + ".") + key
  }

  /** The document the file `generateV14Config` writes describes: every setting it writes, at its
    * dotted path, with the value the YAML gives it. The world's settings sit under `worlds.<name>`,
    * so the file is detected as 1.4. */
  function GeneratedDocument(s: Settings): (r: Document)
    ensures DetectConfigVersion(r) == V1_4
  {
    var w := s.worldName;
    var g := map[
      WorldPath(w, "activation_mode") := Str(s.activationMode),
      WorldPath(w, "spawn_area.mode") := Str(s.spawnMode),
      WorldPath(w, "spawn_area.x") := Int(s.spawnX),
      WorldPath(w, "spawn_area.y") := Int(s.spawnY),
      WorldPath(w, "spawn_area.z") := Int(s.spawnZ),
      WorldPath(w, "spawn_area.x2") := Int(s.spawnX2),
      WorldPath(w, "spawn_area.y2") := Int(s.spawnY2),
      WorldPath(w, "spawn_area.z2") := Int(s.spawnZ2),
      WorldPath(w, "boost.enabled") := Bool(s.boostEnabled),
      WorldPath(w, "boost.direction") := Str(s.boostDirection),
      WorldPath(w, "boost.sound") := Str(s.boostSound),
      WorldPath(w, "f_key.launch_strength") := Dbl(s.fKeyLaunchStrength),
      "game_modes.disable_in_creative" := Bool(s.disableInCreative),
      "game_modes.disable_in_adventure" := Bool(s.disableInAdventure),
      "fireworks.disable_in_spawn_elytra" := Bool(s.disableFireworks),
      "messages.show_press_to_boost" := Bool(s.showPressToBoost),
      "messages.show_boost_activated" := Bool(s.showBoostActivated),
      "messages.show_creative_disabled" := Bool(false),
      "messages.style" := Str("classic"),
      "hunger_consumption.enabled" := Bool(false),
      "hunger_consumption.mode" := Str("activation"),
      "hunger_consumption.minimum_food_level" := Int(0),
      "hunger_consumption.activation.hunger_cost" := Int(1),
      "hunger_consumption.distance.blocks_per_point" := Dbl(Decimal(50.0, "50.0")),
      "hunger_consumption.distance.hunger_cost" := Int(1),
      "hunger_consumption.time.seconds_per_point" := Int(30),
      "hunger_consumption.time.hunger_cost" := Int(1),
      "language" := Str(s.language),
      WorldPath(w, "enabled") := Bool(true),
      WorldPath(w, "spawn_area.area_type") := Str(AreaType(s.spawnX2, s.spawnY2, s.spawnZ2)),
      WorldPath(w, "boost.strength") := Int(s.strength),
      WorldPath(w, "radius") := Int(s.radius)
    ];
    PrefixOfConcat("worlds.", w + ".", "enabled");
    ContainedVia(g, WorldPath(w, "enabled"), "worlds");
    g
  }

  /** Reading the generated file back as the plugin does gives the migrated radius and boost
    * strength, the two numbers `validateWorldConfiguration` checks. */
  lemma GeneratedReadsBack(s: Settings)
    requires IntsInRange(s)
    ensures GetInt(GeneratedDocument(s), WorldPath(s.worldName, "radius"), 100) == s.radius
    ensures GetInt(GeneratedDocument(s), WorldPath(s.worldName, "boost.strength"), 2) == s.strength
  {
  }

  /** A path is contained once it, or a path below it, is stored. */
  lemma ContainedVia(doc: Document, stored: string, path: string)
    requires stored in doc && (stored == path || IsBelow(stored, path))
    ensures ContainsPath(doc, path)
  {
  }

  /** The generated area type is circular exactly when the second corner is all zero. */
  lemma GeneratedAreaType(s: Settings)
    ensures GetString(GeneratedDocument(s), WorldPath(s.worldName, "spawn_area.area_type"), "") == "circular"
            <==> s.spawnX2 == 0 && s.spawnY2 == 0 && s.spawnZ2 == 0
  {
  }

  /** The generated file keeps the language it was given, unchecked. */
  lemma GeneratedLanguage(s: Settings)
    ensures GetString(GeneratedDocument(s), "language", "en") == s.language
  {
  }

  /** A regenerated file is recognised as 1.4. */
  /** `String.join(separator, lines)`. */
  function Join(lines: seq<string>, sep: string): string
    decreases |lines|
  {
    if lines == [] then []
    else if |lines| == 1 then lines[0]
    else lines[0] + sep + Join(lines[1..], sep)
  }

  /** Each line followed by the separator. */
  function Terminated(lines: seq<string>, sep: string): string
    decreases |lines|
  {
    if lines == [] then [] else lines[0] + sep + Terminated(lines[1..], sep)
  }

  /** The text `generateV14Config` writes for its lines. */
  function FileContent(lines: seq<string>, sep: string): string {
    Join(lines, sep) + sep
  }

  /** Joining and then adding one separator ends every line, the last one included, with the separator. */
  lemma {:induction false} JoinThenSeparator(lines: seq<string>, sep: string)
    requires lines != []
    ensures FileContent(lines, sep) == Terminated(lines, sep)
    decreases |lines|
  {
    if |lines| == 1 {
      assert Terminated(lines[1..], sep) == [];
      assert lines[0] + sep + [] == lines[0] + sep;
    } else {
      JoinThenSeparator(lines[1..], sep);
      var head := lines[0] + sep;
      ConcatAssoc(head, Join(lines[1..], sep), sep);
    }
  }

  /** What `updateConfig` does with the file. */
  datatype Plan =
    | SaveDefaultConfig
    | Regenerate(settings: Settings)
    | PatchV14

  /** `updateConfig`: the bundled default when there is no file, a regenerated file (after a backup)
    * from an old or unrecognised one, and the patch for a 1.4 file. */
  function UpdatePlan(fileExists: bool, doc: Document): (p: Plan)
    ensures !fileExists ==> p == SaveDefaultConfig
    ensures fileExists && ContainsPath(doc, "worlds") ==> p == PatchV14
    ensures fileExists && DetectConfigVersion(doc) == Unknown ==> p == Regenerate(DEFAULT_SETTINGS)
    ensures fileExists && DetectConfigVersion(doc) == V1_2 ==> p == Regenerate(V12Settings(doc))
    ensures fileExists && DetectConfigVersion(doc) == V1_3 ==> p == Regenerate(V13Settings(doc))
  {
    if !fileExists then SaveDefaultConfig
    else match DetectConfigVersion(doc)
      case V1_2 => Regenerate(V12Settings(doc))
      case V1_3 => Regenerate(V13Settings(doc))
      case V1_4 => PatchV14
      case Unknown => Regenerate(DEFAULT_SETTINGS)
  }

  /** The two migrations read every other setting the same way: they differ only in the spawn
    * mode and in the boost, fireworks and launch-strength settings that 1.2 did not have. */
  lemma MigrationsDifferInNewSettings(doc: Document)
    ensures V12Settings(doc).(spawnMode := V13Settings(doc).spawnMode,
                              boostEnabled := V13Settings(doc).boostEnabled,
                              disableFireworks := V13Settings(doc).disableFireworks,
                              fKeyLaunchStrength := V13Settings(doc).fKeyLaunchStrength) == V13Settings(doc)
  {
  }

  /** A radius stored beyond the range of `int` is carried over as `getInt` reads it, folded
    * into 32 bits. */
  lemma OverflowingRadiusFolds(doc: Document)
    requires "radius" in doc && doc["radius"] == Int(0x1_0000_0005)
    ensures V12Settings(doc).radius == 5 && V13Settings(doc).radius == 5
  {
  }

  /** A 1.2 file always comes out with boosting on and fireworks allowed. */
  lemma V12RegeneratedWithBoost(doc: Document)
    requires DetectConfigVersion(doc) == V1_2
    ensures UpdatePlan(true, doc).Regenerate?
    ensures UpdatePlan(true, doc).settings.boostEnabled && !UpdatePlan(true, doc).settings.disableFireworks
  {
  }

  /** One step of `updateV14Config`: a missing path gets its default, a present one is left alone. */
  function AddIfMissing(doc: Document, path: string, v: Value): (r: Document)
    ensures ContainsPath(doc, path) ==> r == doc
    ensures !ContainsPath(doc, path) ==> r == SetPath(doc, path, v)
  {
    if ContainsPath(doc, path) then doc else SetPath(doc, path, v)
  }

  /** The seven paths `updateV14Config` makes sure of, in its order, with what it puts there. */
  const V14_DEFAULTS: seq<(string, Value)> := [
    ("language", Str("en")),
    ("game_modes", Section),
    ("fireworks", Section),
    ("messages", Section),
    ("messages.show_creative_disabled", Bool(false)),
    ("hunger_consumption", Section),
    ("worlds", Section)
  ]

  /** The document after every step. */
  function AddMissing(doc: Document, defaults: seq<(string, Value)>): Document
    decreases |defaults|
  {
    if defaults == [] then doc else AddMissing(AddIfMissing(doc, defaults[0].0, defaults[0].1), defaults[1..])
  }

  /** Nothing already stored is overwritten. */
  lemma {:induction false} AddMissingKeeps(doc: Document, defaults: seq<(string, Value)>)
    ensures forall k :: k in doc ==> k in AddMissing(doc, defaults) && AddMissing(doc, defaults)[k] == doc[k]
    decreases |defaults|
  {
    if defaults != [] {
      var next := AddIfMissing(doc, defaults[0].0, defaults[0].1);
      AddMissingKeeps(next, defaults[1..]);
    }
  }

  /** Afterwards every path of the list is present. */
  lemma {:induction false} AddMissingCovers(doc: Document, defaults: seq<(string, Value)>)
    ensures forall i :: 0 <= i < |defaults| ==> ContainsPath(AddMissing(doc, defaults), defaults[i].0)
    decreases |defaults|
  {
    if defaults != [] {
      var next := AddIfMissing(doc, defaults[0].0, defaults[0].1);
      AddMissingCovers(next, defaults[1..]);
      AddMissingKeeps(next, defaults[1..]);
      ContainsMonotone(next, AddMissing(next, defaults[1..]), defaults[0].0);
      forall i | 1 <= i < |defaults|
        ensures ContainsPath(AddMissing(doc, defaults), defaults[i].0)
      {
        assert defaults[i] == defaults[1..][i - 1];
      }
    }
  }

  /** Some path of the list is missing. */
  predicate SomeMissing(doc: Document, defaults: seq<(string, Value)>) {
    exists i :: 0 <= i < |defaults| && !ContainsPath(doc, defaults[i].0)
  }

  /** With nothing missing, no step changes anything. */
  lemma {:induction false} AddMissingIdentity(doc: Document, defaults: seq<(string, Value)>)
    requires !SomeMissing(doc, defaults)
    ensures AddMissing(doc, defaults) == doc
    decreases |defaults|
  {
    if defaults != [] {
      assert ContainsPath(doc, defaults[0].0);
      forall i | 0 <= i < |defaults[1..]|
        ensures ContainsPath(doc, defaults[1..][i].0)
      {
        assert defaults[1..][i] == defaults[i + 1];
      }
      AddMissingIdentity(doc, defaults[1..]);
    }
  }

  /** The document changes exactly when some path was missing. */
  lemma ChangedIffMissing(doc: Document, defaults: seq<(string, Value)>)
    ensures AddMissing(doc, defaults) != doc <==> SomeMissing(doc, defaults)
  {
    if SomeMissing(doc, defaults) {
      var i :| 0 <= i < |defaults| && !ContainsPath(doc, defaults[i].0);
      AddMissingCovers(doc, defaults);
    } else {
      AddMissingIdentity(doc, defaults);
    }
  }

  /** Patching twice is patching once: the second run finds nothing missing. */
  lemma AddMissingIdempotent(doc: Document, defaults: seq<(string, Value)>)
    ensures !SomeMissing(AddMissing(doc, defaults), defaults)
    ensures AddMissing(AddMissing(doc, defaults), defaults) == AddMissing(doc, defaults)
  {
    AddMissingCovers(doc, defaults);
    AddMissingIdentity(AddMissing(doc, defaults), defaults);
  }

  /** A patched file is recognised as 1.4 from then on. */
  lemma PatchedIsV14(doc: Document)
    ensures DetectConfigVersion(AddMissing(doc, V14_DEFAULTS)) == V1_4
  {
    AddMissingCovers(doc, V14_DEFAULTS);
    assert V14_DEFAULTS[6].0 == "worlds";
  }

  /** The seven paths spelled out. */
  lemma NoneMissing(doc: Document)
    requires ContainsPath(doc, "language") && ContainsPath(doc, "game_modes") && ContainsPath(doc, "fireworks")
    requires ContainsPath(doc, "messages") && ContainsPath(doc, "messages.show_creative_disabled")
    requires ContainsPath(doc, "hunger_consumption") && ContainsPath(doc, "worlds")
    ensures !SomeMissing(doc, V14_DEFAULTS)
  {
  }

  /** The global sections of a regenerated file, two at a time. */
  /** The generated file stores a value under each section the 1.4 patch looks for outside `worlds`. */
  lemma GeneratedStoresSections(s: Settings)
    ensures "language" in GeneratedDocument(s) && "game_modes.disable_in_creative" in GeneratedDocument(s)
    ensures "fireworks.disable_in_spawn_elytra" in GeneratedDocument(s) && "messages.style" in GeneratedDocument(s)
    ensures "messages.show_creative_disabled" in GeneratedDocument(s) && "hunger_consumption.enabled" in GeneratedDocument(s)
  {
  }

  /** A document storing those values contains each of those sections. */
  lemma SectionsContained(g: Document)
    requires "language" in g && "game_modes.disable_in_creative" in g && "fireworks.disable_in_spawn_elytra" in g
    requires "messages.style" in g && "messages.show_creative_disabled" in g && "hunger_consumption.enabled" in g
    ensures ContainsPath(g, "language") && ContainsPath(g, "game_modes") && ContainsPath(g, "fireworks")
    ensures ContainsPath(g, "messages") && ContainsPath(g, "messages.show_creative_disabled")
    ensures ContainsPath(g, "hunger_consumption")
  {
    ContainedVia(g, "game_modes.disable_in_creative", "game_modes");
    ContainedVia(g, "fireworks.disable_in_spawn_elytra", "fireworks");
    ContainedVia(g, "messages.style", "messages");
    ContainedVia(g, "hunger_consumption.enabled", "hunger_consumption");
  }

  /** A regenerated file already has every path the 1.4 patch looks for, so the next start leaves
    * it alone. */
  lemma GeneratedNeedsNoPatch(s: Settings)
    ensures !SomeMissing(GeneratedDocument(s), V14_DEFAULTS)
    ensures AddMissing(GeneratedDocument(s), V14_DEFAULTS) == GeneratedDocument(s)
  {
    GeneratedStoresSections(s);
    SectionsContained(GeneratedDocument(s));
    NoneMissing(GeneratedDocument(s));
    AddMissingIdentity(GeneratedDocument(s), V14_DEFAULTS);
  }

  /** `validateLanguage`: a supported code in any case, lower-cased; anything else is English. */
  function ValidateLanguage(language: string): (r: string)
    ensures r in SUPPORTED_LANGUAGES
    ensures Lower(language) in SUPPORTED_LANGUAGES ==> r == Lower(language)
    ensures Lower(language) !in SUPPORTED_LANGUAGES ==> r == "en"
  {
    if Lower(language) in SUPPORTED_LANGUAGES then Lower(language) else "en"
  }

  /** Validating twice is validating once. */
  lemma ValidateLanguageIdempotent(language: string)
    ensures ValidateLanguage(ValidateLanguage(language)) == ValidateLanguage(language)
  {
    var r := ValidateLanguage(language);
    if Lower(language) in SUPPORTED_LANGUAGES {
      LowerIdempotent(language);
    } else {
      assert Lower("en") == "en";
    }
  }

  /** The seven steps written out. */
  lemma UnrollV14Defaults(d0: Document, d1: Document, d2: Document, d3: Document, d4: Document,
                          d5: Document, d6: Document, d7: Document)
    requires d1 == AddIfMissing(d0, "language", Str("en"))
    requires d2 == AddIfMissing(d1, "game_modes", Section)
    requires d3 == AddIfMissing(d2, "fireworks", Section)
    requires d4 == AddIfMissing(d3, "messages", Section)
    requires d5 == AddIfMissing(d4, "messages.show_creative_disabled", Bool(false))
    requires d6 == AddIfMissing(d5, "hunger_consumption", Section)
    requires d7 == AddIfMissing(d6, "worlds", Section)
    ensures AddMissing(d0, V14_DEFAULTS) == d7
  {
    var d := V14_DEFAULTS;
    assert d[1..][1..][1..][1..][1..][1..][1..] == [];
  }

  /** Every stored value of `start` is still stored in `doc`. */
  predicate Keeps(start: Document, doc: Document) {
    forall k :: k in start ==> k in doc && doc[k] == start[k]
  }

  /** One step of the patch keeps what was stored, and the `needsUpdate` flag still says whether the
    * document differs from where it started. */
  lemma StepTracked(start: Document, before: Document, after: Document, path: string, v: Value,
                    flagBefore: bool, flagAfter: bool)
    requires Keeps(start, before) && (flagBefore <==> before != start)
    requires after == AddIfMissing(before, path, v)
    requires flagAfter == (flagBefore || !ContainsPath(before, path))
    ensures Keeps(start, after)
    ensures flagAfter <==> after != start
  {
    if !ContainsPath(before, path) {
      assert path !in start;
      assert path in after;
    }
  }

  /** One block of `updateV14Config`: set the path when `contains` says it is absent, and raise the
    * `needsUpdate` flag. */
  method SetIfMissing(config: Document, path: string, v: Value, needsUpdate: bool)
    returns (updated: Document, needsUpdateAfter: bool)
    ensures updated == AddIfMissing(config, path, v)
    ensures needsUpdateAfter == (needsUpdate || !ContainsPath(config, path))
  {
    updated, needsUpdateAfter := config, needsUpdate;
    if !ContainsPath(config, path) {
      updated := SetPath(config, path, v);
      needsUpdateAfter := true;
    }
  }

  /** The loaded `config.yml` of a 1.4 install, what was last written to disk, and how many backups
    * were taken. */
  class ConfigFile {
    var loaded: Document
    var onDisk: Document
    var backups: nat

    constructor(doc: Document)
      ensures loaded == doc && onDisk == doc && backups == 0
    {
      loaded := doc;
      onDisk := doc;
      backups := 0;
    }

    /** `updateV14Config`: adds each missing section or value, and only when something was added
      * backs the file up and saves it (a failed save leaves the disk as it was). */
    method UpdateV14Config(saveSucceeds: bool)
      modifies this
      ensures loaded == AddMissing(old(loaded), V14_DEFAULTS)
      ensures backups == old(backups) + (if loaded != old(loaded) then 1 else 0)
      ensures onDisk == if loaded != old(loaded) && saveSucceeds then loaded else old(onDisk)
    {
      var config := loaded;
      ghost var d0 := config;
      var needsUpdate := false;
      ghost var f0 := needsUpdate;
      config, needsUpdate := SetIfMissing(config, "language", Str("en"), needsUpdate);
      ghost var d1 := config;
      StepTracked(d0, d0, d1, "language", Str("en"), f0, needsUpdate);
      ghost var f1 := needsUpdate;
      config, needsUpdate := SetIfMissing(config, "game_modes", Section, needsUpdate);
      ghost var d2 := config;
      StepTracked(d0, d1, d2, "game_modes", Section, f1, needsUpdate);
      ghost var f2 := needsUpdate;
      config, needsUpdate := SetIfMissing(config, "fireworks", Section, needsUpdate);
      ghost var d3 := config;
      StepTracked(d0, d2, d3, "fireworks", Section, f2, needsUpdate);
      ghost var f3 := needsUpdate;
      config, needsUpdate := SetIfMissing(config, "messages", Section, needsUpdate);
      ghost var d4 := config;
      StepTracked(d0, d3, d4, "messages", Section, f3, needsUpdate);
      ghost var f4 := needsUpdate;
      config, needsUpdate := SetIfMissing(config, "messages.show_creative_disabled", Bool(false), needsUpdate);
      ghost var d5 := config;
      StepTracked(d0, d4, d5, "messages.show_creative_disabled", Bool(false), f4, needsUpdate);
      ghost var f5 := needsUpdate;
      config, needsUpdate := SetIfMissing(config, "hunger_consumption", Section, needsUpdate);
      ghost var d6 := config;
      StepTracked(d0, d5, d6, "hunger_consumption", Section, f5, needsUpdate);
      ghost var f6 := needsUpdate;
      config, needsUpdate := SetIfMissing(config, "worlds", Section, needsUpdate);
      ghost var d7 := config;
      StepTracked(d0, d6, d7, "worlds", Section, f6, needsUpdate);
      UnrollV14Defaults(d0, d1, d2, d3, d4, d5, d6, d7);
      loaded := config;
      if needsUpdate {
        backups := backups + 1;
        if saveSucceeds {
          onDisk := config;
        }
      }
    }
  }
}
