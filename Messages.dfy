/**
 * MessageUtil's message store: the built-in English defaults, the per-language files layered
 * over them, the optional small-caps pass, the action-bar toggles and the lookups that fall
 * back from the loaded messages to the defaults and finally to the key itself.
 */
module Messages {
  import opened Wrappers
  import opened Text
  import opened Config
  import opened Placeholders
  import opened Languages
  import opened SmallCaps

  /** `DEFAULT_MESSAGES`, the text used when no language file provides a key. */
  const DEFAULT_MESSAGES: map<string, string> := map[
    "press_to_boost" := "<#91f251>Press <bold><#74ea31><key:key.swapOffhand></bold> <#91f251>to boost yourself",
    "boost_activated" := "<#74ea31><bold>Boost activated!</bold>",
    "failed_update_check" := "<#fd5e5e>Failed to check for updates: <error_message>",
    "creative_mode_elytra_disabled" := "<#ffeea2>Elytra flight disabled in Creative mode.",
    "no_permission" := "<#fd5e5e>You don't have permission to use this command.",
    "command_player_only" := "<#fd5e5e>This command can only be used by players.",
    "reload_success" := "<#91f251>SpawnElytra configuration reloaded.",
    "spawnelytra_not_available" := "<#fd5e5e>SpawnElytra instance not available.",
    "help_header" := "<#ffcc33>Spawn Elytra Help",
    "help_reload" := "<#fdba5e>/spawnelytra reload <#aaa8a8>- Reload the plugin configuration",
    "help_info" := "<#fdba5e>/spawnelytra info <#aaa8a8>- Show plugin information",
    "help_update" := "<#fdba5e>/spawnelytra update <#aaa8a8>- Automatically download and install the latest version",
    "help_visualize" := "<#fdba5e>/spawnelytra visualize <#aaa8a8>- Visualize the elytra area with particles",
    "help_settings" := "<#fdba5e>/spawnelytra settings <#aaa8a8>- Open the settings menu",
    "info_header" := "<#ffcc33>Spawn Elytra Config",
    "info_version" := "<#fdba5e>Version: <#91f251><value></#91f251>",
    "info_website" := "<#fdba5e>Website: <#5db3ff><value></#5db3ff>",
    "info_world" := "<#fdba5e>World: <#91f251><value></#91f251>",
    "info_radius" := "<#fdba5e>Radius: <#91f251><value></#91f251>",
    "info_strength" := "<#fdba5e>Boost Strength: <#91f251><value></#91f251>",
    "info_boost_enabled" := "<#fdba5e>Boost Enabled: <#91f251><value></#91f251>",
    "info_activation_mode" := "<#fdba5e>Activation Mode: <#91f251><value></#91f251>",
    "info_offhand_key" := "<#fdba5e>   Offhand Key: <bold><#fdba5e><key:key.swapOffhand></#fdba5e></bold>",
    "info_f_key_launch_strength" := "<#fdba5e>   F-Key Launch Strength: <#91f251><value></#91f251>",
    "info_spawn_mode" := "<#fdba5e>Spawn Mode: <#91f251><value></#91f251>",
    "info_language" := "<#fdba5e>Language: <#91f251><value></#91f251>",
    "visualize_start" := "<#91f251>Visualizing spawn area for <#ffd166><seconds></#ffd166> seconds...",
    "visualize_end" := "<#fdba5e>Area visualization ended.",
    "visualize_stop" := "<#fdba5e>Area visualization stopped.",
    "visualize_no_area" := "<#fd5e5e>No valid spawn area configured!",
    "setup_started" := "<#91f251>Setup Help enabled. Go to position <#ffd166>1</#ffd166> and run <#5db3ff>/se set pos1</#5db3ff>.",
    "setup_already_running" := "<#ffd166>Setup Help is already active.",
    "setup_cancelled" := "<#fdba5e>Setup Help exited.",
    "setup_not_running" := "<#fd5e5e>Setup Help is not active.",
    "setup_pos1_set" := "<#91f251>Position 1 set! Now go to position <#ffd166>2</#ffd166> and run <#5db3ff>/se set pos2</#5db3ff>.",
    "setup_pos2_set" := "<#91f251>Position 2 set! Previewing area...",
    "setup_action_pos1" := "<#5db3ff>Setup: Go to pos1 and run /se set pos1",
    "setup_action_pos2" := "<#5db3ff>Setup: Go to pos2 and run /se set pos2",
    "setup_world_mismatch" := "<#fd5e5e>Both positions must be in the same world.",
    "setup_options_header" := "<#ffcc33>Setup Options",
    "setup_activation_mode_set" := "<#91f251>Activation mode: <#ffd166><value></#ffd166>",
    "setup_invalid_mode" := "<#fd5e5e>Invalid activation mode.",
    "setup_toggle_boost_label" := "Boost activated hint",
    "setup_toggle_press_label" := "\"Press F\" hint",
    "setup_toggled_boost_activated" := "<#91f251>Boost activated hint: <#ffd166><value></#ffd166>",
    "setup_toggled_press_to_boost" := "<#91f251>\"Press F\" hint: <#ffd166><value></#ffd166>",
    "setup_missing_positions" := "<#fd5e5e>Please set both positions first.",
    "setup_saved" := "<#91f251>Setup saved and applied.",
    "help_setup" := "<#fdba5e>/spawnelytra setup <#aaa8a8>- Interactive Setup Help (pos1/pos2, options)"
  ]

  /** The two places a language file may come from: `plugins/SpawnElytra/lang/<code>.yml` on disk
    * and the copy bundled in the plugin jar, each keyed by language code. */
  datatype LanguageSources = LanguageSources(files: map<string, Document>, bundled: map<string, Document>)

  /** The file on disk wins over the bundled copy; `None` when neither exists. */
  function LanguageDocument(src: LanguageSources, language: string): (r: Option<Document>)
    ensures language in src.files ==> r == Some(src.files[language])
    ensures language !in src.files && language in src.bundled ==> r == Some(src.bundled[language])
    ensures r.None? <==> language !in src.files && language !in src.bundled
  {
    if language in src.files then Some(src.files[language])
    else if language in src.bundled then Some(src.bundled[language])
    else None
  }

  /** `getKeys(false)`: the keys at the top level of a document. */
  predicate IsTopLevel(key: string) {
    forall i :: 0 <= i < |key| ==> key[i] != '.'
  }

  /** The top-level entries of a language document that have a string form, placeholders normalised. */
  function DocumentMessages(doc: Document): map<string, string>
  {
    map k | k in doc && IsTopLevel(k) && AsString(doc[k]).Some? :: PlaceholdersNormalized(AsString(doc[k]).value)
  }

  /** `loadLanguageMessages`: a language with no file at all falls back to English, and English with no
    * file gives no messages. */
  function LanguageMessages(src: LanguageSources, language: string): (m: map<string, string>)
    ensures LanguageDocument(src, language).Some? ==> m == DocumentMessages(LanguageDocument(src, language).value)
    ensures LanguageDocument(src, language).None? && language != "en" ==> m == LanguageMessages(src, "en")
    ensures LanguageDocument(src, language).None? && language == "en" ==> m == map[]
    decreases if language == "en" then 0 else 1
  {
    match LanguageDocument(src, language)
    case Some(doc) => DocumentMessages(doc)
    case None => if language != "en" then LanguageMessages(src, "en") else map[]
  }

  /** `loadMessages` puts every value through `normalizePlaceholders` once more. */
  function NormalizeAll(m: map<string, string>): map<string, string>
  {
    map k | k in m :: PlaceholdersNormalized(m[k])
  }

  /** `Map.put` of every entry of `top` over `base`: `top` wins where both have a key. */
  function Overlay(base: map<string, string>, top: map<string, string>): map<string, string>
  {
    base + top
  }

  /** The small-caps pass applies to English and German only, and only for the `small_caps` style. */
  predicate SmallCapsApplies(style: string, language: string) {
    style == "small_caps" && (language == "en" || language == "de")
  }

  function SmallCapsAll(m: map<string, string>): map<string, string>
  {
    map k | k in m :: Scan(MessageTable, OUTSIDE, m[k])
  }

  /** The language `loadMessages` settles on. */
  function ConfiguredLanguage(config: Document): string {
    CanonicalizeLanguageCode(GetStringOr(config, "language", Some("en")))
  }

  /** The style, lower-cased. */
  function ConfiguredStyle(config: Document): string {
    Lower(GetString(config, "messages.style", "classic"))
  }

  /** Defaults, then English, then the chosen language, each normalised. */
  function Merged(defaults: map<string, string>, english: map<string, string>, chosen: map<string, string>): map<string, string> {
    Overlay(Overlay(NormalizeAll(defaults), NormalizeAll(english)), NormalizeAll(chosen))
  }

  /** The merged layers for a language and a style, then the optional small caps. */
  function Layered(language: string, style: string, src: LanguageSources, defaults: map<string, string>): map<string, string> {
    var merged := Merged(defaults, LanguageMessages(src, "en"), LanguageMessages(src, language));
    if SmallCapsApplies(style, language) then SmallCapsAll(merged) else merged
  }

  /** Normalising or small-capping every value keeps the keys. */
  lemma RewritingKeepsKeys(m: map<string, string>)
    ensures NormalizeAll(m).Keys == m.Keys && SmallCapsAll(m).Keys == m.Keys
  {
  }

  lemma LayeredKeys(language: string, style: string, src: LanguageSources, defaults: map<string, string>)
    ensures Layered(language, style, src, defaults).Keys
            == defaults.Keys + LanguageMessages(src, "en").Keys + LanguageMessages(src, language).Keys
  {
    var english := LanguageMessages(src, "en");
    var chosen := LanguageMessages(src, language);
    RewritingKeepsKeys(defaults);
    RewritingKeepsKeys(english);
    RewritingKeepsKeys(chosen);
    RewritingKeepsKeys(Merged(defaults, english, chosen));
  }

  /** What `loadMessages` leaves in `messages`: a message for every default key, every English key
    * and every key of the chosen language, and no other. */
  function LoadedMessages(config: Document, src: LanguageSources, defaults: map<string, string>): (r: map<string, string>)
    ensures r.Keys == defaults.Keys + LanguageMessages(src, "en").Keys + LanguageMessages(src, ConfiguredLanguage(config)).Keys
  {
    LayeredKeys(ConfiguredLanguage(config), ConfiguredStyle(config), src, defaults);
    Layered(ConfiguredLanguage(config), ConfiguredStyle(config), src, defaults)
  }

  /** The three toggles `loadMessages` reads, with their defaults. */
  function LoadedToggles(config: Document): map<string, bool> {
    map[
      "press_to_boost" := GetBoolean(config, "messages.show_press_to_boost", true),
      "boost_activated" := GetBoolean(config, "messages.show_boost_activated", true),
      "creative_mode_elytra_disabled" := GetBoolean(config, "messages.show_creative_disabled", false)
    ]
  }

  /** The static `messages` and `messageToggles` maps of MessageUtil. */
  class MessageStore {
    /** `DEFAULT_MESSAGES`. */
    const defaults: map<string, string>
    var messages: map<string, string>
    var toggles: map<string, bool>

    constructor()
      ensures defaults == DEFAULT_MESSAGES
      ensures messages == map[] && toggles == map[]
    {
      defaults := DEFAULT_MESSAGES;
      messages := map[];
      toggles := map[];
    }

    /** `loadMessages`: both maps are cleared and refilled. */
    method LoadMessages(config: Document, src: LanguageSources)
      modifies this
      ensures messages == LoadedMessages(config, src, defaults)
      ensures toggles == LoadedToggles(config)
    {
      LoadTexts(config, src);
      LoadToggles(config);
    }

    /** The first part of `loadMessages`: the language, the style and then the messages. */
    method LoadTexts(config: Document, src: LanguageSources)
      modifies this
      ensures messages == LoadedMessages(config, src, defaults)
      ensures toggles == old(toggles)
    {
      var language := CanonicalizeLanguageCode(GetStringOr(config, "language", Some("en")));
      var style := Lower(GetString(config, "messages.style", "classic"));
      FillMessages(language, style, src);
    }

    /** The message layers and the small-caps pass. */
    method FillMessages(language: string, style: string, src: LanguageSources)
      modifies this
      ensures messages == Layered(language, style, src, defaults)
      ensures toggles == old(toggles)
    {
      messages := map[];
      var defaultsNormalized := NormalizeAll(defaults);
      messages := Overlay(messages, defaultsNormalized);
      assert messages == defaultsNormalized;
      var english := LanguageMessages(src, "en");
      messages := Overlay(messages, NormalizeAll(english));
      var chosen := LanguageMessages(src, language);
      messages := Overlay(messages, NormalizeAll(chosen));
      assert messages == Merged(defaults, english, chosen);
      if style == "small_caps" && (language == "en" || language == "de") {
        messages := SmallCapsAll(messages);
      }
    }

    /** The last part of `loadMessages`: the toggles. */
    method LoadToggles(config: Document)
      modifies this
      ensures toggles == LoadedToggles(config)
      ensures messages == old(messages)
    {
      toggles := map[];
      toggles := toggles["press_to_boost" := GetBoolean(config, "messages.show_press_to_boost", true)];
      toggles := toggles["boost_activated" := GetBoolean(config, "messages.show_boost_activated", true)];
      toggles := toggles["creative_mode_elytra_disabled" := GetBoolean(config, "messages.show_creative_disabled", false)];
    }

    /** The raw text `component` hands to MiniMessage: the loaded message, else the default, else the key. */
    function RawMessage(key: string): (r: string)
      reads this
      ensures key in messages ==> r == messages[key]
      ensures key !in messages && key in defaults ==> r == defaults[key]
      ensures key !in messages && key !in defaults ==> r == key
    {
      if key in messages then messages[key]
      else if key in defaults then defaults[key]
      else key
    }

    /** `isMessageEnabled`: a key without a toggle is enabled. */
    predicate IsMessageEnabled(key: string)
      reads this
    {
      Enabled(toggles, key)
    }

    /** `sendActionBar`: the text shown, or nothing when the key's toggle is off. */
    function ActionBarText(key: string): (r: Option<string>)
      reads this
      ensures r.Some? <==> IsMessageEnabled(key)
      ensures r.Some? ==> r.value == RawMessage(key)
    {
      if !IsMessageEnabled(key) then None else Some(RawMessage(key))
    }

    /** Once loaded, every default key has a message, so a lookup falls back to the key itself only. */
    lemma RawMessageAfterLoad(config: Document, src: LanguageSources, key: string)
      requires messages == LoadedMessages(config, src, defaults)
      ensures RawMessage(key) == if key in messages then messages[key] else key
    {
    }

    /** Once loaded, the three toggles follow the configuration and every other key is enabled. */
    lemma EnabledAfterLoad(config: Document, key: string)
      requires toggles == LoadedToggles(config)
      ensures key == "press_to_boost" ==> (IsMessageEnabled(key) <==> GetBoolean(config, "messages.show_press_to_boost", true))
      ensures key == "boost_activated" ==> (IsMessageEnabled(key) <==> GetBoolean(config, "messages.show_boost_activated", true))
      ensures key == "creative_mode_elytra_disabled" ==>
                (IsMessageEnabled(key) <==> GetBoolean(config, "messages.show_creative_disabled", false))
      ensures key !in LoadedToggles(config) ==> IsMessageEnabled(key)
    {
    }
  }

  /** `getOrDefault(key, true)` on the toggles. */
  predicate Enabled(toggles: map<string, bool>, key: string) {
    key !in toggles || toggles[key]
  }

  /** A message file's values are already normalised, so normalising them again changes nothing. */
  lemma RenormalizingIsHarmless(src: LanguageSources, language: string)
    ensures NormalizeAll(LanguageMessages(src, language)) == LanguageMessages(src, language)
    decreases if language == "en" then 0 else 1
  {
    var m := LanguageMessages(src, language);
    match LanguageDocument(src, language)
    case Some(doc) =>
      forall k | k in m
        ensures PlaceholdersNormalized(m[k]) == m[k]
      {
        PlaceholdersNormalizedIdempotent(AsString(doc[k]).value);
      }
    case None =>
      if language != "en" {
        RenormalizingIsHarmless(src, "en");
      }
  }

  /** Later layers win: the chosen language over English over the defaults; the chosen language and
    * English contribute their file values unchanged, the defaults are normalised. Small caps, when it
    * applies, is the last step. */
  lemma LaterLayersWin(config: Document, src: LanguageSources, defaults: map<string, string>, key: string)
    ensures var language := ConfiguredLanguage(config);
            var chosen := LanguageMessages(src, language);
            var english := LanguageMessages(src, "en");
            var loaded := LoadedMessages(config, src, defaults);
            && (key in loaded <==> key in chosen || key in english || key in defaults)
            && (key in loaded ==>
                  var plain := if key in chosen then chosen[key]
                               else if key in english then english[key]
                               else PlaceholdersNormalized(defaults[key]);
                  loaded[key] == if SmallCapsApplies(ConfiguredStyle(config), language)
                                 then Scan(MessageTable, OUTSIDE, plain) else plain)
  {
    RenormalizingIsHarmless(src, ConfiguredLanguage(config));
    RenormalizingIsHarmless(src, "en");
  }

  /** Without small caps every loaded message is in normal form: no placeholder is left to rewrite. */
  lemma ClassicMessagesNormalized(config: Document, src: LanguageSources, defaults: map<string, string>, key: string)
    requires !SmallCapsApplies(ConfiguredStyle(config), ConfiguredLanguage(config))
    requires key in LoadedMessages(config, src, defaults)
    ensures PlaceholdersNormalized(LoadedMessages(config, src, defaults)[key]) == LoadedMessages(config, src, defaults)[key]
  {
    LaterLayersWin(config, src, defaults, key);
    var language := ConfiguredLanguage(config);
    var chosen := LanguageMessages(src, language);
    var english := LanguageMessages(src, "en");
    if key in chosen {
      RenormalizingIsHarmless(src, language);
      assert PlaceholdersNormalized(chosen[key]) == chosen[key];
    } else if key in english {
      RenormalizingIsHarmless(src, "en");
      assert PlaceholdersNormalized(english[key]) == english[key];
    } else {
      PlaceholdersNormalizedIdempotent(defaults[key]);
    }
  }

  /** With no `messages.show_*` settings, the toggles are on, on and off. */
  lemma DefaultToggles(config: Document)
    requires "messages.show_press_to_boost" !in config
    requires "messages.show_boost_activated" !in config
    requires "messages.show_creative_disabled" !in config
    ensures Enabled(LoadedToggles(config), "press_to_boost")
    ensures Enabled(LoadedToggles(config), "boost_activated")
    ensures !Enabled(LoadedToggles(config), "creative_mode_elytra_disabled")
  {
  }
}
