# SpawnElytra core, modelled in Dafny

SpawnElytra is a Minecraft server plugin that gives players a temporary elytra around the spawn.
The model covers the plugin's decision logic. The classes that talk to the game server, the file
system, the network or the Adventure/MiniMessage library are not modelled. What they read or
return becomes a plain value.

Modules, one per core source file plus three helpers:

- `Scheduler` (`SchedulerUtil`) models scheduling as routing.
  - The `FOLIA` flag is true only if both region-scheduler accessors resolve.
  - Every `run*` entry point becomes a `Route`: the backend calls it tries, in order, the
    warnings it logs, the kind of handle it returns and the call whose task that handle wraps.
  - Whether a reflective call succeeds is an oracle `ok: Call -> bool`.
  - `TaskHandle` is a class around a possibly null `ScheduledTask`. Its `Cancel` sets the task's
    `cancelled` flag.
  - `ticksToMillis` is modelled with Java's `long` wrap-around written out.
- `Languages`, `Placeholders`, `SmallCaps` and `Messages` (`MessageUtil`):
  - language-code canonicalisation;
  - the camelCase to snake_case rewriting of `<Placeholder>` tags, as a `find`/`appendReplacement`
    loop proved against a recursive definition;
  - the tag-preserving small-caps scanner, as a loop over `inTag`/`depth` proved against a
    recursive scan;
  - the static `messages`/`messageToggles` maps, as the class `MessageStore`, which
    `loadMessages` clears and refills: defaults, then English, then the chosen language, then
    optional small caps, then the toggles;
  - the `component`, `isMessageEnabled` and `sendActionBar` lookups.
- `Commands` (`CommandHandler`):
  - `onCommand` as a function from the arguments, the sender (admin or not, player or not) and
    the collaborators' state to the list of actions it triggers;
  - the `visualize` duration clamp, as a method with the source's local `seconds`;
  - `onTabComplete`;
  - the `pretty*` lookups. `Main.prettyLanguage` is the same switch as `CommandHandler`'s, so
    `Commands.Pretty` with `LANGUAGE_NAMES` models both;
  - `getAuthorMessage`.
  - `applySmallCaps` is the `SmallCaps` scanner run with the command table, whose `q` differs.
- `ConfigMigration` (`ConfigUpdater`):
  - `detectConfigVersion`;
  - the v1.2 and v1.3 value extraction;
  - the generated 1.4 file, as the document it describes, with the `area_type` rule and the
    line joining;
  - `updateV14Config`, as a method on the class `ConfigFile` that adds each missing key and saves
    only when one was missing;
  - `validateLanguage`.
- `LanguageUpgrade` (`LanguageUpdater`):
  - `needsLanguageUpgrade`, as a loop with early return over the top-level keys;
  - `updateLanguages`, as a method on class `LanguageDirectory` that updates a map from file
    name to parsed content.
- `Plugin` (`Main`):
  - `validateWorldConfiguration`, over a `WorldSection` object whose fields it resets one step
    at a time;
  - the first-install welcome counter and its `markFirstInstallCompleted`;
  - `applyLanguageSetting` and `applyStyleSetting`;
  - `sanitizeMiniMessageValue` and `localizedStyleName`;
  - the release pick of `getString`, as a loop with `break`;
  - the update flag set by `VersionChecker.tick`.
- Helpers:
  - `Wrappers` holds `Option` and `Result`;
  - `Text` holds the `java.lang.String` operations the code uses: case mapping, `trim`,
    `startsWith`, `contains` and `String.valueOf`;
  - `Config` holds the Bukkit configuration getters and `set`, over a YAML document stored as a
    map from full dotted path to value.

SchedulerUtil's fallbacks are as follows:

- A warning is logged on every failed reflective call, not once per category.
- A failed entity-bound call falls back to the global region scheduler, not to the Bukkit
  scheduler.
- A failed global region call returns a handle around null and tries nothing else.
- Only the two async entry points fall back to the Bukkit scheduler.

## Model

| member | source | states |
|---|---|---|
| Scheduler.WrapLong | src/main/java/com/blaxk/spawnelytra/util/SchedulerUtil.java:217 | The `long` result of an arithmetic step: it agrees with the exact value modulo 2^64 and equals it whenever the exact value fits. |
| Scheduler.TicksToMillis | src/main/java/com/blaxk/spawnelytra/util/SchedulerUtil.java:216-218 | Zero or negative ticks give 0 ms. Ticks up to `Long.MAX_VALUE / 50` give exactly 50 ms each, which is never negative. |
| Scheduler.TicksToMillisWrapsAtMaxLong | src/main/java/com/blaxk/spawnelytra/util/SchedulerUtil.java:216-218 | The product is not exact past the bound: `Long.MAX_VALUE` ticks give -50 ms. |
| Scheduler.RegionSchedulingNeedsBoth | src/main/java/com/blaxk/spawnelytra/util/SchedulerUtil.java:17-18 | Region scheduling is on exactly when both `getGlobalRegionScheduler` and `getAsyncScheduler` resolve. If either is missing, it is off. |
| Scheduler.Direct | src/main/java/com/blaxk/spawnelytra/util/SchedulerUtil.java:52-54 | A direct Bukkit call is the only attempt and cannot fail. It logs nothing and its Bukkit handle wraps its own task. |
| Scheduler.Reflect | src/main/java/com/blaxk/spawnelytra/util/SchedulerUtil.java:57-66 | A reflective call is tried first. If it succeeds, its task is wrapped and nothing else is tried. If it fails, the fallback's calls follow it. |
| Scheduler.RunGlobalNow | src/main/java/com/blaxk/spawnelytra/util/SchedulerUtil.java:135-145 | One reflective global `run` call with a reflective handle. If it fails, the handle wraps null and exactly one warning is logged. |
| Scheduler.RunGlobalLater | src/main/java/com/blaxk/spawnelytra/util/SchedulerUtil.java:183-193 | One global `runDelayed` call with the caller's delay. If it fails, the handle wraps null, with one warning and no other backend. |
| Scheduler.RunGlobalTimer | src/main/java/com/blaxk/spawnelytra/util/SchedulerUtil.java:195-205 | One global `runAtFixedRate` call with the tick delay and period passed through unchanged. If it fails, the handle wraps null, with one warning. |
| Scheduler.RunEntityNow | src/main/java/com/blaxk/spawnelytra/util/SchedulerUtil.java:147-157 | The entity's `run` is tried first. If it fails, the global `run` follows. The Bukkit scheduler is never used. |
| Scheduler.RunEntityLater | src/main/java/com/blaxk/spawnelytra/util/SchedulerUtil.java:159-169 | The entity's `runDelayed` is tried first. If it fails, the global `runDelayed` follows with the same delay, never Bukkit. |
| Scheduler.RunEntityTimer | src/main/java/com/blaxk/spawnelytra/util/SchedulerUtil.java:171-181 | The entity's `runAtFixedRate` is tried first. If it fails, the global `runAtFixedRate` follows with the same ticks, never Bukkit. |
| Scheduler.RunAsync | src/main/java/com/blaxk/spawnelytra/util/SchedulerUtil.java:51-67 | Without region scheduling, only Bukkit's `runTaskAsynchronously` is called. With it, the async `runNow` is tried first, and if it fails the Bukkit call follows. |
| Scheduler.RunAsyncRepeating | src/main/java/com/blaxk/spawnelytra/util/SchedulerUtil.java:69-96 | The region call gets both tick values converted by `ticksToMillis`, in milliseconds. The Bukkit call, directly or as fallback, gets the original ticks. |
| Scheduler.RunNow | src/main/java/com/blaxk/spawnelytra/util/SchedulerUtil.java:98-105 | Bukkit's `runTask` with a Bukkit handle, or the global region `run` with a reflective handle and no further fallback. |
| Scheduler.RunSync | src/main/java/com/blaxk/spawnelytra/util/SchedulerUtil.java:107-109 | Its route is coherent with the oracle. The equality with `runNow` is in `RunSyncIsRunNow`. |
| Scheduler.RunAtEntityNow | src/main/java/com/blaxk/spawnelytra/util/SchedulerUtil.java:111-117 | Without region scheduling, Bukkit's `runTask`. With it, exactly the entity route. |
| Scheduler.RunAtEntityLater | src/main/java/com/blaxk/spawnelytra/util/SchedulerUtil.java:119-125 | Without region scheduling, Bukkit's `runTaskLater` with the delay. With it, exactly the delayed entity route. |
| Scheduler.RunAtEntityTimer | src/main/java/com/blaxk/spawnelytra/util/SchedulerUtil.java:127-133 | Without region scheduling, Bukkit's `runTaskTimer` with the delay and period. With it, exactly the repeating entity route. |
| Scheduler.RunSyncIsRunNow | src/main/java/com/blaxk/spawnelytra/util/SchedulerUtil.java:107-109 | `runSync` and `runNow` are the same request in every state of the oracle. |
| Scheduler.EntityEntriesWithoutRegion | src/main/java/com/blaxk/spawnelytra/util/SchedulerUtil.java:111-133 | Without region scheduling, every entity entry is the Bukkit call of the same kind with the same ticks, whatever the entity. |
| Scheduler.EntityFallbackIsGlobal | src/main/java/com/blaxk/spawnelytra/util/SchedulerUtil.java:171-181 | A failed entity timer is retried once on the global timer with identical ticks. If that fails too, the handle wraps null after exactly two warnings. |
| Scheduler.NullHandleOnlyAfterFailure | src/main/java/com/blaxk/spawnelytra/util/SchedulerUtil.java:135-205 | A handle wraps null exactly when the last call tried was a reflective call that failed. It is then a reflective handle with one warning per call tried. |
| Scheduler.NoFallbackWhenReflectionWorks | src/main/java/com/blaxk/spawnelytra/util/SchedulerUtil.java:57-169 | When every reflective call succeeds, the preferred region backend is used alone. A delayed entity task makes exactly one call, the repeating async task logs nothing, and the async task gets a reflective handle. |
| Scheduler.ScheduledTask.constructor | src/main/java/com/blaxk/spawnelytra/util/SchedulerUtil.java:58-60 | A new backend task, not yet cancelled, that remembers the call that created it. |
| Scheduler.TaskHandle.constructor | src/main/java/com/blaxk/spawnelytra/util/SchedulerUtil.java:24-35 | A handle of the given kind around the given, possibly null, task. |
| Scheduler.TaskHandle.Cancel | src/main/java/com/blaxk/spawnelytra/util/SchedulerUtil.java:24-48 | Nothing happens for a null task. A Bukkit task is cancelled. A reflective task is cancelled exactly when its `cancel` resolves, and a failed lookup changes nothing. Cancelling again keeps the task cancelled. |
| Scheduler.Submit | src/main/java/com/blaxk/spawnelytra/util/SchedulerUtil.java:51-67 | The handle a route returns: its kind is the route's, and it wraps a fresh, uncancelled task exactly when the route wrapped one. |
| Scheduler.CancelAfterTotalFailure | src/main/java/com/blaxk/spawnelytra/util/SchedulerUtil.java:147-157 | If every call fails, the caller still gets a reflective handle around null, and cancelling it is harmless. |
| Languages.LanguageKey | src/main/java/com/blaxk/spawnelytra/util/MessageUtil.java:147-151 | The key the `switch` sees is the trimmed, lower-cased input. A language-region input is cut to its first two letters. |
| Languages.LanguageForKey | src/main/java/com/blaxk/spawnelytra/util/MessageUtil.java:153-189 | The answer is always one of en, de, es, fr, ar, pl. A supported code maps to itself, and a key that is neither an alias nor a code maps to `en`. |
| Languages.CanonicalizeLanguageCode | src/main/java/com/blaxk/spawnelytra/util/MessageUtil.java:143-189 | The result is always supported. Null gives `en`. An input whose key is a code gives that code, and an unknown input gives `en`. |
| Languages.KeyOfPlain | src/main/java/com/blaxk/spawnelytra/util/MessageUtil.java:147 | Trimming and lower-casing leave an input without blanks at its ends or upper-case letters unchanged. |
| Languages.CanonicalCodeIsFixed | src/main/java/com/blaxk/spawnelytra/util/MessageUtil.java:184-188 | Every supported code canonicalises to itself. |
| Languages.CanonicalizeIdempotent | src/main/java/com/blaxk/spawnelytra/util/MessageUtil.java:143-189 | Canonicalising the result again changes nothing. |
| Languages.KeyOf | src/main/java/com/blaxk/spawnelytra/util/MessageUtil.java:147-151 | The key is computed from the trimmed, lower-cased text, cut to two letters when region-tagged. |
| Languages.CanonicalOfKey | src/main/java/com/blaxk/spawnelytra/util/MessageUtil.java:147-153 | The code of an input is the `switch`'s answer on its key. |
| Languages.KeyNeverRegionTagged | src/main/java/com/blaxk/spawnelytra/util/MessageUtil.java:149-183 | A key is never of the form `xx_yy` or `xx-yy`, so the `switch` labels `de_de`, `fr_fr`, `en-gb` and the like can never be reached. |
| Languages.RegionTaggedKey | src/main/java/com/blaxk/spawnelytra/util/MessageUtil.java:149-151 | A lower-case language-region input is cut to its language. |
| Languages.SameKeySameCode | src/main/java/com/blaxk/spawnelytra/util/MessageUtil.java:147-189 | Inputs with the same key get the same code. |
| Languages.KeyIgnoresCase | src/main/java/com/blaxk/spawnelytra/util/MessageUtil.java:147 | Lower-casing the input first does not change its key. |
| Languages.CanonicalizeIgnoresCase | src/main/java/com/blaxk/spawnelytra/util/MessageUtil.java:147 | An input and its lower-case form get the same code. |
| Languages.KeyIgnoresBlanks | src/main/java/com/blaxk/spawnelytra/util/MessageUtil.java:147 | Trimming the input first does not change its key. |
| Languages.CanonicalizeIgnoresBlanks | src/main/java/com/blaxk/spawnelytra/util/MessageUtil.java:147 | Blanks around the input do not change its code. |
| Languages.GermanNameKey | src/main/java/com/blaxk/spawnelytra/util/MessageUtil.java:154-159 | `deutsch` is German. |
| Languages.FrenchNameKey | src/main/java/com/blaxk/spawnelytra/util/MessageUtil.java:160-164 | `français` is French. |
| Languages.PolishNameKey | src/main/java/com/blaxk/spawnelytra/util/MessageUtil.java:180-183 | `polski` is Polish. |
| Languages.PortugueseCodeKey | src/main/java/com/blaxk/spawnelytra/util/MessageUtil.java:184-188 | The unsupported code `pt`, which is also the cut form of `pt_br`, is English. |
| Languages.UnknownNameKey | src/main/java/com/blaxk/spawnelytra/util/MessageUtil.java:184-188 | An unknown name is English. |
| Languages.CanadianFrenchKey | src/main/java/com/blaxk/spawnelytra/util/MessageUtil.java:149-151 | `fr_ca` is cut to `fr`. |
| Placeholders.SnakePiece | src/main/java/com/blaxk/spawnelytra/util/MessageUtil.java:285-293 | Each character contributes its lower-case form. An `_` goes before it exactly when it is upper case, is not the first character, and follows neither `_` nor `-`. |
| Placeholders.NormalizePlaceholderName | src/main/java/com/blaxk/spawnelytra/util/MessageUtil.java:281-296 | The `StringBuilder` loop builds exactly the snake_case form that `SnakeCaseShape` and `SnakeCaseIdempotent` describe. |
| Placeholders.SnakeCasePrefixShape | src/main/java/com/blaxk/spawnelytra/util/MessageUtil.java:281-296 | Each prefix of the rewriting has no upper-case letter, keeps to name characters when the input does, and grows by at most two characters per input character. |
| Placeholders.SnakeCaseShape | src/main/java/com/blaxk/spawnelytra/util/MessageUtil.java:281-296 | The rewritten name has no upper-case letter, is at least as long as the input and at most twice as long, and keeps to name characters when the input does. |
| Placeholders.SnakeCaseOfLowerCase | src/main/java/com/blaxk/spawnelytra/util/MessageUtil.java:281-296 | A name without upper-case letters is left exactly as it is. |
| Placeholders.SnakeCaseIdempotent | src/main/java/com/blaxk/spawnelytra/util/MessageUtil.java:281-296 | Rewriting a rewritten name changes nothing. |
| Placeholders.TagEnd | src/main/java/com/blaxk/spawnelytra/util/MessageUtil.java:32 | The scan over name characters ends at a `>`, if it ends at all. |
| Placeholders.MatchAt | src/main/java/com/blaxk/spawnelytra/util/MessageUtil.java:32 | A match that starts at `k` closes at a later `>`. |
| Placeholders.TagEndIsRun | src/main/java/com/blaxk/spawnelytra/util/MessageUtil.java:32 | The scan ends at `j` exactly when the text up to `j` is a run of name characters containing an upper-case letter (when one is still needed), followed by `>`. |
| Placeholders.MatchAtIsPattern | src/main/java/com/blaxk/spawnelytra/util/MessageUtil.java:32 | `MatchAt` finds exactly the pattern's matches: `<`, name characters with at least one in `[A-Z]`, then `>`. |
| Placeholders.FindPlaceholder | src/main/java/com/blaxk/spawnelytra/util/MessageUtil.java:270-272 | `find` returns the leftmost match at or after the position, or reports that there is none. |
| Placeholders.AppendReplacementStep | src/main/java/com/blaxk/spawnelytra/util/MessageUtil.java:272-275 | One round of `find` and `appendReplacement`: the text up to the match, then `<` + the snake_case name + `>`, and the rewriting resumes after the match. |
| Placeholders.AppendTailStep | src/main/java/com/blaxk/spawnelytra/util/MessageUtil.java:277 | Once `find` fails, `appendTail` copies the rest unchanged. |
| Placeholders.NormalizePlaceholders | src/main/java/com/blaxk/spawnelytra/util/MessageUtil.java:266-279 | Null gives the empty string. Otherwise the `Matcher` loop builds the rewritten message that the lemmas below describe. |
| Placeholders.PlaceholdersNormalized | src/main/java/com/blaxk/spawnelytra/util/MessageUtil.java:266-279 | Rewriting a message never makes it shorter, since each `<snake_case>` tag is at least as long as the tag it replaces. |
| Placeholders.NoPlaceholderUnchanged | src/main/java/com/blaxk/spawnelytra/util/MessageUtil.java:266-279 | A message without a match is returned unchanged. |
| Placeholders.NormalizedDecomposes | src/main/java/com/blaxk/spawnelytra/util/MessageUtil.java:272-277 | The first match splits the message: the text before it is kept, the match is replaced, and the rest is rewritten on its own. |
| Placeholders.MatchChanges | src/main/java/com/blaxk/spawnelytra/util/MessageUtil.java:272-276 | A message with a match is always changed. |
| Placeholders.UnchangedIffNoPlaceholder | src/main/java/com/blaxk/spawnelytra/util/MessageUtil.java:266-279 | A message comes back unchanged if and only if it has no `<...>` group with an upper-case letter. |
| Placeholders.LowerCaseTagKept | src/main/java/com/blaxk/spawnelytra/util/MessageUtil.java:32 | A tag whose name has no upper-case letter is copied verbatim, and scanning resumes after it. |
| Placeholders.ReplacementIsLowerTag | src/main/java/com/blaxk/spawnelytra/util/MessageUtil.java:273-275 | A replacement is a tag made of name characters with no upper-case letter. |
| Placeholders.PlaceholdersNormalizedIdempotent | src/main/java/com/blaxk/spawnelytra/util/MessageUtil.java:266-279 | Normalising twice is normalising once, which the repeated normalisation at lines 211, 214 and 260 relies on. |
| SmallCaps.Mapping | src/main/java/com/blaxk/spawnelytra/util/MessageUtil.java:41-72 | The small-caps table. Each entry is non-empty text without angle brackets, and `q` depends on which copy of the table is used. |
| SmallCaps.Transliterate | src/main/java/com/blaxk/spawnelytra/util/MessageUtil.java:325-331 | Outside a tag, a character becomes the entry of its lower-case form, or stays itself when that form has no entry. The output has no angle brackets when the input character is not one. |
| SmallCaps.Next | src/main/java/com/blaxk/spawnelytra/util/MessageUtil.java:307-320 | The scanner state keeps its invariant: inside a tag exactly when the depth is positive, and the depth is never negative. |
| SmallCaps.Emit | src/main/java/com/blaxk/spawnelytra/util/MessageUtil.java:307-332 | `<`, and every character inside a tag, are copied as they are. |
| SmallCaps.ToSmallCapsPreservingTags | src/main/java/com/blaxk/spawnelytra/util/MessageUtil.java:298-335 | Null comes back as null. Any other input, the empty one included, comes back as the scan of it from outside any tag. |
| SmallCaps.ScanLength | src/main/java/com/blaxk/spawnelytra/util/MessageUtil.java:302-333 | The output is never shorter than the input. |
| SmallCaps.PlainTextTransliterated | src/main/java/com/blaxk/spawnelytra/util/MessageUtil.java:322-332 | Text without `<` is transliterated character by character. A stray `>` outside a tag counts as ordinary text. |
| SmallCaps.InsideTagVerbatim | src/main/java/com/blaxk/spawnelytra/util/MessageUtil.java:322-323 | Inside a tag, text without angle brackets is copied and the state does not move. |
| SmallCaps.ClosingTail | src/main/java/com/blaxk/spawnelytra/util/MessageUtil.java:313-320 | Inside a tag, a `>` is copied and lowers the depth by one. |
| SmallCaps.TagCopied | src/main/java/com/blaxk/spawnelytra/util/MessageUtil.java:307-320 | A simple tag is copied verbatim, delimiters included, and the scan continues outside it. |
| SmallCaps.NestedTagCopied | src/main/java/com/blaxk/spawnelytra/util/MessageUtil.java:313-320 | A `>` that closes a nested tag does not end the outer one. The outer tag is copied whole. |
| SmallCaps.TablesDifferOnlyInQ | src/main/java/com/blaxk/spawnelytra/command/CommandHandler.java:420-454 | `getSmallCapsMapping` and `SMALL_CAPS_MAP` agree on every character except `q`. |
| SmallCaps.CopiesAgreeWithoutQ | src/main/java/com/blaxk/spawnelytra/command/CommandHandler.java:381-418 | `applySmallCaps` and `toSmallCapsPreservingTags` give the same output for text with no `q` or `Q`. |
| Messages.LanguageDocument | src/main/java/com/blaxk/spawnelytra/util/MessageUtil.java:234-247 | The file on disk wins over the bundled copy. There is no document exactly when neither exists. |
| Messages.LanguageMessages | src/main/java/com/blaxk/spawnelytra/util/MessageUtil.java:231-264 | A readable file gives its top-level string values, normalised. A missing language falls back to English, and a missing English gives no messages. |
| Messages.MessageStore.constructor | src/main/java/com/blaxk/spawnelytra/util/MessageUtil.java:30-35 | The defaults are `DEFAULT_MESSAGES`, and both maps start empty. |
| Messages.MessageStore.LoadMessages | src/main/java/com/blaxk/spawnelytra/util/MessageUtil.java:199-229 | Afterwards the messages are the layered map and the toggles are the three configured flags, whatever the maps held before. |
| Messages.MessageStore.LoadTexts | src/main/java/com/blaxk/spawnelytra/util/MessageUtil.java:199-223 | The messages are rebuilt from the configured language and style, and the toggles are untouched. |
| Messages.MessageStore.FillMessages | src/main/java/com/blaxk/spawnelytra/util/MessageUtil.java:206-223 | The messages are cleared, refilled layer by layer, and then put through small caps when that applies. |
| Messages.MessageStore.LoadToggles | src/main/java/com/blaxk/spawnelytra/util/MessageUtil.java:225-228 | The toggles are cleared and refilled from the three `messages.show_*` settings. The messages are untouched. |
| Messages.MessageStore.RawMessage | src/main/java/com/blaxk/spawnelytra/util/MessageUtil.java:337-338 | `component` uses the loaded message, else the default, else the key itself. |
| Messages.MessageStore.ActionBarText | src/main/java/com/blaxk/spawnelytra/util/MessageUtil.java:376-387 | The action bar shows the key's text exactly when its toggle is on or absent. |
| Messages.MessageStore.RawMessageAfterLoad | src/main/java/com/blaxk/spawnelytra/util/MessageUtil.java:337-338 | After loading, every default key has a message, so a lookup falls back only to the key. |
| Messages.MessageStore.EnabledAfterLoad | src/main/java/com/blaxk/spawnelytra/util/MessageUtil.java:225-228 | After loading, the three toggles follow their settings, and every other key counts as enabled. |
| Messages.RenormalizingIsHarmless | src/main/java/com/blaxk/spawnelytra/util/MessageUtil.java:257-262 | The values of a language file are already normalised, so normalising them again when merging changes nothing. |
| Messages.LoadedMessages | src/main/java/com/blaxk/spawnelytra/util/MessageUtil.java:199-223 | After loading, the keys are exactly those of the defaults, the English file and the chosen language's file, so every default key has a message. |
| Messages.LaterLayersWin | src/main/java/com/blaxk/spawnelytra/util/MessageUtil.java:206-223 | A loaded key comes from the first layer that has it: the chosen language, then English, then the defaults. Small caps is applied last, and only for style `small_caps` in `en` or `de`. |
| Messages.ClassicMessagesNormalized | src/main/java/com/blaxk/spawnelytra/util/MessageUtil.java:208-214 | Without small caps, every loaded message has no placeholder left to rewrite. |
| Messages.DefaultToggles | src/main/java/com/blaxk/spawnelytra/util/MessageUtil.java:225-228 | With no settings, press_to_boost and boost_activated are on and creative_mode_elytra_disabled is off. |
| Commands.ParseInt | src/main/java/com/blaxk/spawnelytra/command/CommandHandler.java:109 | Empty text, a lone sign or any character other than a digit after the sign gives no number. Otherwise the value is that of the digits, negated after `-`, and a number is given exactly when it fits in an `int`. |
| Commands.ParseIntRoundTrip | src/main/java/com/blaxk/spawnelytra/command/CommandHandler.java:109 | `Integer.parseInt(String.valueOf(n))` is `n` for every `int`. |
| Commands.LeadingZeros | src/main/java/com/blaxk/spawnelytra/command/CommandHandler.java:109 | Zeros in front of a digit string do not change its value. |
| Commands.ParsePadded | src/main/java/com/blaxk/spawnelytra/command/CommandHandler.java:109 | A sign followed by zero-padded digits, such as `+007` or `-0042`, reads as the signed number, as `Integer.parseInt` does. |
| Commands.ClampSeconds | src/main/java/com/blaxk/spawnelytra/command/CommandHandler.java:106-115 | The duration is always between 1 and 600. A positive parsed value is capped at 600, and anything else keeps 30. |
| Commands.VisualizeSeconds | src/main/java/com/blaxk/spawnelytra/command/CommandHandler.java:106-115 | The local `seconds`, updated in the `try`, ends as the clamped duration. |
| Commands.ClampKeepsValidSeconds | src/main/java/com/blaxk/spawnelytra/command/CommandHandler.java:106-115 | A duration from 1 to 600, written out, is taken as it is. |
| Commands.Help | src/main/java/com/blaxk/spawnelytra/command/CommandHandler.java:265-275 | The help is `help_header`, `help_reload` and `help_info`, in that order. Admins then also get `help_visualize`, `help_settings` and `help_setup`. |
| Commands.AdminHelpExtends | src/main/java/com/blaxk/spawnelytra/command/CommandHandler.java:265-275 | An admin's help begins with exactly the help everyone else gets. |
| Commands.HelpSendsListedKeys | src/main/java/com/blaxk/spawnelytra/command/CommandHandler.java:265-275 | The help sends only the listed keys, each as a plain message. An admin's help is a non-admin's followed by the three admin lines. |
| Commands.HelpKeysHaveDefaults | src/main/java/com/blaxk/spawnelytra/command/CommandHandler.java:265-275 | Every key the help sends has a built-in default text. `help_update` has one too, but the help never sends it. |
| Commands.SetActions | src/main/java/com/blaxk/spawnelytra/command/CommandHandler.java:119-144 | `set` does at most one thing. A position (1 or 2) is set only for a player, and `language` or `style` are applied only with a third argument, which is the value. |
| Commands.SetupActions | src/main/java/com/blaxk/spawnelytra/command/CommandHandler.java:185-237 | Starting the setup always marks the first install completed first. Plain `setup` starts it exactly when the player is not already in setup. An activation mode is selected only with a third argument, which is the mode. |
| Commands.Permitted | src/main/java/com/blaxk/spawnelytra/command/CommandHandler.java:71-258 | Without an available elytra, `visualize` only says so. Any visualisation lasts 1 to 600 seconds. The first install is reset only after a second argument `firstinstall`. |
| Commands.OnCommand | src/main/java/com/blaxk/spawnelytra/command/CommandHandler.java:63-262 | No arguments give the help. `info` gives the plugin info for anyone. A non-admin is only ever sent messages. An admin at the console is told a player-only subcommand needs a player. The first install is reset only by `debug firstinstall` from an admin player. |
| Commands.TabComplete | src/main/java/com/blaxk/spawnelytra/command/CommandHandler.java:321-361 | Every suggestion is a known subcommand, position, activation mode or toggle. Nothing is suggested for no arguments or past the third. A non-admin is never offered `visualize`, `settings`, `options`, `setup` or a position. |
| Commands.NonAdminOnlyToldNo | src/main/java/com/blaxk/spawnelytra/command/CommandHandler.java:70-262 | For a non-admin, every admin-only subcommand only sends `no_permission`. |
| Commands.UnknownShowsHelp | src/main/java/com/blaxk/spawnelytra/command/CommandHandler.java:259-261 | No arguments, or an unknown subcommand, shows the help and does nothing else. |
| Commands.VisualizeInRange | src/main/java/com/blaxk/spawnelytra/command/CommandHandler.java:92-117 | Every visualisation the command asks for lasts 1 to 600 seconds. |
| Commands.ShortSetIsPositionOrNothing | src/main/java/com/blaxk/spawnelytra/command/CommandHandler.java:124-136 | `set` with fewer than three arguments does nothing unless a player names `pos1` or `pos2`. |
| Commands.LongSetAppliesSetting | src/main/java/com/blaxk/spawnelytra/command/CommandHandler.java:137-144 | Otherwise `set` applies only `language` or `style` with the given value, or does nothing. |
| Commands.FilterPrefix | src/main/java/com/blaxk/spawnelytra/command/CommandHandler.java:331-333 | The kept candidates are an order-preserving subsequence, and each one starts with the prefix. Every candidate that starts with it is kept. |
| Commands.FirstWordCompletion | src/main/java/com/blaxk/spawnelytra/command/CommandHandler.java:322-333 | The first word completes to the candidates for this sender, in order, that start with the lower-cased prefix. |
| Commands.NoCompletionElsewhere | src/main/java/com/blaxk/spawnelytra/command/CommandHandler.java:334-360 | Past the first word, anything other than `setup`, `set` for admins, `setup mode` and `setup toggle` completes to nothing. |
| Commands.SetupCompletesExit | src/main/java/com/blaxk/spawnelytra/command/CommandHandler.java:337-340 | After `setup`, `exit` is offered exactly when it starts with the lower-cased prefix. |
| Commands.SetCompletesPositions | src/main/java/com/blaxk/spawnelytra/command/CommandHandler.java:341-344 | After `set`, admins are offered the positions that match the prefix, and anyone else gets nothing. |
| Commands.SetupModeCompletion | src/main/java/com/blaxk/spawnelytra/command/CommandHandler.java:349-352 | After `setup mode`, the activation modes that match the prefix are offered in order, and all four when nothing is typed. |
| Commands.SetupToggleCompletion | src/main/java/com/blaxk/spawnelytra/command/CommandHandler.java:353-356 | After `setup toggle`, `boost` and `press` are offered as far as they match the prefix. |
| Commands.Pretty | src/main/java/com/blaxk/spawnelytra/command/CommandHandler.java:30-60 | Null is `-`. A known value, in any case, gets its display name, and any other value comes back unchanged. |
| Commands.PrettyIgnoresCase | src/main/java/com/blaxk/spawnelytra/command/CommandHandler.java:32 | A value and its lower-case form get the same display name. |
| Commands.ArabicShownAsCode | src/main/java/com/blaxk/spawnelytra/Main.java:526-536 | `prettyLanguage` has no entry for Arabic, so `ar` is shown as it is. |
| Commands.AuthorMessage | src/main/java/com/blaxk/spawnelytra/command/CommandHandler.java:363-379 | The author line is put through `applySmallCaps` only for style `small_caps` in `en` or `de`. |
| Commands.AuthorLine | src/main/java/com/blaxk/spawnelytra/command/CommandHandler.java:363-379 | The line opens with the orange colour tag and ends with the author's name inside the green tag. |
| Config.GetStringOr | src/main/java/com/blaxk/spawnelytra/config/LanguageUpdater.java:75 | An absent path gives the default. A stored string gives itself, and null comes back only from a null default. |
| Config.GetString | src/main/java/com/blaxk/spawnelytra/util/MessageUtil.java:202-204 | An absent path gives the default, and a stored string gives itself. |
| Config.GetInt | src/main/java/com/blaxk/spawnelytra/Main.java:643-650 | An absent path gives the default. A stored integer is read as a Java `int`: it is always in range, agrees with the stored value modulo 2^32, and equals it when it fits. A stored double is cast as `(int)` does. Any other value gives the default. |
| Config.WrapInt | src/main/java/com/blaxk/spawnelytra/Main.java:643-650 | `intValue()` of a wider integer: always in range, congruent modulo 2^32, and exact within range. |
| Config.TruncateToInt | src/main/java/com/blaxk/spawnelytra/Main.java:643-650 | Truncation toward zero: the result is within one of the input and never further from zero. |
| Config.DoubleToInt | src/main/java/com/blaxk/spawnelytra/Main.java:643-650 | Java's `(int)` cast of a double: truncation inside the range of `int`, and `INT_MAX` or `INT_MIN` beyond it. |
| Config.GetBoolean | src/main/java/com/blaxk/spawnelytra/util/MessageUtil.java:226-228 | Only a stored boolean overrides the default. |
| Config.GetDouble | src/main/java/com/blaxk/spawnelytra/config/ConfigUpdater.java:142 | A stored double gives itself, a stored integer is widened, and an absent path gives the default. |
| Config.SetPath | src/main/java/com/blaxk/spawnelytra/config/ConfigUpdater.java:181 | The path holds the new value, and every other stored path keeps its value. |
| ConfigMigration.DetectConfigVersion | src/main/java/com/blaxk/spawnelytra/config/ConfigUpdater.java:63-77 | `worlds` gives 1.4 whatever else is present. Otherwise a 1.3 marker gives 1.3, then a 1.2 marker gives 1.2, and anything else is unknown, each in both directions. |
| ConfigMigration.WorldsDecides | src/main/java/com/blaxk/spawnelytra/config/ConfigUpdater.java:64-66 | Once `worlds` is present, setting any other key keeps the file at 1.4. |
| ConfigMigration.SpawnCoordinate | src/main/java/com/blaxk/spawnelytra/config/ConfigUpdater.java:94-104 | A coordinate is read from the `spawn` section, and falls back to its default when there is no such section. |
| ConfigMigration.MessageFlag | src/main/java/com/blaxk/spawnelytra/config/ConfigUpdater.java:111-119 | A message flag is read from the `messages` section, and is true when there is no such section. |
| ConfigMigration.V12Settings | src/main/java/com/blaxk/spawnelytra/config/ConfigUpdater.java:79-125 | A 1.2 file always migrates with boosting on, fireworks allowed and launch strength 1.5. It carries over `language` (default `de`), `mode` (default `auto`), `activation_mode`, and `radius` and `strength` as `getInt` reads them. Without a `spawn` section the corners are (0, 64, 0) and (0, 0, 0). Every number it writes is a Java `int`. |
| ConfigMigration.V13Settings | src/main/java/com/blaxk/spawnelytra/config/ConfigUpdater.java:127-175 | A 1.3 file carries over `boost_enabled`, the fireworks flag, the launch strength, the language, and `radius` and `strength` as `getInt` reads them. The spawn mode is `auto` without a `spawn` section and `spawn.mode` (default `advanced`) with one. Every number it writes is a Java `int`. |
| ConfigMigration.MigrationsDifferInNewSettings | src/main/java/com/blaxk/spawnelytra/config/ConfigUpdater.java:79-175 | The two migrations read every other setting the same way. They differ only in the spawn mode and in the boost, fireworks and launch-strength settings that 1.2 lacked. |
| ConfigMigration.OverflowingRadiusFolds | src/main/java/com/blaxk/spawnelytra/config/ConfigUpdater.java:83-131 | A stored radius of 2^32 + 5 is migrated as 5, as `getInt` reads it. |
| ConfigMigration.MigrationLanguageDefaults | src/main/java/com/blaxk/spawnelytra/config/ConfigUpdater.java:86-134 | Both migrations default the language to `de`, while an unrecognised file is regenerated in `en`. |
| ConfigMigration.AreaType | src/main/java/com/blaxk/spawnelytra/config/ConfigUpdater.java:340 | The area is `circular` if and only if x2, y2 and z2 are all 0, and `rectangular` otherwise. |
| ConfigMigration.GeneratedAreaType | src/main/java/com/blaxk/spawnelytra/config/ConfigUpdater.java:340 | The generated world section reads `circular` exactly when the second corner is all zero. |
| ConfigMigration.GeneratedLanguage | src/main/java/com/blaxk/spawnelytra/config/ConfigUpdater.java:250 | The generated file holds the language it was given, unvalidated. |
| ConfigMigration.GeneratedDocument | src/main/java/com/blaxk/spawnelytra/config/ConfigUpdater.java:249-372 | The generated file, with the world's settings under `worlds.<name>`, is detected as 1.4. |
| ConfigMigration.GeneratedReadsBack | src/main/java/com/blaxk/spawnelytra/config/ConfigUpdater.java:328-358 | Reading the generated file back with `getInt` gives the migrated radius and boost strength, for values in the range of `int`. |
| ConfigMigration.JoinThenSeparator | src/main/java/com/blaxk/spawnelytra/config/ConfigUpdater.java:372 | Joining with the separator and adding one more ends every line, the last included, with the separator. |
| ConfigMigration.UpdatePlan | src/main/java/com/blaxk/spawnelytra/config/ConfigUpdater.java:24-54 | A missing file gets the bundled default, and a file with a `worlds` section is patched in place. A 1.2 file is regenerated from its 1.2 migration, a 1.3 file from its 1.3 migration, and an unrecognised file from the defaults. |
| ConfigMigration.V12RegeneratedWithBoost | src/main/java/com/blaxk/spawnelytra/config/ConfigUpdater.java:121-124 | A 1.2 file is always regenerated with boosting on and fireworks allowed. |
| ConfigMigration.AddIfMissing | src/main/java/com/blaxk/spawnelytra/config/ConfigUpdater.java:180-183 | A present path is left alone, and only a missing one is set. |
| ConfigMigration.AddMissingKeeps | src/main/java/com/blaxk/spawnelytra/config/ConfigUpdater.java:177-213 | The patch never overwrites a stored value. |
| ConfigMigration.AddMissingCovers | src/main/java/com/blaxk/spawnelytra/config/ConfigUpdater.java:177-213 | After the patch, every listed path is present. |
| ConfigMigration.AddMissingIdentity | src/main/java/com/blaxk/spawnelytra/config/ConfigUpdater.java:177-213 | With nothing missing, the patch changes nothing. |
| ConfigMigration.ChangedIffMissing | src/main/java/com/blaxk/spawnelytra/config/ConfigUpdater.java:215-223 | The document changes, and so needs saving, if and only if some path was missing. |
| ConfigMigration.AddMissingIdempotent | src/main/java/com/blaxk/spawnelytra/config/ConfigUpdater.java:177-223 | A second run finds nothing missing and changes nothing. |
| ConfigMigration.PatchedIsV14 | src/main/java/com/blaxk/spawnelytra/config/ConfigUpdater.java:210-213 | A patched file is detected as 1.4. |
| ConfigMigration.NoneMissing | src/main/java/com/blaxk/spawnelytra/config/ConfigUpdater.java:180-213 | When all seven paths are present, the patch has nothing to add. |
| ConfigMigration.GeneratedNeedsNoPatch | src/main/java/com/blaxk/spawnelytra/config/ConfigUpdater.java:249-315 | A regenerated file already holds all seven paths, so the next start's patch leaves it unchanged. |
| ConfigMigration.ValidateLanguage | src/main/java/com/blaxk/spawnelytra/config/ConfigUpdater.java:407-412 | A supported code in any case comes back lower-cased, and anything else is `en`. |
| ConfigMigration.ValidateLanguageIdempotent | src/main/java/com/blaxk/spawnelytra/config/ConfigUpdater.java:407-412 | Validating twice is validating once. |
| ConfigMigration.SetIfMissing | src/main/java/com/blaxk/spawnelytra/config/ConfigUpdater.java:180-183 | One block of the patch: the path is set only when it was missing, and the `needsUpdate` flag is raised exactly then. |
| ConfigMigration.ConfigFile.constructor | src/main/java/com/blaxk/spawnelytra/config/ConfigUpdater.java:32 | The loaded configuration is what is on disk, and no backups have been taken yet. |
| ConfigMigration.ConfigFile.UpdateV14Config | src/main/java/com/blaxk/spawnelytra/config/ConfigUpdater.java:177-224 | Missing keys are added with their defaults. A backup is taken, and the file saved if saving succeeds, only when something was added. |
| LanguageUpgrade.NeedsLanguageUpgrade | src/main/java/com/blaxk/spawnelytra/config/LanguageUpdater.java:71-98 | The early-return loop decides exactly the upgrade rule: an unreadable file, a version other than 1.4, a retired key, or a top-level value naming `{key}`, `{currentVersion}` or `{latestVersion}`. |
| LanguageUpgrade.VersionCurrentWhen | src/main/java/com/blaxk/spawnelytra/config/LanguageUpdater.java:75-78 | A version text that, trimmed, equals `1.4` ignoring case passes the version check. |
| LanguageUpgrade.PaddedVersionAccepted | src/main/java/com/blaxk/spawnelytra/config/LanguageUpdater.java:75-94 | A file with version ` 1.4 ` and no retired content is kept. |
| LanguageUpgrade.NumericVersionAccepted | src/main/java/com/blaxk/spawnelytra/config/LanguageUpdater.java:75-78 | An unquoted `lang-version: 1.4`, read by YAML as a number, still passes. |
| LanguageUpgrade.UnversionedNeedsUpgrade | src/main/java/com/blaxk/spawnelytra/config/LanguageUpdater.java:75-78 | A file without `lang-version` is always upgraded. |
| LanguageUpgrade.StaleValueNeedsUpgrade | src/main/java/com/blaxk/spawnelytra/config/LanguageUpdater.java:86-93 | A top-level value `Update to {latestVersion}`, left by the 1.3 update checker, forces an upgrade, whatever else the file holds. |
| LanguageUpgrade.UpdateTextIsStale | src/main/java/com/blaxk/spawnelytra/config/LanguageUpdater.java:90 | A text naming `{latestVersion}` counts as stale. |
| LanguageUpgrade.RemoveAllElsewhere | src/main/java/com/blaxk/spawnelytra/config/LanguageUpdater.java:31-41 | The deprecated loop leaves every other file as it was. |
| LanguageUpgrade.RefreshAllElsewhere | src/main/java/com/blaxk/spawnelytra/config/LanguageUpdater.java:43-68 | The supported loop leaves every other file as it was. |
| LanguageUpgrade.RemoveAllGone | src/main/java/com/blaxk/spawnelytra/config/LanguageUpdater.java:31-41 | The deprecated loop only removes files, and every deprecated file is gone afterwards. |
| LanguageUpgrade.RefreshStepLocal | src/main/java/com/blaxk/spawnelytra/config/LanguageUpdater.java:43-67 | What one supported code's step does to its file depends only on that file. |
| LanguageUpgrade.RefreshAllAt | src/main/java/com/blaxk/spawnelytra/config/LanguageUpdater.java:43-68 | With distinct codes, each file ends up as its own code's step leaves it. |
| LanguageUpgrade.SupportedDistinct | src/main/java/com/blaxk/spawnelytra/config/LanguageUpdater.java:19 | The supported codes are distinct. |
| LanguageUpgrade.SupportedNotDeprecated | src/main/java/com/blaxk/spawnelytra/config/LanguageUpdater.java:19-20 | No supported code shares a file with a deprecated one. |
| LanguageUpgrade.DeprecatedRemoved | src/main/java/com/blaxk/spawnelytra/config/LanguageUpdater.java:31-41 | After the pass, `hi.yml` and `zh.yml` are gone. |
| LanguageUpgrade.OtherFilesUntouched | src/main/java/com/blaxk/spawnelytra/config/LanguageUpdater.java:31-68 | Files of any other language, for example left over by a user, are left as they were. |
| LanguageUpgrade.UpdatedBackups | src/main/java/com/blaxk/spawnelytra/config/LanguageUpdater.java:31-68 | The pass keeps the backups taken before and adds only backups of the deprecated and supported language files. |
| LanguageUpgrade.SupportedFileOutcome | src/main/java/com/blaxk/spawnelytra/config/LanguageUpdater.java:43-67 | A missing supported file is written from the bundled copy and not checked in the same pass. A stale one is replaced when a bundled copy exists, and a current one is kept. |
| LanguageUpgrade.LanguageDirectory.constructor | src/main/java/com/blaxk/spawnelytra/config/LanguageUpdater.java:25 | A directory with the given presence and files, and no backups yet. |
| LanguageUpgrade.LanguageDirectory.UpdateLanguages | src/main/java/com/blaxk/spawnelytra/config/LanguageUpdater.java:23-69 | If the folder is missing and cannot be created, nothing changes. Otherwise the directory becomes the result of the two loops. |
| Plugin.RepairedFields | src/main/java/com/blaxk/spawnelytra/Main.java:643-663 | A radius or boost strength that reads as 0 or less through `getInt`, or an activation mode outside the four, is reset to its default. A value that passes its check is kept. |
| Plugin.Repaired | src/main/java/com/blaxk/spawnelytra/Main.java:640-686 | Validation only ever adds the six checked paths to a section, and never removes a path. |
| Plugin.OverflowingRadiusReset | src/main/java/com/blaxk/spawnelytra/Main.java:643-648 | A radius stored as 2^32 reads as 0, fails the check and is reset to 100. |
| Plugin.MoreRepairedFields | src/main/java/com/blaxk/spawnelytra/Main.java:665-686 | A direction other than forward or upward, an unknown sound, or a launch strength of 0 or less is reset. A value that passes is kept. |
| Plugin.RepairedElsewhere | src/main/java/com/blaxk/spawnelytra/Main.java:640-693 | Paths other than the six checked ones are never touched. |
| Plugin.RepairedPassesChecks | src/main/java/com/blaxk/spawnelytra/Main.java:643-686 | After validation every check passes, given that the server knows the default sound. |
| Plugin.ValidSectionUntouched | src/main/java/com/blaxk/spawnelytra/Main.java:640-693 | A section that passes every check is left exactly as it was. |
| Plugin.RepairIdempotent | src/main/java/com/blaxk/spawnelytra/Main.java:640-686 | When the server knows the default sound, validating a validated section changes nothing. |
| Plugin.WorldSection.constructor | src/main/java/com/blaxk/spawnelytra/Main.java:622 | A loaded world section whose values are also what is on disk. |
| Plugin.WorldSection.Set | src/main/java/com/blaxk/spawnelytra/Main.java:646 | `set` stores the value at the path and changes nothing else. |
| Plugin.WorldSection.ResetIfInvalid | src/main/java/com/blaxk/spawnelytra/Main.java:643-648 | One check: the default is written when the field is invalid, and the `valid` flag drops exactly then. |
| Plugin.WorldSection.Save | src/main/java/com/blaxk/spawnelytra/Main.java:688-690 | What is on disk becomes the current values. |
| Plugin.NormalizedStyle | src/main/java/com/blaxk/spawnelytra/Main.java:412 | The stored style is `small_caps` exactly when the input equals it ignoring case, and `classic` otherwise. |
| Plugin.NormalizedStyleIdempotent | src/main/java/com/blaxk/spawnelytra/Main.java:412 | A stored style is its own normal form. |
| Plugin.SanitizeMiniMessageValue | src/main/java/com/blaxk/spawnelytra/Main.java:1081-1086 | Null gives the empty string. Otherwise the length is kept, the result has no angle brackets, and every other character is unchanged. |
| Plugin.SanitizeKeepsPlainText | src/main/java/com/blaxk/spawnelytra/Main.java:1081-1086 | Text without angle brackets comes through unchanged. |
| Plugin.SanitizeIdempotent | src/main/java/com/blaxk/spawnelytra/Main.java:1081-1086 | Sanitising twice is sanitising once. |
| Plugin.SanitizedIsPlainText | src/main/java/com/blaxk/spawnelytra/Main.java:1074-1076 | A sanitised error message cannot open a tag: the small-caps scanner maps it character by character. |
| Plugin.LocalizedStyleName | src/main/java/com/blaxk/spawnelytra/Main.java:794-808 | `classic` is named in the language, defaulting to English, and `small_caps` has one name in all languages. An unknown style comes back unchanged, and null is null. |
| Plugin.SmallCapsNameInItsStyle | src/main/java/com/blaxk/spawnelytra/Main.java:805 | The small-caps style's name is the phrase "small caps" put through the small-caps table. |
| Plugin.NormalizedStyleHasName | src/main/java/com/blaxk/spawnelytra/Main.java:794-808 | Every style that `applyStyleSetting` can store has a display name distinct from its code. |
| Plugin.PickRelease | src/main/java/com/blaxk/spawnelytra/Main.java:1112-1137 | The result is the number of the first entry whose type is `release` in any case. A non-array, an empty array, and an array without a release are the three errors, each with its message. |
| Plugin.Plugin.constructor | src/main/java/com/blaxk/spawnelytra/Main.java:58-64 | Five welcome shows remain, no menu has been sent and no update is known. The counter and update-flag invariants hold. |
| Plugin.Plugin.SaveConfig | src/main/java/com/blaxk/spawnelytra/Main.java:392 | What is on disk becomes the configuration in memory. |
| Plugin.Plugin.MarkFirstInstallCompleted | src/main/java/com/blaxk/spawnelytra/Main.java:375-380 | Afterwards first install is completed. It writes and saves only when the flag was not already set. |
| Plugin.Plugin.SendFirstInstallWelcome | src/main/java/com/blaxk/spawnelytra/Main.java:433-479 | A welcome is shown exactly when there is a player, first install is not completed and the counter is positive. Each showing lowers the counter by one and records the welcome as the player's last menu. The flag is marked once the counter reaches 0. The counter stays within 0..5 and adds up to 5 with the welcomes shown. |
| Plugin.Plugin.DebugResetFirstInstall | src/main/java/com/blaxk/spawnelytra/command/CommandHandler.java:248-255 | `debug firstinstall` clears and saves the flag, then re-runs the welcome. The welcome is shown exactly when shows remain, and the flag is set again when the last one is used. |
| Plugin.Plugin.ApplySetting | src/main/java/com/blaxk/spawnelytra/Main.java:390-400 | The setting is stored and saved. First install is then marked only for a player whose last menu was the welcome. |
| Plugin.Plugin.ApplyLanguageSetting | src/main/java/com/blaxk/spawnelytra/Main.java:390-409 | The lower-cased code is stored and saved. Only the first-install flag may change as well. |
| Plugin.Plugin.ApplyStyleSetting | src/main/java/com/blaxk/spawnelytra/Main.java:411-431 | `small_caps` or `classic` is stored and saved. Only the first-install flag may change as well. |
| Plugin.Plugin.ValidateWorldConfiguration | src/main/java/com/blaxk/spawnelytra/Main.java:640-693 | The result is always true. The section becomes its repaired form, and it is saved exactly when some field was reset. |
| Plugin.Plugin.Tick | src/main/java/com/blaxk/spawnelytra/Main.java:1035-1078 | Any fetched version other than 1.4, older ones included, sets the update flag and the version. 1.4 clears both. A failed fetch leaves both alone and logs the sanitised error. |
| Plugin.ValidationSteps | src/main/java/com/blaxk/spawnelytra/Main.java:640-690 | Each step reads the section the previous step left, and the six steps together give the repaired section. Some step resets a field exactly when some field of the original was invalid. |

## Left out

- I/O, YAML parsing and saving. `Files.write`, `Files.copy` and `Files.delete`, `BackupUtil`,
  resource streams and `YamlConfiguration` are all left out. Documents are maps, and each save
  is an assignment of the on-disk copy.
  - Write and delete failures (the `IOException` branches) are not modelled: every write and
    delete succeeds, except the 1.4 config save, whose outcome is a parameter.
- The legacy data-folder migration, `reload` and `performAutoUpdate` are not part of this model.
  Neither are `UpdateUtil`, bStats, the listeners, and the `SetupManager`, `SpawnElytra` and
  `PlayerDataManager` collaborators. Commands that reach these appear only as the action values
  they trigger.
- The network. The Modrinth fetch is a parameter of `Plugin.Plugin.Tick` (the version or the
  error text). `PickRelease` sees the response as a list of (type, number) records; Gson is not
  modelled.
- Adventure and MiniMessage. Message delivery, deserialisation, `plain`, `initialize`,
  `shutdown` and the Paper detection are not modelled. Messages are the raw text handed to
  MiniMessage.
- The long localised texts in `Main`'s `switch` expressions (update notices, menus, welcome
  lines) and the contents of `DEFAULT_MESSAGES` beyond their keys. They are constants, not
  behaviour.
- `sendInfoMessage`, `sendSettingsMenu`, `sendOptionsMenu` and `sendUpdateNotification` appear
  only as actions. Their rendering is not modelled.
- Threads, timing and reflection. The scheduler's guarantees about which thread runs a task, and
  anything after `cancel()` returns, are host behaviour. The backends are calls in a route, and
  success is the oracle `ok`.
- `Scheduler.RunAsyncRepeating`: the conversion is exact only up to `Long.MAX_VALUE / 50` ticks.
  Beyond that the model wraps as Java does, and `TicksToMillisWrapsAtMaxLong` shows one such
  value.
- `validateSound` in `ConfigUpdater` is not modelled: it is unused in the code shown and rests on
  Bukkit's `Sound` enum. In `validateWorldConfiguration`, the enum is the oracle
  `isSound(Upper(name))`.
- `ConfigMigration.ValidateLanguage`: modelled and proved, but no code shown calls it. The
  migrations write the language unchecked, as `GeneratedLanguage` states.
- The v1.2 migration reads `press_to_boost` and `boost_activated` custom texts that
  `generateV14Config` never receives. They are dropped, and the model does not read them.
- The generated 1.4 file is modelled as the document its lines describe. The comment lines and
  exact YAML text are not modelled; `JoinThenSeparator` covers the line joining on its own.
  Because the values are written unquoted, YAML would read some strings back as other types:
  a language `on` or `yes`, for example, comes back as a boolean. `GeneratedDocument` and
  `GeneratedLanguage` keep every written string a string.
- `Commands.OnCommand`: `onCommand` returns `true` on every path. The model leaves that constant
  result out and keeps only the actions.
- `Config.DoubleToInt`: a stored double is a finite decimal, so YAML's `.nan` (which the `(int)`
  cast turns into 0) and the infinities are not represented.
- `Text.Lower`, `Text.Upper`: case mapping covers ASCII and Latin-1 only, and
  `toUpperCase` does not turn `ß` into `SS`. Other scripts' letters have no case in the model.
  The default locale of `toUpperCase()` is taken to be a root-like one.
- `Languages.LanguageForKey`: its contract states the code and unknown-name cases. The names the
  `switch` accepts (`deutsch`, `français`, `polski` and the others) are checked by example
  lemmas rather than listed in the contract.
- `LanguageUpgrade.NeedsLanguageUpgrade`: `getKeys(false)` is the set of top-level names in the
  document. `getString` on a section or a value without a string form is the given default.
- `Config.GetString`: a section has no string form, so `getString` on a section gives the
  default. Bukkit's `toString` of other scalars is modelled only for integers, booleans and
  doubles.
- `Commands.ParseInt`: only ASCII digits are accepted; Java's `parseInt` also accepts other
  Unicode digits.
- `Config.SetPath`: setting a path below a stored scalar does not remove that scalar.
- `Plugin.Plugin.ValidateWorldConfiguration`: the world section is its own object. The fact that
  it is a view of the main configuration, which `saveConfig` writes, shows only as the section's
  on-disk copy.
- `Plugin.PickRelease`: an entry that is not a JSON object, or that lacks `version_type` or
  `version_number`, would make Gson throw. Only well-formed records are modelled.
- `Plugin.Plugin.SendFirstInstallWelcome`: the six messages sent are not modelled, only the
  counter, the last menu recorded and the flag.
- `Plugin.Plugin.ApplyLanguageSetting`, `Plugin.Plugin.ApplyStyleSetting`: the
  `MessageUtil.loadMessages` reload they trigger and the confirmation they send are not part of
  the method. `Messages.MessageStore.LoadMessages` models the reload on its own.
- `Plugin.Plugin.Tick`: the operator notifications it schedules and the warning lines it logs on
  success are not modelled.
