/**
 * CommandHandler: the `/spawnelytra` command as the list of actions it takes, its tab completion,
 * the `visualize` duration and the display-name helpers.
 */
module Commands {
  import opened Wrappers
  import opened Text
  import opened SmallCaps
  import Messages

  predicate IsDigit(c: char) {
    '0' <= c <= '9'
  }

  predicate AllDigits(s: string) {
    forall i :: 0 <= i < |s| ==> IsDigit(s[i])
  }

  /** The number a run of decimal digits spells. */
  function DigitsValue(s: string): (v: nat)
    requires AllDigits(s)
    decreases |s|
  {
    if s == [] then 0 else DigitsValue(s[..|s| - 1]) * 10 + (s[|s| - 1] as int - '0' as int)
  }

  /** The text after an optional leading sign. */
  function Unsigned(s: string): string {
    if s != [] && (s[0] == '-' || s[0] == '+') then s[1..] else s
  }

  /** `Integer.parseInt`: an optional sign and at least one digit, within the range of `int`;
    * `None` where Java throws `NumberFormatException`. */
  function ParseInt(s: string): (r: Option<int>)
    ensures r.Some? ==> InIntRange(r.value)
    ensures Unsigned(s) == [] ==> r.None?
    ensures !AllDigits(Unsigned(s)) ==> r.None?
    ensures r.Some? ==> r.value == if s[0] == '-' then 0 - DigitsValue(Unsigned(s)) else DigitsValue(Unsigned(s))
    ensures Unsigned(s) != [] && AllDigits(Unsigned(s)) && s[0] == '-' && DigitsValue(Unsigned(s)) <= -INT_MIN ==> r.Some?
    ensures Unsigned(s) != [] && AllDigits(Unsigned(s)) && s[0] != '-' && DigitsValue(Unsigned(s)) <= INT_MAX ==> r.Some?
  {
    if s == [] then None
    else
      var body := Unsigned(s);
      if body == [] || !AllDigits(body) then None
      else
        var magnitude: int := DigitsValue(body);
        var v := if s[0] == '-' then 0 - magnitude else magnitude;
        if InIntRange(v) then Some(v) else None
  }

  /** A run of zeros is worth nothing. */
  lemma {:induction false} ZerosValue(z: string)
    requires forall i :: 0 <= i < |z| ==> z[i] == '0'
    ensures AllDigits(z) && DigitsValue(z) == 0
    decreases |z|
  {
    if z != [] {
      ZerosValue(z[..|z| - 1]);
    }
  }

  /** Leading zeros do not change the number. */
  lemma {:induction false} LeadingZeros(z: string, d: string)
    requires forall i :: 0 <= i < |z| ==> z[i] == '0'
    requires AllDigits(d)
    ensures AllDigits(z + d) && DigitsValue(z + d) == DigitsValue(d)
    decreases |d|
  {
    if d == [] {
      assert z + d == z;
      ZerosValue(z);
    } else {
      var front := d[..|d| - 1];
      LeadingZeros(z, front);
      assert (z + d)[..|z + d| - 1] == z + front;
    }
  }

  /** A sign followed by zero-padded digits reads as the signed number, as `Integer.parseInt`
    * accepts `+007` and `-0042`. */
  lemma ParsePadded(sign: char, z: string, n: nat)
    requires sign == '+' || sign == '-'
    requires forall i :: 0 <= i < |z| ==> z[i] == '0'
    requires if sign == '-' then n <= -INT_MIN else n <= INT_MAX
    ensures ParseInt([sign] + z + NatToString(n)) == Some(if sign == '-' then 0 - n else n)
  {
    var digits := NatToString(n);
    DigitsOfNat(n);
    var u := z + digits;
    LeadingZeros(z, digits);
    assert u != [] && AllDigits(u) && DigitsValue(u) == n;
    ParseSigned(sign, u);
    assert [sign] + z + digits == [sign] + u;
  }

  /** A sign followed by digits in range reads as the signed value of the digits. */
  lemma ParseSigned(sign: char, u: string)
    requires sign == '+' || sign == '-'
    requires u != [] && AllDigits(u)
    requires if sign == '-' then DigitsValue(u) <= -INT_MIN else DigitsValue(u) <= INT_MAX
    ensures ParseInt([sign] + u) == Some(if sign == '-' then 0 - DigitsValue(u) else DigitsValue(u))
  {
    var s := [sign] + u;
    assert s[0] == sign && Unsigned(s) == u;
  }

  /** The digits `String.valueOf` writes read back as the same number. */
  lemma {:induction false} DigitsOfNat(n: nat)
    ensures AllDigits(NatToString(n)) && DigitsValue(NatToString(n)) == n
  {
    var s := NatToString(n);
    if n >= 10 {
      DigitsOfNat(n / 10);
      assert s[..|s| - 1] == NatToString(n / 10);
    }
  }

  /** A leading `-` before digits in range reads as the negated number. */
  lemma ParseNegative(digits: string)
    requires digits != [] && AllDigits(digits) && DigitsValue(digits) <= -INT_MIN
    ensures ParseInt("-" + digits) == Some(0 - DigitsValue(digits))
  {
    var s := "-" + digits;
    assert Unsigned(s) == digits;
  }

  /** Digits alone, in range, read as their number. */
  lemma ParseUnsigned(digits: string)
    requires digits != [] && AllDigits(digits) && DigitsValue(digits) <= INT_MAX
    ensures ParseInt(digits) == Some(DigitsValue(digits))
  {
    assert IsDigit(digits[0]);
  }

  /** `Integer.parseInt(String.valueOf(n)) == n` for every `int`. */
  lemma ParseIntRoundTrip(n: int)
    requires InIntRange(n)
    ensures ParseInt(IntToString(n)) == Some(n)
  {
    if n < 0 {
      var digits := NatToString(-n);
      DigitsOfNat(-n);
      ParseNegative(digits);
      assert IntToString(n) == "-" + digits;
    } else {
      var digits := NatToString(n);
      DigitsOfNat(n);
      ParseUnsigned(digits);
      assert IntToString(n) == digits;
    }
  }

  /** The seconds `visualize` runs for: 30 unless the second argument is a positive number, which is
    * capped at 600. */
  function ClampSeconds(args: seq<string>): (r: int)
    ensures 1 <= r <= 600
    ensures |args| >= 2 && ParseInt(args[1]).Some? && ParseInt(args[1]).value > 0 ==>
              r == if ParseInt(args[1]).value < 600 then ParseInt(args[1]).value else 600
    ensures (|args| < 2 || ParseInt(args[1]).None? || ParseInt(args[1]).value <= 0) ==> r == 30
  {
    if |args| >= 2 && ParseInt(args[1]).Some? && ParseInt(args[1]).value > 0 then
      (if ParseInt(args[1]).value < 600 then ParseInt(args[1]).value else 600)
    else 30
  }

  /** The local `seconds` of the `visualize` branch. */
  method VisualizeSeconds(args: seq<string>) returns (seconds: int)
    ensures seconds == ClampSeconds(args)
  {
    seconds := 30;
    if |args| >= 2 {
      var parsed := ParseInt(args[1]);
      if parsed.Some? && parsed.value > 0 {
        seconds := if parsed.value < 600 then parsed.value else 600;
      }
    }
  }

  /** A duration in range, written out in decimal, is taken as it is. */
  lemma ClampKeepsValidSeconds(sub: string, n: int)
    requires 1 <= n <= 600
    ensures ClampSeconds([sub, IntToString(n)]) == n
  {
    ParseIntRoundTrip(n);
  }

  /** Who runs the command: `hasPermission("spawnelytra.admin")` and `instanceof Player`. */
  datatype Sender = Sender(isAdmin: bool, isPlayer: bool)

  /** What the command's collaborators report: whether the elytra listener exists and whether the
    * player is already in the setup helper. */
  datatype Context = Context(elytraAvailable: bool, inSetup: bool)

  /** The side effects `onCommand` asks for, in order. */
  datatype Action =
    | Send(key: string)
    | SendDismissedNotice
    | Reload
    | PerformUpdate
    | Visualize(seconds: int)
    | SetPosition(index: int)
    | ApplyLanguage(value: string)
    | ApplyStyle(value: string)
    | OpenSettings
    | OpenOptions
    | MarkFirstInstallCompleted
    | StartSetup
    | ShowSetupOptions
    | ExitSetup
    | SaveSetup
    | SelectActivationMode(mode: string)
    | ToggleBoostActivatedMessage
    | TogglePressToBoostMessage
    | ResetFirstInstall
    | SendFirstInstallWelcome
    | SendInfo

  /** The help lines every sender sees, then the ones only admins see. */
  const HELP_KEYS: seq<string> := ["help_header", "help_reload", "help_info"]
  const ADMIN_HELP_KEYS: seq<string> := ["help_visualize", "help_settings", "help_setup"]

  /** `sendHelpMessage`. */
  function Help(sender: Sender): (r: seq<Action>)
    ensures |r| == if sender.isAdmin then 6 else 3
    ensures forall i :: 0 <= i < |r| ==> r[i].Send?
    ensures forall i :: 0 <= i < 3 ==> r[i] == Send(HELP_KEYS[i])
    ensures sender.isAdmin ==> forall i :: 3 <= i < 6 ==> r[i] == Send(ADMIN_HELP_KEYS[i - 3])
  {
    [Send("help_header"), Send("help_reload"), Send("help_info")]
      + (if sender.isAdmin then [Send("help_visualize"), Send("help_settings"), Send("help_setup")] else [])
  }

  /** Admins see the same help as everyone else, followed by three more lines. */
  lemma AdminHelpExtends(isPlayer: bool)
    ensures Help(Sender(true, isPlayer))[..3] == Help(Sender(false, isPlayer))
  {
  }

  /** Every help line has a default text, so the help never shows a bare key; `help_update` has
    * one too but is never sent. */
  lemma HelpKeysHaveDefaults()
    ensures forall k :: k in HELP_KEYS + ADMIN_HELP_KEYS ==> k in Messages.DEFAULT_MESSAGES
    ensures "help_update" in Messages.DEFAULT_MESSAGES && "help_update" !in HELP_KEYS + ADMIN_HELP_KEYS
  {
  }

  /** The help sends exactly the listed keys, in order, and nothing else. */
  lemma HelpSendsListedKeys(sender: Sender)
    ensures forall a :: a in Help(sender) ==> a == Send(a.key) && a.key in HELP_KEYS + ADMIN_HELP_KEYS
    ensures Help(sender) == if sender.isAdmin then Help(Sender(false, sender.isPlayer)) + [Send("help_visualize"), Send("help_settings"), Send("help_setup")] else Help(Sender(false, sender.isPlayer))
  {
  }

  /** The subcommands that need `spawnelytra.admin`. */
  const ADMIN_SUBCOMMANDS: set<string> :=
    {"reload", "update", "visualize", "set", "settings", "options", "dismiss", "setup", "debug"}

  /** The subcommands that also need a player. */
  const PLAYER_SUBCOMMANDS: set<string> := {"visualize", "settings", "options", "setup", "debug"}

  /** `set`: positions for a player, then `language` or `style` with a value. */
  function SetActions(args: seq<string>, sender: Sender): (r: seq<Action>)
    requires |args| >= 1
    ensures |r| <= 1
    ensures forall a :: a in r ==> a.SetPosition? || a.ApplyLanguage? || a.ApplyStyle?
    ensures forall a :: a in r && a.SetPosition? ==> sender.isPlayer && (a.index == 1 || a.index == 2)
    ensures forall a :: a in r && (a.ApplyLanguage? || a.ApplyStyle?) ==> |args| >= 3 && a.value == args[2]
  {
    if |args| >= 2 && sender.isPlayer && Lower(args[1]) == "pos1" then [SetPosition(1)]
    else if |args| >= 2 && sender.isPlayer && Lower(args[1]) == "pos2" then [SetPosition(2)]
    else if |args| < 3 then []
    else if Lower(args[1]) == "language" then [ApplyLanguage(args[2])]
    else if Lower(args[1]) == "style" then [ApplyStyle(args[2])]
    else []
  }

  /** `setup`, for a player with the permission. */
  function SetupActions(args: seq<string>, context: Context): (r: seq<Action>)
    requires |args| >= 1
    ensures StartSetup in r ==> r == [MarkFirstInstallCompleted, StartSetup]
    ensures |args| == 1 ==> (StartSetup in r <==> !context.inSetup)
    ensures forall a :: a in r && a.SelectActivationMode? ==> |args| >= 3 && a.mode == args[2]
  {
    if |args| == 1 then
      (if !context.inSetup then [MarkFirstInstallCompleted, StartSetup] else [ShowSetupOptions])
    else
      var sub := Lower(args[1]);
      if sub == "on" || sub == "start" then [MarkFirstInstallCompleted, StartSetup]
      else if sub == "off" || sub == "exit" || sub == "cancel" then [ExitSetup]
      else if sub == "save" then [SaveSetup]
      else if sub == "mode" then (if |args| >= 3 then [SelectActivationMode(args[2])] else [])
      else if sub == "toggle" then
        (if |args| >= 3 && Lower(args[2]) == "boost" then [ToggleBoostActivatedMessage]
         else if |args| >= 3 && Lower(args[2]) == "press" then [TogglePressToBoostMessage]
         else [])
      else [Send("help_setup")]
  }

  /** The subcommand once the permission and player checks have passed. */
  function Permitted(sub: string, args: seq<string>, sender: Sender, context: Context): (r: seq<Action>)
    requires |args| >= 1
    ensures sub == "visualize" && !context.elytraAvailable ==> r == [Send("spawnelytra_not_available")]
    ensures forall a :: a in r && a.Visualize? ==> sub == "visualize" && 1 <= a.seconds <= 600
    ensures ResetFirstInstall in r ==> |args| >= 2 && Lower(args[1]) == "firstinstall"
  {
    if sub == "reload" then [Reload, Send("reload_success")]
    else if sub == "update" then [PerformUpdate]
    else if sub == "visualize" then
      (if !context.elytraAvailable then [Send("spawnelytra_not_available")] else [Visualize(ClampSeconds(args))])
    else if sub == "set" then SetActions(args, sender)
    else if sub == "settings" then [OpenSettings]
    else if sub == "options" then [OpenOptions]
    else if sub == "dismiss" then [MarkFirstInstallCompleted, SendDismissedNotice]
    else if sub == "setup" then SetupActions(args, context)
    else if |args| >= 2 && Lower(args[1]) == "firstinstall" then [ResetFirstInstall, SendFirstInstallWelcome]
    else []
  }

  /** `onCommand`, which always returns true: help for no arguments or an unknown subcommand, the
    * permission and player checks for the guarded ones. */
  function OnCommand(args: seq<string>, sender: Sender, context: Context): (r: seq<Action>)
    ensures |args| == 0 ==> r == Help(sender)
    ensures |args| >= 1 && Lower(args[0]) == "info" ==> r == [SendInfo]
    ensures |args| >= 1 && Lower(args[0]) in PLAYER_SUBCOMMANDS && sender.isAdmin && !sender.isPlayer
            ==> r == [Send("command_player_only")]
    ensures !sender.isAdmin ==> forall a :: a in r ==> a.Send? || a == SendInfo
    ensures ResetFirstInstall in r ==>
              sender.isAdmin && sender.isPlayer && |args| >= 2 && Lower(args[0]) == "debug" && Lower(args[1]) == "firstinstall"
  {
    if |args| == 0 then Help(sender)
    else
      var sub := Lower(args[0]);
      if sub == "info" then [SendInfo]
      else if sub !in ADMIN_SUBCOMMANDS then Help(sender)
      else if !sender.isAdmin then [Send("no_permission")]
      else if sub in PLAYER_SUBCOMMANDS && !sender.isPlayer then [Send("command_player_only")]
      else Permitted(sub, args, sender, context)
  }

  /** Without the permission, a guarded subcommand only says so. */
  lemma NonAdminOnlyToldNo(args: seq<string>, sender: Sender, context: Context)
    requires |args| >= 1 && Lower(args[0]) in ADMIN_SUBCOMMANDS && !sender.isAdmin
    ensures OnCommand(args, sender, context) == [Send("no_permission")]
  {
  }

  /** A subcommand the switch does not know shows the help, like no subcommand at all. */
  lemma UnknownShowsHelp(args: seq<string>, sender: Sender, context: Context)
    requires |args| == 0 || (Lower(args[0]) != "info" && Lower(args[0]) !in ADMIN_SUBCOMMANDS)
    ensures OnCommand(args, sender, context) == Help(sender)
  {
  }

  /** `visualize` always asks for a duration between one second and ten minutes. */
  lemma VisualizeInRange(args: seq<string>, sender: Sender, context: Context, i: nat)
    requires i < |OnCommand(args, sender, context)| && OnCommand(args, sender, context)[i].Visualize?
    ensures 1 <= OnCommand(args, sender, context)[i].seconds <= 600
  {
    var sub := Lower(args[0]);
    assert sub == "visualize";
  }

  /** `set` with fewer than three arguments does nothing unless a player names a position. */
  lemma ShortSetIsPositionOrNothing(args: seq<string>, sender: Sender)
    requires 1 <= |args| < 3
    ensures SetActions(args, sender) == [] || SetActions(args, sender) == [SetPosition(1)]
            || SetActions(args, sender) == [SetPosition(2)]
    ensures SetActions(args, sender) != [] ==> sender.isPlayer && |args| == 2
  {
  }

  /** With a value, `set` changes only the language or the style. */
  lemma LongSetAppliesSetting(args: seq<string>, sender: Sender)
    requires |args| >= 3
    requires !(sender.isPlayer && (Lower(args[1]) == "pos1" || Lower(args[1]) == "pos2"))
    ensures SetActions(args, sender) == (if Lower(args[1]) == "language" then [ApplyLanguage(args[2])]
                                         else if Lower(args[1]) == "style" then [ApplyStyle(args[2])]
                                         else [])
  {
  }

  /** `a` is `b` with some elements left out, order kept. */
  predicate IsSubsequence(a: seq<string>, b: seq<string>)
    decreases |b|
  {
    if a == [] then true
    else if b == [] then false
    else (a[0] == b[0] && IsSubsequence(a[1..], b[1..])) || IsSubsequence(a, b[1..])
  }

  /** `stream().filter(c -> c.startsWith(prefix))`. */
  function FilterPrefix(candidates: seq<string>, prefix: string): (r: seq<string>)
    ensures IsSubsequence(r, candidates)
    ensures forall i :: 0 <= i < |r| ==> StartsWith(r[i], prefix)
    ensures forall c :: c in candidates && StartsWith(c, prefix) ==> c in r
    ensures forall c :: c in r ==> c in candidates
    decreases |candidates|
  {
    if candidates == [] then []
    else
      var rest := FilterPrefix(candidates[1..], prefix);
      if StartsWith(candidates[0], prefix) then [candidates[0]] + rest else rest
  }

  /** The first-word candidates: `reload` and `info`, and the admin subcommands for admins. */
  function FirstWordCandidates(isAdmin: bool): seq<string> {
    ["reload", "info"] + (if isAdmin then ["visualize", "settings", "options", "setup"] else [])
  }

  const ACTIVATION_MODES: seq<string> := ["double_jump", "auto", "sneak_jump", "f_key"]

  /** Every word tab completion can offer. */
  const ALL_COMPLETIONS: set<string> :=
    {"reload", "info", "visualize", "settings", "options", "setup", "exit", "pos1", "pos2",
     "double_jump", "auto", "sneak_jump", "f_key", "boost", "press"}

  /** `onTabComplete`. */
  function TabComplete(args: seq<string>, sender: Sender): (r: seq<string>)
    ensures forall c :: c in r ==> c in ALL_COMPLETIONS
    ensures |args| == 0 || |args| > 3 ==> r == []
    ensures !sender.isAdmin ==> forall c :: c in r ==> c in {"reload", "info", "exit", "double_jump", "auto", "sneak_jump", "f_key", "boost", "press"}
  {
    if |args| == 1 then FilterPrefix(FirstWordCandidates(sender.isAdmin), Lower(args[0]))
    else if |args| == 2 then
      (if Lower(args[0]) == "setup" then FilterPrefix(["exit"], Lower(args[1]))
       else if Lower(args[0]) == "set" && sender.isAdmin then FilterPrefix(["pos1", "pos2"], Lower(args[1]))
       else [])
    else if |args| == 3 && Lower(args[0]) == "setup" then
      (if Lower(args[1]) == "mode" then FilterPrefix(ACTIVATION_MODES, Lower(args[2]))
       else if Lower(args[1]) == "toggle" then FilterPrefix(["boost", "press"], Lower(args[2]))
       else [])
    else []
  }

  /** The first word completes to the candidates, in order, that start with the lower-cased prefix. */
  lemma FirstWordCompletion(args: seq<string>, sender: Sender)
    requires |args| == 1
    ensures IsSubsequence(TabComplete(args, sender), FirstWordCandidates(sender.isAdmin))
    ensures forall c :: c in FirstWordCandidates(sender.isAdmin) ==>
              (c in TabComplete(args, sender) <==> StartsWith(c, Lower(args[0])))
  {
  }

  /** Past the first word only `setup`, `set` (for admins), `setup mode` and `setup toggle` complete. */
  lemma NoCompletionElsewhere(args: seq<string>, sender: Sender)
    requires |args| >= 2
    requires |args| == 2 ==> Lower(args[0]) != "setup" && !(Lower(args[0]) == "set" && sender.isAdmin)
    requires |args| == 3 ==> Lower(args[0]) != "setup" || (Lower(args[1]) != "mode" && Lower(args[1]) != "toggle")
    ensures TabComplete(args, sender) == []
  {
  }

  /** `setup <prefix>` offers `exit` exactly when it starts with the lower-cased prefix. */
  lemma SetupCompletesExit(p: string, sender: Sender)
    ensures TabComplete(["setup", p], sender) == if StartsWith("exit", Lower(p)) then ["exit"] else []
  {
    assert Lower("setup") == "setup";
  }

  /** `set <prefix>` offers the two positions to admins and nothing to anyone else. */
  lemma SetCompletesPositions(p: string, sender: Sender)
    ensures !sender.isAdmin ==> TabComplete(["set", p], sender) == []
    ensures sender.isAdmin ==> forall c :: c in ["pos1", "pos2"] ==>
              (c in TabComplete(["set", p], sender) <==> StartsWith(c, Lower(p)))
  {
    assert Lower("set") == "set";
    assert Lower("set") != "setup";
  }

  /** `setup mode <prefix>` offers the activation modes that start with the prefix, in order, and
    * all four when nothing is typed yet. */
  lemma SetupModeCompletion(args: seq<string>, sender: Sender)
    requires |args| == 3 && Lower(args[0]) == "setup" && Lower(args[1]) == "mode"
    ensures IsSubsequence(TabComplete(args, sender), ACTIVATION_MODES)
    ensures forall c :: c in ACTIVATION_MODES ==>
              (c in TabComplete(args, sender) <==> StartsWith(c, Lower(args[2])))
    ensures Lower(args[2]) == "" ==> TabComplete(args, sender) == ACTIVATION_MODES
  {
    if Lower(args[2]) == "" {
      FilterEmptyPrefix(ACTIVATION_MODES);
    }
  }

  /** `setup toggle <prefix>` offers `boost` and `press` as far as they start with the prefix. */
  lemma SetupToggleCompletion(args: seq<string>, sender: Sender)
    requires |args| == 3 && Lower(args[0]) == "setup" && Lower(args[1]) == "toggle"
    ensures IsSubsequence(TabComplete(args, sender), ["boost", "press"])
    ensures forall c :: c in ["boost", "press"] ==>
              (c in TabComplete(args, sender) <==> StartsWith(c, Lower(args[2])))
  {
    assert Lower(args[1]) != "mode";
  }

  /** Every prefix matches the empty string, so an empty first word offers every candidate. */
  lemma {:induction false} FilterEmptyPrefix(candidates: seq<string>)
    ensures FilterPrefix(candidates, "") == candidates
    decreases |candidates|
  {
    if candidates != [] {
      FilterEmptyPrefix(candidates[1..]);
      assert StartsWith(candidates[0], "");
      assert candidates == [candidates[0]] + candidates[1..];
    }
  }

  /** `prettyActivation`, `prettySpawnMode`, `prettyLanguage`: null is `-`, a known value (in any case)
    * has a display name, anything else is shown as given. */
  function Pretty(names: map<string, string>, value: Option<string>): (r: string)
    ensures value.None? ==> r == "-"
    ensures value.Some? && Lower(value.value) in names ==> r == names[Lower(value.value)]
    ensures value.Some? && Lower(value.value) !in names ==> r == value.value
  {
    match value
    case None => "-"
    case Some(v) => if Lower(v) in names then names[Lower(v)] else v
  }

  const ACTIVATION_NAMES: map<string, string> :=
    map["double_jump" := "Double Jump", "auto" := "Auto", "sneak_jump" := "Sneak Jump", "f_key" := "F Key"]
  const SPAWN_MODE_NAMES: map<string, string> := map["auto" := "Auto", "advanced" := "Advanced"]
  const LANGUAGE_NAMES: map<string, string> :=
    map["de" := "Deutsch", "en" := "English", "es" := "Espa\U{00F1}ol", "fr" := "Fran\U{00E7}ais", "pl" := "Polski"]

  /** Case does not matter to the lookup: a value and its lower-case form get the same display name. */
  lemma PrettyIgnoresCase(names: map<string, string>, v: string)
    requires Lower(v) in names
    ensures Pretty(names, Some(v)) == Pretty(names, Some(Lower(v)))
  {
    LowerIdempotent(v);
  }

  /** Arabic has no entry in `prettyLanguage`, so its code is shown as it is. */
  lemma ArabicShownAsCode()
    ensures Pretty(LANGUAGE_NAMES, Some("ar")) == "ar"
  {
    assert Lower("ar") == "ar";
  }

  /** `getAuthorMessage` before the small-caps step. */
  function AuthorLine(language: string, author: string): (r: string)
    ensures StartsWith(r, "<#fdba5e>")
    ensures |r| >= |author| + 10 && r[|r| - |author| - 10..] == author + "</#91f251>"
  {
    var title := if language == "fr" then "Auteur" else if language in {"de", "es", "pl"} then "Autor" else "Author";
    "<#fdba5e>" + title + ": <#91f251>" + author + "</#91f251>"
  }

  /** `getAuthorMessage`: `applySmallCaps` only for the small-caps style in English or German. */
  function AuthorMessage(language: string, author: string, style: string): (r: string)
    ensures style == "small_caps" && (language == "en" || language == "de") ==>
              r == Scan(CommandTable, OUTSIDE, AuthorLine(language, author))
    ensures !(style == "small_caps" && (language == "en" || language == "de")) ==> r == AuthorLine(language, author)
  {
    var text := AuthorLine(language, author);
    if style == "small_caps" && (language == "en" || language == "de") then Scan(CommandTable, OUTSIDE, text) else text
  }
}
