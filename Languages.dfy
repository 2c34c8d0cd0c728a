/**
 * MessageUtil's language-code canonicalisation: whatever the `language` setting holds,
 * the plugin settles on one of the six languages it ships a file for.
 */
module Languages {
  import opened Wrappers
  import opened Text

  const SUPPORTED_LANGUAGES: set<string> := {"en", "de", "es", "fr", "ar", "pl"}

  predicate IsAsciiLowerLetter(c: char) {
    'a' <= c <= 'z'
  }

  /** The shape `^[a-z]{2}[-_][a-z]{2}$`, a language followed by a region. */
  predicate IsRegionTagged(s: string) {
    && |s| == 5
    && IsAsciiLowerLetter(s[0]) && IsAsciiLowerLetter(s[1])
    && (s[2] == '-' || s[2] == '_')
    && IsAsciiLowerLetter(s[3]) && IsAsciiLowerLetter(s[4])
  }

  const GERMAN_ALIASES: set<string> := {"deutsch", "german", "de_de", "de-at", "de_at"}
  const FRENCH_ALIASES: set<string> := {"fran\U{00E7}ais", "francais", "french", "fr_fr"}
  const SPANISH_ALIASES: set<string> := {"espa\U{00F1}ol", "espanol", "spanish", "es_es", "es-mx"}
  const ARABIC_ALIASES: set<string> :=
    {"\U{0627}\U{0644}\U{0639}\U{0631}\U{0628}\U{064A}\U{0629}", "arabic", "ar_sa", "ar_eg"}
  const ENGLISH_ALIASES: set<string> := {"english", "en_us", "en-gb"}
  const POLISH_ALIASES: set<string> := {"polski", "polish", "pl_pl"}

  /** Every name the `switch` recognises besides the codes themselves. */
  const ALL_ALIASES: set<string> :=
    GERMAN_ALIASES + FRENCH_ALIASES + SPANISH_ALIASES + ARABIC_ALIASES + ENGLISH_ALIASES + POLISH_ALIASES

  /** The input as the `switch` sees it: trimmed, lower-cased, and cut to two letters when region-tagged. */
  function LanguageKey(raw: string): (k: string)
    ensures |k| <= |raw|
    ensures IsRegionTagged(Lower(Trim(raw))) ==> k == Lower(Trim(raw))[..2]
    ensures !IsRegionTagged(Lower(Trim(raw))) ==> k == Lower(Trim(raw))
  {
    var s := Lower(Trim(raw));
    if IsRegionTagged(s) then s[..2] else s
  }

  /** The `switch` on the reduced key. */
  function LanguageForKey(k: string): (r: string)
    ensures r in SUPPORTED_LANGUAGES
    ensures k in SUPPORTED_LANGUAGES ==> r == k
    ensures k !in ALL_ALIASES && k !in SUPPORTED_LANGUAGES ==> r == "en"
  {
    if k in GERMAN_ALIASES then "de"
    else if k in FRENCH_ALIASES then "fr"
    else if k in SPANISH_ALIASES then "es"
    else if k in ARABIC_ALIASES then "ar"
    else if k in ENGLISH_ALIASES then "en"
    else if k in POLISH_ALIASES then "pl"
    else if |k| == 2 && k in SUPPORTED_LANGUAGES then k
    else "en"
  }

  /** `canonicalizeLanguageCode`: null is English, and so is every unrecognised name. */
  function CanonicalizeLanguageCode(input: Option<string>): (r: string)
    ensures r in SUPPORTED_LANGUAGES
    ensures input.None? ==> r == "en"
    ensures input.Some? && LanguageKey(input.value) in SUPPORTED_LANGUAGES ==> r == LanguageKey(input.value)
    ensures input.Some? && LanguageKey(input.value) !in ALL_ALIASES && LanguageKey(input.value) !in SUPPORTED_LANGUAGES
            ==> r == "en"
  {
    match input
    case None => "en"
    case Some(raw) => LanguageForKey(LanguageKey(raw))
  }

  /** A string without surrounding blanks or upper-case letters is its own key, up to the region cut. */
  lemma KeyOfPlain(raw: string)
    requires raw != [] && !IsTrimmed(raw[0]) && !IsTrimmed(raw[|raw| - 1])
    requires forall i :: 0 <= i < |raw| ==> !IsUpper(raw[i])
    ensures Lower(Trim(raw)) == raw
  {
    assert TrimStart(raw) == raw;
    assert TrimEnd(raw) == raw;
    LowerOfLowerCase(raw);
  }

  /** Every supported code canonicalises to itself. */
  lemma CanonicalCodeIsFixed(c: string)
    requires c in SUPPORTED_LANGUAGES
    ensures CanonicalizeLanguageCode(Some(c)) == c
  {
    KeyOfPlain(c);
  }

  /** The codes the function returns are fixed points, so canonicalising twice changes nothing. */
  lemma CanonicalizeIdempotent(input: Option<string>)
    ensures CanonicalizeLanguageCode(Some(CanonicalizeLanguageCode(input))) == CanonicalizeLanguageCode(input)
  {
    CanonicalCodeIsFixed(CanonicalizeLanguageCode(input));
  }

  /** The key from the trimmed and lower-cased forms of the input. */
  lemma KeyOf(raw: string, trimmed: string, lowered: string)
    requires Trim(raw) == trimmed && Lower(trimmed) == lowered
    ensures LanguageKey(raw) == if IsRegionTagged(lowered) then lowered[..2] else lowered
  {
  }

  /** The code chosen for an input is the `switch`'s answer on its key. */
  lemma CanonicalOfKey(raw: string, key: string)
    requires LanguageKey(raw) == key
    ensures CanonicalizeLanguageCode(Some(raw)) == LanguageForKey(key)
  {
  }

  /** The key is never region-tagged, so the `switch`'s own region-tagged labels are never reached. */
  lemma KeyNeverRegionTagged(raw: string)
    ensures !IsRegionTagged(LanguageKey(raw))
  {
  }

  /** A region-tagged input in lower case is cut to its first two letters before the `switch`. */
  lemma RegionTaggedKey(s: string)
    requires IsRegionTagged(s)
    ensures LanguageKey(s) == s[..2]
  {
    KeyOfPlain(s);
  }

  /** Inputs with the same key get the same code. */
  lemma SameKeySameCode(a: string, b: string)
    requires LanguageKey(a) == LanguageKey(b)
    ensures CanonicalizeLanguageCode(Some(a)) == CanonicalizeLanguageCode(Some(b))
  {
    CanonicalOfKey(a, LanguageKey(a));
    CanonicalOfKey(b, LanguageKey(a));
  }

  lemma KeyIgnoresCase(raw: string)
    ensures LanguageKey(Lower(raw)) == LanguageKey(raw)
  {
    TrimLowerCommute(raw);
    LowerIdempotent(Trim(raw));
    assert Lower(Trim(Lower(raw))) == Lower(Trim(raw));
  }

  /** Upper and lower case are not told apart. */
  lemma CanonicalizeIgnoresCase(raw: string)
    ensures CanonicalizeLanguageCode(Some(Lower(raw))) == CanonicalizeLanguageCode(Some(raw))
  {
    KeyIgnoresCase(raw);
    SameKeySameCode(Lower(raw), raw);
  }

  lemma KeyIgnoresBlanks(raw: string)
    ensures LanguageKey(Trim(raw)) == LanguageKey(raw)
  {
    TrimIdempotent(raw);
  }

  /** Blanks around the name are not significant. */
  lemma CanonicalizeIgnoresBlanks(raw: string)
    ensures CanonicalizeLanguageCode(Some(Trim(raw))) == CanonicalizeLanguageCode(Some(raw))
  {
    KeyIgnoresBlanks(raw);
    SameKeySameCode(Trim(raw), raw);
  }

  /** The `switch` on a few keys: a name, a code, an unsupported code and an unknown name. */
  lemma GermanNameKey()
    ensures LanguageForKey("deutsch") == "de"
  {
  }

  lemma FrenchNameKey()
    ensures LanguageForKey("fran\U{00E7}ais") == "fr"
  {
  }

  lemma PolishNameKey()
    ensures LanguageForKey("polski") == "pl"
  {
  }

  lemma PortugueseCodeKey()
    ensures LanguageForKey("pt") == "en"
  {
  }

  lemma UnknownNameKey()
    ensures LanguageForKey("klingon") == "en"
  {
  }

  /** Canadian French is cut to `fr`. */
  lemma CanadianFrenchKey()
    ensures LanguageKey("fr_ca") == "fr"
  {
    RegionTaggedKey("fr_ca");
    assert "fr_ca"[..2] == "fr";
  }
}
