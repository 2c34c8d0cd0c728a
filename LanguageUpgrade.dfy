/**
 * LanguageUpdater: which language files under `lang/` are out of date, and the pass that removes
 * the retired languages, writes the missing ones and refreshes the stale ones from the bundled copies.
 */
module LanguageUpgrade {
  import opened Wrappers
  import opened Text
  import opened Config

  const SUPPORTED: seq<string> := ["en", "de", "es", "fr", "ar", "pl"]
  const DEPRECATED: seq<string> := ["hi", "zh"]
  const REQUIRED_LANG_VERSION: string := "1.4"

  /** The part of a path before its first `.`. */
  function FirstSegment(path: string): (r: string)
    ensures |r| <= |path| && r == path[..|r|]
    ensures '.' !in r
    decreases |path|
  {
    if path == [] || path[0] == '.' then [] else [path[0]] + FirstSegment(path[1..])
  }

  /** `getKeys(false)`: the names at the top of the document. */
  function TopLevelKeys(doc: Document): set<string> {
    set k | k in doc :: FirstSegment(k)
  }

  /** A value written for the 1.3 update checker, whose placeholders 1.4 no longer fills. */
  predicate HasStalePlaceholder(v: string) {
    Contains(v, "{key}") || Contains(v, "{currentVersion}") || Contains(v, "{latestVersion}")
  }

  /** `lang-version` is present and, trimmed, is `1.4` in any case. */
  predicate VersionCurrent(doc: Document) {
    var v := GetStringOr(doc, "lang-version", None);
    v.Some? && EqualsIgnoreCase(REQUIRED_LANG_VERSION, Trim(v.value))
  }

  /** The keys only the 1.3 update checker used. */
  predicate HasRetiredKey(doc: Document) {
    "new_version_available" in TopLevelKeys(doc) || "update_to_version" in TopLevelKeys(doc)
      || "download_link" in TopLevelKeys(doc)
  }

  predicate HasStaleValue(doc: Document) {
    exists k :: k in TopLevelKeys(doc) && HasStalePlaceholder(GetString(doc, k, ""))
  }

  /** When a file must be replaced: it could not be read (`None`), its version is not 1.4, it has a
    * retired key, or one of its top-level values still uses a retired placeholder. */
  predicate NeedsUpgrade(file: Option<Document>) {
    file.None? || !VersionCurrent(file.value) || HasRetiredKey(file.value) || HasStaleValue(file.value)
  }

  /** `needsLanguageUpgrade`, with `None` for a file whose loading throws. */
  method NeedsLanguageUpgrade(file: Option<Document>) returns (needed: bool)
    ensures needed == NeedsUpgrade(file)
  {
    if file.None? {
      return true;
    }
    var cfg := file.value;
    var fileVersion := GetStringOr(cfg, "lang-version", None);
    if fileVersion.None? || !EqualsIgnoreCase(REQUIRED_LANG_VERSION, Trim(fileVersion.value)) {
      return true;
    }
    var keys := TopLevelKeys(cfg);
    if "new_version_available" in keys || "update_to_version" in keys || "download_link" in keys {
      return true;
    }
    var remaining := keys;
    while remaining != {}
      invariant remaining <= keys
      invariant forall k :: k in keys && k !in remaining ==> !HasStalePlaceholder(GetString(cfg, k, ""))
      decreases |remaining|
    {
      var k :| k in remaining;
      var v := GetString(cfg, k, "");
      if Contains(v, "{key}") || Contains(v, "{currentVersion}") || Contains(v, "{latestVersion}") {
        return true;
      }
      remaining := remaining - {k};
    }
    return false;
  }

  /** A version text that trims to `1.4` is current. */
  lemma VersionCurrentWhen(doc: Document, text: string)
    requires GetStringOr(doc, "lang-version", None) == Some(text) && Trim(text) == "1.4"
    ensures VersionCurrent(doc)
  {
  }

  lemma TrimPaddedVersion()
    ensures Trim(" 1.4 ") == "1.4"
  {
    assert TrimStart(" 1.4 ") == "1.4 ";
    assert TrimEnd("1.4 ") == "1.4";
  }

  /** A file written for 1.4 with a padded version and no retired content is kept. */
  lemma PaddedVersionAccepted(doc: Document)
    requires "lang-version" in doc && doc["lang-version"] == Str(" 1.4 ")
    requires !HasRetiredKey(doc) && !HasStaleValue(doc)
    ensures !NeedsUpgrade(Some(doc))
  {
    TrimPaddedVersion();
    VersionCurrentWhen(doc, " 1.4 ");
  }

  lemma TrimPlainVersion()
    ensures Trim("1.4") == "1.4"
  {
  }

  /** YAML reads an unquoted `lang-version: 1.4` as a number; its text still matches. */
  lemma NumericVersionAccepted(doc: Document)
    requires "lang-version" in doc && doc["lang-version"] == Dbl(Decimal(1.4, "1.4"))
    requires !HasRetiredKey(doc) && !HasStaleValue(doc)
    ensures !NeedsUpgrade(Some(doc))
  {
    TrimPlainVersion();
    VersionCurrentWhen(doc, "1.4");
  }

  /** Without `lang-version` a file is always replaced. */
  lemma UnversionedNeedsUpgrade(doc: Document)
    requires "lang-version" !in doc
    ensures NeedsUpgrade(Some(doc))
  {
  }

  /** A top-level value naming `{latestVersion}` forces an upgrade whatever else the file holds. */
  lemma StaleValueNeedsUpgrade(doc: Document, k: string)
    requires k in doc && '.' !in k && doc[k] == Str("Update to {latestVersion}")
    ensures NeedsUpgrade(Some(doc))
  {
    UpdateTextIsStale();
    FirstSegmentWithoutDot(k);
    assert k in TopLevelKeys(doc);
    assert GetString(doc, k, "") == "Update to {latestVersion}";
  }

  lemma UpdateTextIsStale()
    ensures HasStalePlaceholder("Update to {latestVersion}")
  {
    var v := "Update to {latestVersion}";
    assert v[10..] == "{latestVersion}";
    assert Contains(v[10..], "{latestVersion}");
    ContainsAt(v, "{latestVersion}");
    ContainsAt(v[10..], "{latestVersion}");
    assert OccursAt(v, "{latestVersion}", 10);
  }

  lemma {:induction false} FirstSegmentWithoutDot(k: string)
    requires '.' !in k
    ensures FirstSegment(k) == k
    decreases |k|
  {
    if k != [] {
      FirstSegmentWithoutDot(k[1..]);
      assert k == [k[0]] + k[1..];
    }
  }

  /** The file for a language code. */
  function FileName(code: string): string {
    code + ".yml"
  }

  lemma FileNameInjective(a: string, b: string)
    requires FileName(a) == FileName(b)
    ensures a == b
  {
    assert a == FileName(a)[..|a|];
    assert b == FileName(b)[..|b|];
  }

  /** The `lang` directory: each file's parsed content (`None` when it cannot be read) and the
    * backups taken, in order. */
  datatype LangDir = LangDir(files: map<string, Option<Document>>, backups: seq<string>)

  /** The deprecated-language loop, one code: back up and delete the file if it is there. */
  function RemoveStep(d: LangDir, code: string): LangDir {
    var n := FileName(code);
    if n in d.files then LangDir(d.files - {n}, d.backups + [n]) else d
  }

  /** The supported-language loop, one code: a missing file is written from the bundled copy (when
    * there is one) and not checked; an existing one is backed up and rewritten when it needs it. */
  function RefreshStep(d: LangDir, code: string, bundled: map<string, Document>): LangDir {
    var n := FileName(code);
    if n !in d.files then
      (if code in bundled then LangDir(d.files[n := Some(bundled[code])], d.backups) else d)
    else if NeedsUpgrade(d.files[n]) then
      LangDir(if code in bundled then d.files[n := Some(bundled[code])] else d.files, d.backups + [n])
    else d
  }

  /** The files of the given codes, in order. */
  function FileNames(codes: seq<string>): (r: seq<string>)
    ensures |r| == |codes|
    ensures forall i :: 0 <= i < |codes| ==> r[i] == FileName(codes[i])
    decreases |codes|
  {
    if codes == [] then [] else FileNames(codes[..|codes| - 1]) + [FileName(codes[|codes| - 1])]
  }

  /** Backups only get added, and only of the files of the listed codes. */
  predicate BackupsOnlyOf(before: LangDir, after: LangDir, codes: seq<string>) {
    before.backups <= after.backups &&
    forall i :: |before.backups| <= i < |after.backups| ==> after.backups[i] in FileNames(codes)
  }

  function RemoveAll(d: LangDir, codes: seq<string>): LangDir
    decreases |codes|
  {
    if codes == [] then d else RemoveStep(RemoveAll(d, codes[..|codes| - 1]), codes[|codes| - 1])
  }

  function RefreshAll(d: LangDir, codes: seq<string>, bundled: map<string, Document>): LangDir
    decreases |codes|
  {
    if codes == [] then d else RefreshStep(RefreshAll(d, codes[..|codes| - 1], bundled), codes[|codes| - 1], bundled)
  }

  /** `updateLanguages` once the directory exists. */
  function Updated(d: LangDir, bundled: map<string, Document>): LangDir {
    RefreshAll(RemoveAll(d, DEPRECATED), SUPPORTED, bundled)
  }

  lemma {:induction false} RemoveAllBackups(d: LangDir, codes: seq<string>)
    ensures BackupsOnlyOf(d, RemoveAll(d, codes), codes)
    decreases |codes|
  {
    if codes != [] {
      RemoveAllBackups(d, codes[..|codes| - 1]);
    }
  }

  lemma {:induction false} RefreshAllBackups(d: LangDir, codes: seq<string>, bundled: map<string, Document>)
    ensures BackupsOnlyOf(d, RefreshAll(d, codes, bundled), codes)
    decreases |codes|
  {
    if codes != [] {
      RefreshAllBackups(d, codes[..|codes| - 1], bundled);
    }
  }

  /** The pass keeps the backups taken before and adds only backups of the deprecated and the
    * supported language files. */
  lemma UpdatedBackups(d: LangDir, bundled: map<string, Document>)
    ensures d.backups <= Updated(d, bundled).backups
    ensures forall i :: |d.backups| <= i < |Updated(d, bundled).backups| ==>
              Updated(d, bundled).backups[i] in FileNames(DEPRECATED) + FileNames(SUPPORTED)
  {
    var removed := RemoveAll(d, DEPRECATED);
    RemoveAllBackups(d, DEPRECATED);
    RefreshAllBackups(removed, SUPPORTED, bundled);
  }

  /** Two directories hold the same thing under `n`. */
  predicate SameAt(f: map<string, Option<Document>>, g: map<string, Option<Document>>, n: string) {
    (n in f <==> n in g) && (n in f ==> f[n] == g[n])
  }

  /** Codes whose files are not `n` leave `n` alone. */
  lemma {:induction false} RemoveAllElsewhere(d: LangDir, codes: seq<string>, n: string)
    requires forall i :: 0 <= i < |codes| ==> FileName(codes[i]) != n
    ensures SameAt(RemoveAll(d, codes).files, d.files, n)
    decreases |codes|
  {
    if codes != [] {
      RemoveAllElsewhere(d, codes[..|codes| - 1], n);
    }
  }

  lemma {:induction false} RefreshAllElsewhere(d: LangDir, codes: seq<string>, bundled: map<string, Document>, n: string)
    requires forall i :: 0 <= i < |codes| ==> FileName(codes[i]) != n
    ensures SameAt(RefreshAll(d, codes, bundled).files, d.files, n)
    decreases |codes|
  {
    if codes != [] {
      RefreshAllElsewhere(d, codes[..|codes| - 1], bundled, n);
    }
  }

  /** Removal never adds a file, and every listed code's file is gone afterwards. */
  lemma {:induction false} RemoveAllGone(d: LangDir, codes: seq<string>)
    ensures RemoveAll(d, codes).files.Keys <= d.files.Keys
    ensures forall i :: 0 <= i < |codes| ==> FileName(codes[i]) !in RemoveAll(d, codes).files
    decreases |codes|
  {
    if codes != [] {
      var init := codes[..|codes| - 1];
      RemoveAllGone(d, init);
      forall i | 0 <= i < |init|
        ensures FileName(codes[i]) !in RemoveAll(d, codes).files
      {
        assert codes[i] == init[i];
      }
    }
  }

  /** A step's effect on its own file depends only on what that file held. */
  lemma RefreshStepLocal(d: LangDir, e: LangDir, code: string, bundled: map<string, Document>)
    requires SameAt(d.files, e.files, FileName(code))
    ensures SameAt(RefreshStep(d, code, bundled).files, RefreshStep(e, code, bundled).files, FileName(code))
  {
  }

  /** With distinct codes, the file of a listed code ends up as that code's own step makes it. */
  lemma {:induction false} RefreshAllAt(d: LangDir, codes: seq<string>, bundled: map<string, Document>, j: nat)
    requires j < |codes|
    requires forall a, b :: 0 <= a < b < |codes| ==> codes[a] != codes[b]
    ensures SameAt(RefreshAll(d, codes, bundled).files, RefreshStep(d, codes[j], bundled).files, FileName(codes[j]))
    decreases |codes|
  {
    var init := codes[..|codes| - 1];
    var n := FileName(codes[j]);
    if j == |codes| - 1 {
      forall i | 0 <= i < |init|
        ensures FileName(init[i]) != n
      {
        if FileName(init[i]) == n {
          FileNameInjective(init[i], codes[j]);
        }
      }
      RefreshAllElsewhere(d, init, bundled, n);
      RefreshStepLocal(RefreshAll(d, init, bundled), d, codes[j], bundled);
    } else {
      assert codes[j] == init[j];
      RefreshAllAt(d, init, bundled, j);
      if FileName(codes[|codes| - 1]) == n {
        FileNameInjective(codes[|codes| - 1], codes[j]);
      }
    }
  }

  lemma SupportedDistinct()
    ensures forall a, b :: 0 <= a < b < |SUPPORTED| ==> SUPPORTED[a] != SUPPORTED[b]
  {
  }

  /** No supported code shares a file with a deprecated one. */
  lemma SupportedNotDeprecated(c: string)
    requires c in SUPPORTED
    ensures forall i :: 0 <= i < |DEPRECATED| ==> FileName(DEPRECATED[i]) != FileName(c)
  {
    forall i | 0 <= i < |DEPRECATED|
      ensures FileName(DEPRECATED[i]) != FileName(c)
    {
      if FileName(DEPRECATED[i]) == FileName(c) {
        FileNameInjective(DEPRECATED[i], c);
      }
    }
  }

  /** After the pass the retired `hi` and `zh` files are gone. */
  lemma DeprecatedRemoved(d: LangDir, bundled: map<string, Document>, i: nat)
    requires i < |DEPRECATED|
    ensures FileName(DEPRECATED[i]) !in Updated(d, bundled).files
  {
    RemoveAllGone(d, DEPRECATED);
    forall j | 0 <= j < |SUPPORTED|
      ensures FileName(SUPPORTED[j]) != FileName(DEPRECATED[i])
    {
      SupportedNotDeprecated(SUPPORTED[j]);
    }
    RefreshAllElsewhere(RemoveAll(d, DEPRECATED), SUPPORTED, bundled, FileName(DEPRECATED[i]));
  }

  /** Files of other languages, supported or not, are left as they were. */
  lemma OtherFilesUntouched(d: LangDir, bundled: map<string, Document>, n: string)
    requires forall i :: 0 <= i < |DEPRECATED| ==> FileName(DEPRECATED[i]) != n
    requires forall i :: 0 <= i < |SUPPORTED| ==> FileName(SUPPORTED[i]) != n
    ensures SameAt(Updated(d, bundled).files, d.files, n)
  {
    RemoveAllElsewhere(d, DEPRECATED, n);
    RefreshAllElsewhere(RemoveAll(d, DEPRECATED), SUPPORTED, bundled, n);
  }

  /** What happens to a supported language's file: a missing one is written from the bundled copy
    * (it stays missing when there is none), a stale one is replaced by the bundled copy, and a
    * current one is kept. */
  lemma SupportedFileOutcome(d: LangDir, bundled: map<string, Document>, j: nat)
    requires j < |SUPPORTED|
    ensures var c := SUPPORTED[j]; var n := FileName(c); var after := Updated(d, bundled).files;
            && (n !in d.files && c in bundled ==> n in after && after[n] == Some(bundled[c]))
            && (n !in d.files && c !in bundled ==> n !in after)
            && (n in d.files && NeedsUpgrade(d.files[n]) && c in bundled ==> n in after && after[n] == Some(bundled[c]))
            && (n in d.files && !(NeedsUpgrade(d.files[n]) && c in bundled) ==> n in after && after[n] == d.files[n])
  {
    var c := SUPPORTED[j];
    var removed := RemoveAll(d, DEPRECATED);
    SupportedNotDeprecated(c);
    RemoveAllElsewhere(d, DEPRECATED, FileName(c));
    SupportedDistinct();
    RefreshAllAt(removed, SUPPORTED, bundled, j);
    RefreshStepLocal(removed, d, c, bundled);
  }

  /** The plugin's `lang` folder: whether it exists, its files, and the backups taken from it. */
  class LanguageDirectory {
    var present: bool
    var files: map<string, Option<Document>>
    var backups: seq<string>

    constructor(present: bool, files: map<string, Option<Document>>)
      ensures this.present == present && this.files == files && backups == []
    {
      this.present := present;
      this.files := files;
      backups := [];
    }

    /** `updateLanguages`: nothing happens when the folder is missing and cannot be created;
      * otherwise the deprecated files go first, then each supported one is written or refreshed. */
    method UpdateLanguages(canCreate: bool, bundled: map<string, Document>)
      modifies this
      ensures !old(present) && !canCreate ==> present == old(present) && files == old(files) && backups == old(backups)
      ensures old(present) || canCreate ==>
                present && LangDir(files, backups) == Updated(LangDir(old(files), old(backups)), bundled)
    {
      if !present {
        if !canCreate {
          return;
        }
        present := true;
      }
      ghost var start := LangDir(files, backups);
      for i := 0 to |DEPRECATED|
        invariant present && LangDir(files, backups) == RemoveAll(start, DEPRECATED[..i])
      {
        var name := FileName(DEPRECATED[i]);
        if name in files {
          backups := backups + [name];
          files := files - {name};
        }
        assert DEPRECATED[..i + 1][..i] == DEPRECATED[..i];
      }
      assert DEPRECATED[..|DEPRECATED|] == DEPRECATED;
      ghost var removed := LangDir(files, backups);
      for i := 0 to |SUPPORTED|
        invariant present && LangDir(files, backups) == RefreshAll(removed, SUPPORTED[..i], bundled)
      {
        var code := SUPPORTED[i];
        var name := FileName(code);
        assert SUPPORTED[..i + 1][..i] == SUPPORTED[..i];
        if name !in files {
          if code in bundled {
            files := files[name := Some(bundled[code])];
          }
        } else {
          var stale := NeedsLanguageUpgrade(files[name]);
          if stale {
            backups := backups + [name];
            if code in bundled {
              files := files[name := Some(bundled[code])];
            }
          }
        }
      }
      assert SUPPORTED[..|SUPPORTED|] == SUPPORTED;
    }
  }
}
