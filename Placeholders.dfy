/**
 * MessageUtil's placeholder rewriting: every `<camelCase>` tag of a message (the pattern
 * `<([A-Za-z0-9_-]*[A-Z][A-Za-z0-9_-]*)>`) is rewritten to `<camel_case>`, and every other
 * character is copied.
 */
module Placeholders {
  import opened Wrappers
  import opened Text

  /** `[A-Za-z0-9_-]` */
  predicate IsNameChar(c: char) {
    ('A' <= c <= 'Z') || ('a' <= c <= 'z') || ('0' <= c <= '9') || c == '_' || c == '-'
  }

  /** `[A-Z]` */
  predicate IsAsciiUpper(c: char) {
    'A' <= c <= 'Z'
  }

  // ===== Placeholder names =====

  /** What `normalizePlaceholderName` appends for the character at index `i`. */
  function SnakePiece(name: string, i: nat): (r: string)
    requires i < |name|
    ensures |r| == 1 || |r| == 2
    ensures r[|r| - 1] == LowerChar(name[i])
    ensures |r| == 2 <==> IsUpper(name[i]) && i > 0 && name[i - 1] != '_' && name[i - 1] != '-'
    ensures |r| == 2 ==> r[0] == '_'
  {
    if IsUpper(name[i]) && i > 0 && name[i - 1] != '_' && name[i - 1] != '-' then ['_', LowerChar(name[i])]
    else [LowerChar(name[i])]
  }

  /** The rewriting of the first `n` characters of `name`. */
  function SnakeCasePrefix(name: string, n: nat): string
    requires n <= |name|
  {
    if n == 0 then [] else SnakeCasePrefix(name, n - 1) + SnakePiece(name, n - 1)
  }

  /** The camelCase to snake_case rewriting of a placeholder name. */
  function SnakeCase(name: string): string {
    SnakeCasePrefix(name, |name|)
  }

  /** `normalizePlaceholderName`, appending to a `StringBuilder`. */
  method NormalizePlaceholderName(name: string) returns (r: string)
    ensures r == SnakeCase(name)
  {
    var builder := "";
    for i := 0 to |name|
      invariant builder == SnakeCasePrefix(name, i)
    {
      var c := name[i];
      if IsUpper(c) {
        if i > 0 && name[i - 1] != '_' && name[i - 1] != '-' {
          builder := builder + "_";
        }
        builder := builder + [LowerChar(c)];
      } else {
        builder := builder + [LowerChar(c)];
      }
    }
    r := builder;
  }

  /**
   * An `_` goes in before an upper-case letter exactly when it is not the first character
   * and does not follow `_` or `-`; the letter itself is lower-cased.
   */
  lemma SnakeCaseAppends(name: string, n: nat)
    requires n < |name|
    ensures SnakeCasePrefix(name, n + 1) ==
            SnakeCasePrefix(name, n) +
            (if IsUpper(name[n]) && n > 0 && name[n - 1] != '_' && name[n - 1] != '-' then "_" else "") +
            [LowerChar(name[n])]
  {
  }

  /** The rewritten name has no upper-case letter, keeps to name characters, and grows by at most one `_` per character. */
  lemma {:induction false} SnakeCasePrefixShape(name: string, n: nat)
    requires n <= |name|
    ensures var r := SnakeCasePrefix(name, n);
            && n <= |r| <= 2 * n
            && (forall i :: 0 <= i < |r| ==> !IsUpper(r[i]))
            && ((forall i :: 0 <= i < n ==> IsNameChar(name[i])) ==> forall i :: 0 <= i < |r| ==> IsNameChar(r[i]))
  {
    if n > 0 {
      SnakeCasePrefixShape(name, n - 1);
      var p := SnakeCasePrefix(name, n - 1);
      var q := SnakePiece(name, n - 1);
      assert SnakeCasePrefix(name, n) == p + q;
      assert forall i :: 0 <= i < |q| ==> !IsUpper(q[i]);
      if forall i :: 0 <= i < n ==> IsNameChar(name[i]) {
        assert IsNameChar(name[n - 1]);
        assert forall i :: 0 <= i < |q| ==> IsNameChar(q[i]);
      }
    }
  }

  lemma SnakeCaseShape(name: string)
    ensures var r := SnakeCase(name);
            && |name| <= |r| <= 2 * |name|
            && (forall i :: 0 <= i < |r| ==> !IsUpper(r[i]))
            && ((forall i :: 0 <= i < |name| ==> IsNameChar(name[i])) ==> forall i :: 0 <= i < |r| ==> IsNameChar(r[i]))
  {
    SnakeCasePrefixShape(name, |name|);
  }

  /** A name with no upper-case letter is left exactly as it is. */
  lemma {:induction false} SnakeCaseOfLowerCase(name: string, n: nat)
    requires n <= |name|
    requires forall i :: 0 <= i < |name| ==> !IsUpper(name[i])
    ensures SnakeCasePrefix(name, n) == name[..n]
  {
    if n > 0 {
      SnakeCaseOfLowerCase(name, n - 1);
      assert name[..n] == name[..n - 1] + [name[n - 1]];
    }
  }

  /** Rewriting an already rewritten name changes nothing. */
  lemma SnakeCaseIdempotent(name: string)
    ensures SnakeCase(SnakeCase(name)) == SnakeCase(name)
  {
    var r := SnakeCase(name);
    SnakeCaseShape(name);
    SnakeCaseOfLowerCase(r, |r|);
    assert r[..|r|] == r;
  }

  // ===== Matching the pattern =====

  /**
   * Scanning name characters from `i` towards a closing `>`: the index of that `>`, provided
   * an ASCII upper-case letter is met on the way (`upper` records one met before `i`).
   */
  function TagEnd(s: string, i: nat, upper: bool): (r: Option<nat>)
    requires i <= |s|
    ensures r.Some? ==> i <= r.value < |s| && s[r.value] == '>'
    decreases |s| - i
  {
    if i == |s| then None
    else if s[i] == '>' then (if upper then Some(i) else None)
    else if IsNameChar(s[i]) then TagEnd(s, i + 1, upper || IsAsciiUpper(s[i]))
    else None
  }

  /** The index of the closing `>` of a match that starts at `k`, if one does. */
  function MatchAt(s: string, k: nat): (r: Option<nat>)
    requires k < |s|
    ensures r.Some? ==> k < r.value < |s| && s[r.value] == '>'
  {
    if s[k] == '<' then TagEnd(s, k + 1, false) else None
  }

  predicate PlaceholderAt(s: string, k: nat)
    requires k < |s|
  {
    MatchAt(s, k).Some?
  }

  /** The pattern read literally: between `k` and `j` only name characters, and an upper-case letter among them. */
  predicate IsPlaceholder(s: string, k: nat, j: nat)
    requires k < j < |s|
  {
    && s[k] == '<' && s[j] == '>'
    && (forall m :: k < m < j ==> IsNameChar(s[m]))
    && (exists m :: k < m < j && IsAsciiUpper(s[m]))
  }

  lemma {:induction false} TagEndIsRun(s: string, i: nat, upper: bool, j: nat)
    requires i <= j < |s|
    ensures TagEnd(s, i, upper) == Some(j) <==>
            && s[j] == '>'
            && (forall m :: i <= m < j ==> IsNameChar(s[m]))
            && (upper || exists m :: i <= m < j && IsAsciiUpper(s[m]))
    decreases j - i
  {
    if i < j {
      if s[i] != '>' && IsNameChar(s[i]) {
        TagEndIsRun(s, i + 1, upper || IsAsciiUpper(s[i]), j);
        if exists m :: i <= m < j && IsAsciiUpper(s[m]) {
          var m :| i <= m < j && IsAsciiUpper(s[m]);
          assert m == i || (i + 1 <= m < j && IsAsciiUpper(s[m]));
        }
      }
    }
  }

  /** `MatchAt` finds exactly the pattern's matches; since `>` is not a name character a match has one end. */
  lemma MatchAtIsPattern(s: string, k: nat, j: nat)
    requires k < j < |s|
    ensures MatchAt(s, k) == Some(j) <==> IsPlaceholder(s, k, j)
  {
    TagEndIsRun(s, k + 1, false, j);
  }

  /** `matcher.find()` from index `from`: the leftmost match at or after it. */
  function FindPlaceholder(s: string, from: nat): (r: Option<nat>)
    requires from <= |s|
    ensures r.Some? ==> from <= r.value < |s| && PlaceholderAt(s, r.value)
    ensures r.Some? ==> forall m :: from <= m < r.value ==> !PlaceholderAt(s, m)
    ensures r.None? ==> forall m :: from <= m < |s| ==> !PlaceholderAt(s, m)
    decreases |s| - from
  {
    if from == |s| then None
    else if PlaceholderAt(s, from) then Some(from)
    else FindPlaceholder(s, from + 1)
  }

  // ===== The rewritten message =====

  /** The rewritten message: each match becomes `<snake_case>`, all else is copied; scanning resumes after a match. */
  function PlaceholdersNormalized(s: string): (r: string)
    ensures |s| <= |r|
    decreases |s|
  {
    if s == [] then []
    else if PlaceholderAt(s, 0) then
      var j := MatchAt(s, 0).value;
      Replacement(s, 0, j) + PlaceholdersNormalized(s[j + 1..])
    else [s[0]] + PlaceholdersNormalized(s[1..])
  }

  /** `"<" + normalized + ">"` for the match from `k` to `j`. */
  function Replacement(s: string, k: nat, j: nat): (r: string)
    requires k < j <= |s|
    ensures |r| >= j - k + 1
  {
    SnakeCaseShape(s[k + 1..j]);
    "<" + SnakeCase(s[k + 1..j]) + ">"
  }

  // ----- Matches in a suffix -----

  lemma {:induction false} TagEndDrop(s: string, d: nat, i: nat, upper: bool)
    requires d <= i <= |s|
    ensures TagEnd(s[d..], i - d, upper).Some? == TagEnd(s, i, upper).Some?
    ensures TagEnd(s, i, upper).Some? ==> TagEnd(s[d..], i - d, upper).value == TagEnd(s, i, upper).value - d
    decreases |s| - i
  {
    if i < |s| {
      assert s[d..][i - d] == s[i];
      if s[i] != '>' && IsNameChar(s[i]) {
        TagEndDrop(s, d, i + 1, upper || IsAsciiUpper(s[i]));
      }
    }
  }

  /** The suffix from `d` has the message's matches at or after `d`, moved by `d`. */
  lemma MatchAtDrop(s: string, d: nat, k: nat)
    requires d <= k < |s|
    ensures PlaceholderAt(s[d..], k - d) == PlaceholderAt(s, k)
    ensures PlaceholderAt(s, k) ==> MatchAt(s[d..], k - d).value == MatchAt(s, k).value - d
  {
    assert s[d..][k - d] == s[k];
    TagEndDrop(s, d, k + 1, false);
  }

  /** Rewriting from a position without a match copies its character. */
  lemma CopyStep(s: string, k: nat)
    requires k < |s| && !PlaceholderAt(s, k)
    ensures PlaceholdersNormalized(s[k..]) == [s[k]] + PlaceholdersNormalized(s[k + 1..])
  {
    MatchAtDrop(s, k, k);
    assert s[k..][1..] == s[k + 1..];
  }

  /** Rewriting from a match puts its replacement first and resumes after it. */
  lemma MatchStep(s: string, k: nat, j: nat)
    requires k < j < |s| && MatchAt(s, k) == Some(j)
    ensures PlaceholdersNormalized(s[k..]) == Replacement(s, k, j) + PlaceholdersNormalized(s[j + 1..])
  {
    var u := s[k..];
    MatchAtDrop(s, k, k);
    assert MatchAt(u, 0) == Some(j - k);
    assert u[1..j - k] == s[k + 1..j];
    assert u[j - k + 1..] == s[j + 1..];
  }

  /** Text with no match in `[from, to)` is copied unchanged. */
  lemma {:induction false} SkipUnmatched(s: string, from: nat, to: nat)
    requires from <= to <= |s|
    requires forall m :: from <= m < to ==> !PlaceholderAt(s, m)
    ensures PlaceholdersNormalized(s[from..]) == s[from..to] + PlaceholdersNormalized(s[to..])
    decreases |s| - from
  {
    if from < to {
      SkipUnmatched(s, from + 1, to);
      CopyStep(s, from);
      assert s[from..to] == [s[from]] + s[from + 1..to];
      ConcatAssoc([s[from]], s[from + 1..to], PlaceholdersNormalized(s[to..]));
    } else {
      assert s[from..to] == [];
    }
  }

  /** One round of `find` and `appendReplacement`: the text up to the next match, then its replacement. */
  lemma AppendReplacementStep(s: string, pos: nat, k: nat, j: nat)
    requires pos <= |s| && FindPlaceholder(s, pos) == Some(k) && MatchAt(s, k) == Some(j)
    ensures PlaceholdersNormalized(s[pos..]) == s[pos..k] + Replacement(s, k, j) + PlaceholdersNormalized(s[j + 1..])
  {
    SkipUnmatched(s, pos, k);
    MatchStep(s, k, j);
    ConcatAssoc(s[pos..k], Replacement(s, k, j), PlaceholdersNormalized(s[j + 1..]));
  }

  /** `appendTail`: once `find` fails, the rest is copied. */
  lemma AppendTailStep(s: string, pos: nat)
    requires pos <= |s| && FindPlaceholder(s, pos).None?
    ensures PlaceholdersNormalized(s[pos..]) == s[pos..]
  {
    SkipUnmatched(s, pos, |s|);
    assert s[pos..|s|] == s[pos..];
    assert s[|s|..] == [];
  }

  lemma Regroup(b: string, x: string, y: string, z: string, mid: string, whole: string)
    requires b + mid == whole && mid == x + y + z
    ensures b + x + y + z == whole
  {
    ConcatAssoc4(b, x, y, z);
  }

  /** Before the loop: the buffer is empty and the whole message is still to be read. */
  lemma LoopStart(s: string, whole: string)
    requires whole == PlaceholdersNormalized(s)
    ensures "" + PlaceholdersNormalized(s[0..]) == whole
  {
    assert s[0..] == s;
  }

  /** One round of the loop: the buffer grows by the text before the match and its replacement. */
  lemma LoopStep(s: string, buffer: string, pos: nat, whole: string, k: nat, j: nat, name: string)
    requires pos <= |s| && FindPlaceholder(s, pos) == Some(k) && MatchAt(s, k) == Some(j)
    requires buffer + PlaceholdersNormalized(s[pos..]) == whole
    requires name == SnakeCase(s[k + 1..j])
    ensures buffer + s[pos..k] + ("<" + name + ">") + PlaceholdersNormalized(s[j + 1..]) == whole
  {
    AppendReplacementStep(s, pos, k, j);
    Regroup(buffer, s[pos..k], Replacement(s, k, j), PlaceholdersNormalized(s[j + 1..]), PlaceholdersNormalized(s[pos..]), whole);
  }

  /** After the loop: `appendTail` completes the buffer. */
  lemma LoopEnd(s: string, buffer: string, pos: nat, whole: string)
    requires pos <= |s| && FindPlaceholder(s, pos).None?
    requires buffer + PlaceholdersNormalized(s[pos..]) == whole
    ensures buffer + s[pos..] == whole
  {
    AppendTailStep(s, pos);
  }

  /**
   * `normalizePlaceholders`: a `Matcher` loop with `appendReplacement` and `appendTail`
   * over a `StringBuffer`; null gives the empty string.
   */
  method NormalizePlaceholders(input: Option<string>) returns (r: string)
    ensures input.None? ==> r == ""
    ensures input.Some? ==> r == PlaceholdersNormalized(input.value)
  {
    if input.None? {
      return "";
    }
    var s := input.value;
    ghost var whole := PlaceholdersNormalized(s);
    var buffer := "";
    var pos := 0;
    LoopStart(s, whole);
    while true
      invariant pos <= |s|
      invariant buffer + PlaceholdersNormalized(s[pos..]) == whole
      decreases |s| - pos
    {
      var found := FindPlaceholder(s, pos);
      if found.None? {
        break;
      }
      var k := found.value;
      var j := MatchAt(s, k).value;
      var name := NormalizePlaceholderName(s[k + 1..j]);
      LoopStep(s, buffer, pos, whole, k, j, name);
      buffer := buffer + s[pos..k] + ("<" + name + ">");
      pos := j + 1;
    }
    LoopEnd(s, buffer, pos, whole);
    r := buffer + s[pos..];
  }

  /** Without a match the message is returned unchanged. */
  lemma NoPlaceholderUnchanged(s: string)
    requires FindPlaceholder(s, 0).None?
    ensures PlaceholdersNormalized(s) == s
  {
    AppendTailStep(s, 0);
    assert s[0..] == s;
  }

  /** The leftmost match splits the message: the text before it, its replacement, then the rest rewritten on its own. */
  lemma NormalizedDecomposes(s: string, k: nat, j: nat)
    requires FindPlaceholder(s, 0) == Some(k) && MatchAt(s, k) == Some(j)
    ensures PlaceholdersNormalized(s) == s[..k] + Replacement(s, k, j) + PlaceholdersNormalized(s[j + 1..])
  {
    AppendReplacementStep(s, 0, k, j);
    assert s[0..] == s;
    assert s[0..k] == s[..k];
  }

  /** Inside `p + t + rest`, the characters after `p` are those of `t`. */
  lemma MiddleAt(p: string, t: string, rest: string, i: nat)
    requires |p| <= i < |p| + |t|
    ensures (p + t + rest)[i] == t[i - |p|]
  {
  }

  /** Where a match has an upper-case letter, its replacement has a name character that is not one. */
  lemma ReplacementDiffers(s: string, k: nat, j: nat) returns (m: nat)
    requires k < j < |s| && MatchAt(s, k) == Some(j)
    ensures k < m < j && IsAsciiUpper(s[m])
    ensures m - k < |Replacement(s, k, j)| && !IsAsciiUpper(Replacement(s, k, j)[m - k])
  {
    MatchAtIsPattern(s, k, j);
    m :| k < m < j && IsAsciiUpper(s[m]);
    var name := s[k + 1..j];
    SnakeCaseShape(name);
    var n := SnakeCase(name);
    assert ("<" + n + ">")[m - k] == n[m - k - 1];
    assert !IsUpper(n[m - k - 1]);
  }

  /** A match always changes the message: its upper-case letter is covered by a character of the rewritten name. */
  lemma MatchChanges(s: string, k: nat, j: nat)
    requires FindPlaceholder(s, 0) == Some(k) && MatchAt(s, k) == Some(j)
    ensures PlaceholdersNormalized(s) != s
  {
    NormalizedDecomposes(s, k, j);
    var m := ReplacementDiffers(s, k, j);
    MiddleAt(s[..k], Replacement(s, k, j), PlaceholdersNormalized(s[j + 1..]), m);
    assert PlaceholdersNormalized(s)[m] != s[m];
  }

  /** Only matches change: a message rewritten to itself had no match, and one without a match is kept. */
  lemma UnchangedIffNoPlaceholder(s: string)
    ensures PlaceholdersNormalized(s) == s <==> FindPlaceholder(s, 0).None?
  {
    var found := FindPlaceholder(s, 0);
    if found.None? {
      NoPlaceholderUnchanged(s);
    } else {
      MatchChanges(s, found.value, MatchAt(s, found.value).value);
    }
  }

  // ----- Agreement on a common prefix -----

  /** A scan that meets a character that stops it cannot see past it. */
  lemma {:induction false} TagEndAgree(s: string, t: string, i: nat, upper: bool, m: nat)
    requires i <= m < |s| && m < |t|
    requires s[..m + 1] == t[..m + 1] && s[m] != '>' && !IsNameChar(s[m])
    ensures TagEnd(s, i, upper) == TagEnd(t, i, upper)
    decreases m - i
  {
    assert s[i] == s[..m + 1][i] == t[..m + 1][i] == t[i];
    if i < m && s[i] != '>' && IsNameChar(s[i]) {
      TagEndAgree(s, t, i + 1, upper || IsAsciiUpper(s[i]), m);
    }
  }

  lemma PlaceholderAtAgree(s: string, t: string, k: nat, m: nat)
    requires k < m < |s| && m < |t|
    requires s[..m + 1] == t[..m + 1] && s[m] != '>' && !IsNameChar(s[m])
    ensures PlaceholderAt(s, k) == PlaceholderAt(t, k)
  {
    assert s[k] == s[..m + 1][k] == t[..m + 1][k] == t[k];
    TagEndAgree(s, t, k + 1, false, m);
  }

  // ----- Idempotence -----

  /** The characters of a name with no upper-case letter and its closing `>` do not complete a match. */
  lemma {:induction false} TagEndOverLowerName(u: string, i: nat, e: nat)
    requires 0 < i <= e < |u| && u[e] == '>'
    requires forall m :: i <= m < e ==> IsNameChar(u[m]) && !IsAsciiUpper(u[m])
    ensures TagEnd(u, i, false).None?
    decreases e - i
  {
    if i < e {
      TagEndOverLowerName(u, i + 1, e);
    }
  }

  /** A tag whose name has no upper-case letter is not a match: it is copied and scanning resumes after it. */
  lemma LowerCaseTagKept(n: string, y: string)
    requires forall i :: 0 <= i < |n| ==> IsNameChar(n[i]) && !IsAsciiUpper(n[i])
    ensures PlaceholdersNormalized("<" + n + ">" + y) == "<" + n + ">" + PlaceholdersNormalized(y)
  {
    var tag := "<" + n + ">";
    var u := tag + y;
    forall m | 0 <= m < |tag|
      ensures !PlaceholderAt(u, m)
    {
      if m == 0 {
        assert forall i :: 1 <= i < |n| + 1 ==> u[i] == n[i - 1];
        TagEndOverLowerName(u, 1, |n| + 1);
      } else if m <= |n| {
        assert u[m] == n[m - 1];
      } else {
        assert u[m] == '>';
      }
    }
    SkipUnmatched(u, 0, |tag|);
    assert u[0..] == u;
    assert u[0..|tag|] == tag;
    assert u[|tag|..] == y;
  }

  /** The replacement of a match: a tag with an all-lower-case name. */
  lemma ReplacementIsLowerTag(s: string, k: nat, j: nat)
    requires k < j < |s| && MatchAt(s, k) == Some(j)
    ensures var n := SnakeCase(s[k + 1..j]);
            && Replacement(s, k, j) == "<" + n + ">"
            && forall i :: 0 <= i < |n| ==> IsNameChar(n[i]) && !IsAsciiUpper(n[i])
  {
    MatchAtIsPattern(s, k, j);
    var name := s[k + 1..j];
    assert forall i :: 0 <= i < |name| ==> IsNameChar(name[i]) by {
      forall i | 0 <= i < |name|
        ensures IsNameChar(name[i])
      {
        assert name[i] == s[k + 1 + i];
      }
    }
    SnakeCaseShape(name);
  }

  /** Rewriting the text before a match again leaves it as it was: the match starts where the agreement ends. */
  lemma PrefixKept(s: string, k: nat, v: string)
    requires k < |s| && FindPlaceholder(s, 0) == Some(k) && v != [] && v[0] == '<'
    ensures PlaceholdersNormalized(s[..k] + v) == s[..k] + PlaceholdersNormalized(v)
  {
    var u := s[..k] + v;
    assert u[..k + 1] == s[..k + 1] by {
      assert u[..k] == s[..k];
      assert u[k] == '<' == s[k];
      assert u[..k + 1] == u[..k] + [u[k]];
      assert s[..k + 1] == s[..k] + [s[k]];
    }
    forall m | 0 <= m < k
      ensures !PlaceholderAt(u, m)
    {
      PlaceholderAtAgree(s, u, m, k);
    }
    SkipUnmatched(u, 0, k);
    assert u[0..] == u;
    assert u[0..k] == s[..k];
    assert u[k..] == v;
  }

  /**
   * Rewriting is idempotent: a rewritten message has no match left. Language-file values
   * are rewritten when read and again when merged, and this is what makes that harmless.
   */
  lemma {:induction false} PlaceholdersNormalizedIdempotent(s: string)
    ensures PlaceholdersNormalized(PlaceholdersNormalized(s)) == PlaceholdersNormalized(s)
    decreases |s|
  {
    if FindPlaceholder(s, 0).None? {
      NoPlaceholderUnchanged(s);
    } else {
      var k := FindPlaceholder(s, 0).value;
      var j := MatchAt(s, k).value;
      var rest := s[j + 1..];
      NormalizedDecomposes(s, k, j);
      PlaceholdersNormalizedIdempotent(rest);
      var t := PlaceholdersNormalized(rest);
      ReplacementIsLowerTag(s, k, j);
      var n := SnakeCase(s[k + 1..j]);
      var v := "<" + n + ">" + t;
      ConcatAssoc(s[..k], "<" + n + ">", t);
      PrefixKept(s, k, v);
      LowerCaseTagKept(n, t);
    }
  }
}
