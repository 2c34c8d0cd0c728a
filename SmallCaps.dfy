/**
 * Tag-preserving small-caps transliteration (`toSmallCapsPreservingTags` in MessageUtil and its
 * copy `applySmallCaps` in CommandHandler). The scanner walks the text once, tracking whether it
 * is inside a MiniMessage tag and how deeply tags are nested; text inside tags is copied, text
 * outside is mapped letter by letter.
 */
module SmallCaps {
  import opened Wrappers
  import opened Text

  /** The two copies of the table; they differ only in the letter `q`. */
  datatype Table = MessageTable | CommandTable

  predicate NoBrackets(s: string) {
    forall i :: 0 <= i < |s| ==> s[i] != '<' && s[i] != '>'
  }

  /** `SMALL_CAPS_MAP.get` / `getSmallCapsMapping`: the small-caps form of a lower-case letter. */
  function Mapping(t: Table, c: char): (r: Option<string>)
    ensures r.Some? ==> r.value != [] && NoBrackets(r.value)
  {
    match c
    case 'a' => Some("\U{1D00}")
    case 'b' => Some("\U{0299}")
    case 'c' => Some("\U{1D04}")
    case 'd' => Some("\U{1D05}")
    case 'e' => Some("\U{1D07}")
    case 'f' => Some("\U{A730}")
    case 'g' => Some("\U{0262}")
    case 'h' => Some("\U{029C}")
    case 'i' => Some("\U{026A}")
    case 'j' => Some("\U{1D0A}")
    case 'k' => Some("\U{1D0B}")
    case 'l' => Some("\U{029F}")
    case 'm' => Some("\U{1D0D}")
    case 'n' => Some("\U{0274}")
    case 'o' => Some("\U{1D0F}")
    case 'p' => Some("\U{1D18}")
    case 'q' => Some(if t == MessageTable then "\U{01EB}" else "\U{01AB}")
    case 'r' => Some("\U{0280}")
    case 's' => Some("\U{A731}")
    case 't' => Some("\U{1D1B}")
    case 'u' => Some("\U{1D1C}")
    case 'v' => Some("\U{1D20}")
    case 'w' => Some("\U{1D21}")
    case 'x' => Some("x")
    case 'y' => Some("\U{028F}")
    case 'z' => Some("\U{1D22}")
    case '\U{00E4}' => Some("\U{00E4}")
    case '\U{00F6}' => Some("\U{00F6}")
    case '\U{00FC}' => Some("\U{00FC}")
    case '\U{00DF}' => Some("\U{A731}\U{A731}")
    case _ => None
  }

  /** A character outside tags: its lower-case form's entry, or the character itself when there is none. */
  function Transliterate(t: Table, ch: char): (r: string)
    ensures r != []
    ensures ch != '<' && ch != '>' ==> NoBrackets(r)
  {
    match Mapping(t, LowerChar(ch))
    case Some(m) => m
    case None => [ch]
  }

  /** The scanner's two variables, `inTag` and `depth`. */
  datatype ScanState = ScanState(inTag: bool, depth: int)

  const OUTSIDE := ScanState(false, 0)

  /** The state the loop keeps: inside a tag exactly when the depth is positive. */
  predicate Wf(st: ScanState) {
    st.depth >= 0 && (st.inTag <==> st.depth > 0)
  }

  /** How one character moves the state. */
  function Next(st: ScanState, ch: char): (r: ScanState)
    ensures Wf(st) ==> Wf(r)
  {
    if ch == '<' then ScanState(true, st.depth + 1)
    else if ch == '>' && st.inTag then
      (if st.depth - 1 <= 0 then OUTSIDE else ScanState(true, st.depth - 1))
    else st
  }

  /** What one character appends to the output. */
  function Emit(t: Table, st: ScanState, ch: char): (r: string)
    ensures r != []
    ensures st.inTag || ch == '<' ==> r == [ch]
  {
    if ch == '<' then "<"
    else if ch == '>' && st.inTag then ">"
    else if st.inTag then [ch]
    else Transliterate(t, ch)
  }

  /** The output of scanning `s` from state `st`. */
  function Scan(t: Table, st: ScanState, s: string): string
    decreases |s|
  {
    if s == [] then [] else Emit(t, st, s[0]) + Scan(t, Next(st, s[0]), s[1..])
  }

  /** Scanning a character followed by more text. */
  lemma ScanCons(t: Table, st: ScanState, c: char, s: string)
    ensures Scan(t, st, [c] + s) == Emit(t, st, c) + Scan(t, Next(st, c), s)
  {
    assert ([c] + s)[1..] == s;
  }

  lemma Regroup(out: string, piece: string, rest: string, whole: string)
    requires out + (piece + rest) == whole
    ensures (out + piece) + rest == whole
  {
  }

  /** `toSmallCapsPreservingTags` (with `MessageTable`) and `applySmallCaps` (with `CommandTable`):
    * null and the empty string are returned as they are. */
  method ToSmallCapsPreservingTags(t: Table, input: Option<string>) returns (r: Option<string>)
    ensures input.None? ==> r.None?
    ensures input.Some? ==> r == Some(Scan(t, OUTSIDE, input.value))
  {
    if input.None? || input.value == [] {
      return input;
    }
    var s := input.value;
    ghost var whole := Scan(t, OUTSIDE, s);
    var out: string := "";
    var inTag := false;
    var depth := 0;
    for i := 0 to |s|
      invariant Wf(ScanState(inTag, depth))
      invariant out + Scan(t, ScanState(inTag, depth), s[i..]) == whole
    {
      var ch := s[i];
      ghost var st := ScanState(inTag, depth);
      ScanCons(t, st, ch, s[i + 1..]);
      assert [ch] + s[i + 1..] == s[i..];
      var piece: string;
      if ch == '<' {
        inTag := true;
        depth := depth + 1;
        piece := "<";
      } else if ch == '>' && inTag {
        piece := ">";
        depth := depth - 1;
        if depth <= 0 {
          inTag := false;
          depth := 0;
        }
      } else if inTag {
        piece := [ch];
      } else {
        var lower := LowerChar(ch);
        var mapped := Mapping(t, lower);
        if mapped.Some? {
          piece := mapped.value;
        } else {
          piece := [ch];
        }
      }
      assert piece == Emit(t, st, ch);
      assert ScanState(inTag, depth) == Next(st, ch);
      Regroup(out, piece, Scan(t, ScanState(inTag, depth), s[i + 1..]), whole);
      out := out + piece;
    }
    assert s[|s|..] == [];
    assert Scan(t, ScanState(inTag, depth), []) == [];
    assert out + [] == out;
    return Some(out);
  }

  /** Every character gives at least one, so the output is never shorter than the input. */
  lemma {:induction false} ScanLength(t: Table, st: ScanState, s: string)
    ensures |Scan(t, st, s)| >= |s|
    decreases |s|
  {
    if s != [] {
      ScanLength(t, Next(st, s[0]), s[1..]);
    }
  }

  /** Letter-by-letter transliteration, with no regard for tags. */
  function TransliterateAll(t: Table, s: string): string
    decreases |s|
  {
    if s == [] then [] else Transliterate(t, s[0]) + TransliterateAll(t, s[1..])
  }

  /** Text with no `<` is transliterated throughout: a lone `>` outside a tag is ordinary text. */
  lemma {:induction false} PlainTextTransliterated(t: Table, s: string)
    requires forall i :: 0 <= i < |s| ==> s[i] != '<'
    ensures Scan(t, OUTSIDE, s) == TransliterateAll(t, s)
    decreases |s|
  {
    if s != [] {
      PlainTextTransliterated(t, s[1..]);
    }
  }

  /** Inside a tag, text without brackets is copied as it is and the state does not move. */
  lemma {:induction false} InsideTagVerbatim(t: Table, st: ScanState, body: string, rest: string)
    requires st.inTag && NoBrackets(body)
    ensures Scan(t, st, body + rest) == body + Scan(t, st, rest)
    decreases |body|
  {
    if body != [] {
      var c := body[0];
      assert body + rest == [c] + (body[1..] + rest);
      ScanCons(t, st, c, body[1..] + rest);
      assert Next(st, c) == st && Emit(t, st, c) == [c];
      InsideTagVerbatim(t, st, body[1..], rest);
      assert [c] + (body[1..] + Scan(t, st, rest)) == ([c] + body[1..]) + Scan(t, st, rest);
      assert body == [c] + body[1..];
    } else {
      assert body + rest == rest;
    }
  }

  /** Inside a tag at depth `d`, text without brackets and the `>` after it are copied; the `>`
    * lowers the depth by one. */
  lemma ClosingTail(t: Table, d: int, body: string, rest: string)
    requires d >= 1 && NoBrackets(body)
    ensures Scan(t, ScanState(true, d), body + ">" + rest)
         == body + ">" + Scan(t, Next(ScanState(true, d), '>'), rest)
  {
    var st := ScanState(true, d);
    InsideTagVerbatim(t, st, body, ">" + rest);
    ScanCons(t, st, '>', rest);
    assert body + ">" + rest == body + (">" + rest);
    assert body + (">" + Scan(t, Next(st, '>'), rest)) == body + ">" + Scan(t, Next(st, '>'), rest);
  }

  /** `"<" + x + ">" + y` regrouped as the scanner reads it. */
  lemma Bracketed(x: string, y: string)
    ensures "<" + x + ">" + y == "<" + (x + ">" + y)
  {
    ConcatAssoc("<", x, ">");
    ConcatAssoc("<", x + ">", y);
  }

  /** A simple tag is copied verbatim, delimiters included, and the scan resumes outside it. */
  lemma TagCopied(t: Table, body: string, rest: string)
    requires NoBrackets(body)
    ensures Scan(t, OUTSIDE, "<" + body + ">" + rest) == "<" + body + ">" + Scan(t, OUTSIDE, rest)
  {
    var after := Scan(t, OUTSIDE, rest);
    ClosingTail(t, 1, body, rest);
    ScanCons(t, OUTSIDE, '<', body + ">" + rest);
    Bracketed(body, rest);
    Bracketed(body, after);
  }

  /** A `>` inside a nested tag does not end the outer one: the text after it is still copied. */
  lemma NestedTagCopied(t: Table, a: string, b: string, rest: string)
    requires NoBrackets(a) && NoBrackets(b)
    ensures Scan(t, OUTSIDE, "<" + ("<" + a + ">" + b) + ">" + rest)
         == "<" + ("<" + a + ">" + b) + ">" + Scan(t, OUTSIDE, rest)
  {
    var after := Scan(t, OUTSIDE, rest);
    var inner := b + ">" + rest;
    ClosingTail(t, 1, b, rest);
    ClosingTail(t, 2, a, inner);
    ScanCons(t, ScanState(true, 1), '<', a + ">" + inner);
    Bracketed(a, inner);
    ScanCons(t, OUTSIDE, '<', "<" + a + ">" + inner);
    var tag := "<" + a + ">" + b;
    ConcatAssoc("<" + a + ">", b, ">");
    ConcatAssoc(tag, ">", rest);
    ConcatAssoc("<" + a + ">", b + ">", rest);
    Bracketed(tag, rest);
    ConcatAssoc(tag, ">", after);
    ConcatAssoc("<" + a + ">", b + ">", after);
    Bracketed(a, b + ">" + after);
    Bracketed(tag, after);
  }

  /** The two tables agree on every character but `q`, where they differ. */
  lemma TablesDifferOnlyInQ(c: char)
    ensures c != 'q' <==> Mapping(MessageTable, c) == Mapping(CommandTable, c)
  {
  }

  /** Text in which no character lower-cases to `q` comes out the same from both copies. */
  lemma {:induction false} CopiesAgreeWithoutQ(st: ScanState, s: string)
    requires forall i :: 0 <= i < |s| ==> LowerChar(s[i]) != 'q'
    ensures Scan(MessageTable, st, s) == Scan(CommandTable, st, s)
    decreases |s|
  {
    if s != [] {
      TablesDifferOnlyInQ(LowerChar(s[0]));
      CopiesAgreeWithoutQ(Next(st, s[0]), s[1..]);
    }
  }
}
