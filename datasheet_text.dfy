/** The string functions of the datasheet downloader
  * (ai-easyeda-compiler/datasheet-downloader.js): file-name sanitising,
  * HTML-to-text cleaning, console word wrapping, and the lenient parser of
  * the language model's answer. */
module DatasheetText {
  import opened Wrappers
  import opened Strings

  // ---------------------------------------------------------------------
  // sanitizeFilename
  // ---------------------------------------------------------------------

  predicate FileChar(c: char) { IsAlnumAscii(c) || c == '-' || c == '_' }

  predicate IsSafeName(s: string)
  {
    forall i :: 0 <= i < |s| ==> FileChar(s[i]) && !IsUpperAscii(s[i])
  }

  /** `name.replace(/[^a-zA-Z0-9-_]/g, '_').toLowerCase()`. */
  function SanitizeFilename(name: string): string
  {
    Lower(ReplaceChars(name, FileChar, '_'))
  }

  /** Same length; every character a lower-case letter, digit, `-` or `_`;
    * the characters already allowed are kept (lower-cased) in place. */
  lemma SanitizeFilenameSpec(name: string)
    ensures |SanitizeFilename(name)| == |name|
    ensures IsSafeName(SanitizeFilename(name))
    ensures forall i :: 0 <= i < |name| ==>
      SanitizeFilename(name)[i] == if FileChar(name[i]) then LowerChar(name[i]) else '_'
  {
    var r := ReplaceChars(name, FileChar, '_');
    assert forall i :: 0 <= i < |r| ==> r[i] == if FileChar(name[i]) then name[i] else '_';
    assert forall i :: 0 <= i < |r| ==> Lower(r)[i] == LowerChar(r[i]);
  }

  /** Sanitising a sanitised name changes nothing. */
  lemma SanitizeFilenameIdempotent(name: string)
    ensures SanitizeFilename(SanitizeFilename(name)) == SanitizeFilename(name)
  {
    var s := SanitizeFilename(name);
    SanitizeFilenameSpec(name);
    SanitizeFilenameSpec(s);
    assert forall i :: 0 <= i < |s| ==> SanitizeFilename(s)[i] == s[i];
  }

  // ---------------------------------------------------------------------
  // cleanHTML
  // ---------------------------------------------------------------------

  /** `p` (lower-case) occurs at `i`, letters compared without case, as a
    * regular expression with the `i` flag does. */
  predicate AtCi(s: string, p: string, i: nat)
  {
    i + |p| <= |s| && Lower(s[i..i + |p|]) == p
  }

  /** The first index at or after `from` where `p` occurs without case. */
  function FindCi(s: string, p: string, from: nat): (r: Option<nat>)
    decreases |s| - from
    ensures r.Some? ==> from <= r.value && AtCi(s, p, r.value)
    ensures r.Some? ==> forall k :: from <= k < r.value ==> !AtCi(s, p, k)
    ensures r.None? ==> forall k :: from <= k ==> !AtCi(s, p, k)
  {
    if from + |p| > |s| then None
    else if AtCi(s, p, from) then Some(from)
    else FindCi(s, p, from + 1)
  }

  predicate WordChar(c: char) { IsAlnumAscii(c) || c == '_' }

  /** `/<tag\b[^<]*(?:(?!<\/tag>)<[^<]*)*<\/tag>/gi` replaced by nothing:
    * an opening `<tag` not followed by a word character, up to the first
    * closing `</tag>` after it, is removed; an opening without a closing is
    * kept. */
  function RemoveElements(s: string, tag: string): (r: string)
    decreases |s|
    ensures |r| <= |s|
  {
    if |s| == 0 then ""
    else
      var open := "<" + tag;
      var close := "</" + tag + ">";
      if s[0] == '<' && AtCi(s, open, 0) && (|s| == |open| || !WordChar(s[|open|])) && FindCi(s, close, |open|).Some? then
        RemoveElements(s[FindCi(s, close, |open|).value + |close|..], tag)
      else [s[0]] + RemoveElements(s[1..], tag)
  }

  /** `/<!--[\s\S]*?-->/g` replaced by nothing. */
  function RemoveComments(s: string): (r: string)
    decreases |s|
    ensures |r| <= |s|
  {
    if |s| == 0 then ""
    else if s[0] == '<' && PrefixAt(s, "<!--", 0) && IndexOfFrom(s, "-->", 4).Some? then
      RemoveComments(s[IndexOfFrom(s, "-->", 4).value + 3..])
    else [s[0]] + RemoveComments(s[1..])
  }

  /** `/<[^>]+>/g` replaced by a space: a `<`, at least one character other
    * than `>`, and the first `>`. */
  function TagsToSpaces(s: string): (r: string)
    decreases |s|
    ensures |r| <= |s|
  {
    if |s| == 0 then ""
    else if s[0] == '<' && '>' in s[1..] && FirstIndexOfChar(s[1..], '>') > 0 then
      " " + TagsToSpaces(s[FirstIndexOfChar(s[1..], '>') + 2..])
    else [s[0]] + TagsToSpaces(s[1..])
  }

  /** `s.replace(/pat/g, rep)` for a literal, non-empty pattern. */
  function ReplaceAll(s: string, pat: string, rep: string): string
    requires |pat| > 0
    decreases |s|
  {
    if |s| == 0 then ""
    else if PrefixAt(s, pat, 0) then rep + ReplaceAll(s[|pat|..], pat, rep)
    else [s[0]] + ReplaceAll(s[1..], pat, rep)
  }

  /** The five entity replacements, in the source's order. */
  function DecodeEntities(s: string): string
  {
    var t1 := ReplaceAll(s, "&nbsp;", " ");
    var t2 := ReplaceAll(t1, "&amp;", "&");
    var t3 := ReplaceAll(t2, "&lt;", "<");
    var t4 := ReplaceAll(t3, "&gt;", ">");
    ReplaceAll(t4, "&quot;", "\"")
  }

  /** `/\s+/g` replaced by one space. */
  function CollapseSpaces(s: string): (r: string)
    decreases |s|
  {
    if |s| == 0 then ""
    else if IsSpace(s[0]) then " " + CollapseSpaces(TrimStart(s[1..]))
    else [s[0]] + CollapseSpaces(s[1..])
  }

  predicate NoDoubleSpace(s: string)
  {
    forall i :: 0 <= i < |s| - 1 ==> !(IsSpace(s[i]) && IsSpace(s[i + 1]))
  }

  /** The collapsed text is empty only for the empty text, keeps a first
    * character that is not white space, and never has two white-space
    * characters in a row. */
  lemma {:induction false} CollapseSpacesSpec(s: string)
    ensures |s| > 0 <==> |CollapseSpaces(s)| > 0
    ensures |s| > 0 && !IsSpace(s[0]) ==> CollapseSpaces(s)[0] == s[0]
    ensures NoDoubleSpace(CollapseSpaces(s))
    decreases |s|
  {
    if |s| > 0 {
      if IsSpace(s[0]) {
        var t := TrimStart(s[1..]);
        CollapseSpacesSpec(t);
        NoDoubleSpaceCons(' ', CollapseSpaces(t));
      } else {
        CollapseSpacesSpec(s[1..]);
        NoDoubleSpaceCons(s[0], CollapseSpaces(s[1..]));
      }
    }
  }

  lemma NoDoubleSpaceCons(c: char, r: string)
    requires NoDoubleSpace(r)
    requires |r| > 0 && IsSpace(c) ==> !IsSpace(r[0])
    ensures NoDoubleSpace([c] + r)
  {
    var s := [c] + r;
    forall i | 0 <= i < |s| - 1 ensures !(IsSpace(s[i]) && IsSpace(s[i + 1])) {
      if i > 0 {
        assert s[i] == r[i - 1] && s[i + 1] == r[i];
      }
    }
  }

  lemma NoDoubleSpaceSlice(s: string, a: nat, b: nat)
    requires NoDoubleSpace(s) && a <= b <= |s|
    ensures NoDoubleSpace(s[a..b])
  {
    assert forall i :: 0 <= i < b - a ==> s[a..b][i] == s[a + i];
  }

  /** Trimming a text with no double white space keeps that property. */
  lemma TrimKeepsNoDoubleSpace(s: string)
    requires NoDoubleSpace(s)
    ensures NoDoubleSpace(Trim(s))
  {
    var t := TrimStart(s);
    NoDoubleSpaceSlice(s, |s| - |t|, |s|);
    NoDoubleSpaceSlice(t, 0, |TrimEnd(t)|);
  }

  /** Everything cleanHTML does, step by step. */
  function CleanText(html: string): string
  {
    var noScripts := RemoveElements(html, "script");
    var noStyles := RemoveElements(noScripts, "style");
    var noComments := RemoveComments(noStyles);
    var noTags := TagsToSpaces(noComments);
    Trim(CollapseSpaces(DecodeEntities(noTags)))
  }

  /** cleanHTML: the text is reassigned by each replacement in turn. Its
    * result is trimmed and never has two white-space characters in a row. */
  method CleanHtml(html: string) returns (text: string)
    ensures text == CleanText(html)
    ensures NoSpaceAtEnds(text) && NoDoubleSpace(text)
  {
    text := html;
    text := RemoveElements(text, "script");
    text := RemoveElements(text, "style");
    text := RemoveComments(text);
    text := TagsToSpaces(text);
    text := ReplaceAll(text, "&nbsp;", " ");
    text := ReplaceAll(text, "&amp;", "&");
    text := ReplaceAll(text, "&lt;", "<");
    text := ReplaceAll(text, "&gt;", ">");
    text := ReplaceAll(text, "&quot;", "\"");
    CollapseSpacesSpec(text);
    text := CollapseSpaces(text);
    TrimKeepsNoDoubleSpace(text);
    text := Trim(text);
  }

  /** Text with no `<` and no `&` only has its white space collapsed and
    * trimmed. */
  lemma PlainTextKept(s: string)
    requires '<' !in s && '&' !in s
    ensures CleanText(s) == Trim(CollapseSpaces(s))
  {
    RemoveElementsPlain(s, "script");
    RemoveElementsPlain(s, "style");
    RemoveCommentsPlain(s);
    TagsToSpacesPlain(s);
    ReplaceAllAbsent(s, "&nbsp;", " ");
    ReplaceAllAbsent(s, "&amp;", "&");
    ReplaceAllAbsent(s, "&lt;", "<");
    ReplaceAllAbsent(s, "&gt;", ">");
    ReplaceAllAbsent(s, "&quot;", "\"");
  }

  /** Tags are stripped before entities are decoded, so an escaped bracket
    * of the page comes back as a bracket in the text. */
  lemma EscapedBracketSurvives()
    ensures CleanText("&lt;") == "<"
  {
    var s := "&lt;";
    RemoveElementsPlain(s, "script");
    RemoveElementsPlain(s, "style");
    RemoveCommentsPlain(s);
    TagsToSpacesPlain(s);
    ReplaceAllShort(s, "&nbsp;", " ");
    ReplaceAllShort(s, "&amp;", "&");
    LtDecoded();
    ReplaceAllShort("<", "&gt;", ">");
    ReplaceAllShort("<", "&quot;", "\"");
    CollapseSpacesPlain("<");
  }

  lemma LtDecoded()
    ensures ReplaceAll("&lt;", "&lt;", "<") == "<"
  {
    var s := "&lt;";
    assert PrefixAt(s, "&lt;", 0);
    assert s[4..] == "";
  }

  lemma {:induction false} RemoveElementsPlain(s: string, tag: string)
    requires '<' !in s
    ensures RemoveElements(s, tag) == s
    decreases |s|
  {
    if |s| > 0 {
      assert s[0] != '<';
      RemoveElementsPlain(s[1..], tag);
      assert s == [s[0]] + s[1..];
    }
  }

  lemma {:induction false} RemoveCommentsPlain(s: string)
    requires '<' !in s
    ensures RemoveComments(s) == s
    decreases |s|
  {
    if |s| > 0 {
      assert s[0] != '<';
      RemoveCommentsPlain(s[1..]);
      assert s == [s[0]] + s[1..];
    }
  }

  lemma {:induction false} TagsToSpacesPlain(s: string)
    requires '<' !in s
    ensures TagsToSpaces(s) == s
    decreases |s|
  {
    if |s| > 0 {
      assert s[0] != '<';
      TagsToSpacesPlain(s[1..]);
      assert s == [s[0]] + s[1..];
    }
  }

  /** A pattern whose first character does not occur is never replaced. */
  lemma {:induction false} ReplaceAllAbsent(s: string, pat: string, rep: string)
    requires |pat| > 0 && pat[0] !in s
    ensures ReplaceAll(s, pat, rep) == s
    decreases |s|
  {
    if |s| > 0 {
      assert s[0] != pat[0];
      ReplaceAllAbsent(s[1..], pat, rep);
      assert s == [s[0]] + s[1..];
    }
  }

  /** A pattern longer than the text is never replaced. */
  lemma {:induction false} ReplaceAllShort(s: string, pat: string, rep: string)
    requires 0 < |pat| && |s| < |pat|
    ensures ReplaceAll(s, pat, rep) == s
    decreases |s|
  {
    if |s| > 0 {
      ReplaceAllShort(s[1..], pat, rep);
      assert s == [s[0]] + s[1..];
    }
  }

  lemma {:induction false} CollapseSpacesPlain(s: string)
    requires forall i :: 0 <= i < |s| ==> !IsSpace(s[i])
    ensures CollapseSpaces(s) == s
    decreases |s|
  {
    if |s| > 0 {
      assert !IsSpace(s[0]);
      CollapseSpacesPlain(s[1..]);
      assert s == [s[0]] + s[1..];
    }
  }

  // ---------------------------------------------------------------------
  // wordWrap
  // ---------------------------------------------------------------------

  /** The loop state of wordWrap after some words: the finished lines and
    * the line being filled. */
  datatype WrapState = WrapState(lines: seq<string>, current: string)

  /** One step of wordWrap's loop as written: the test compares
    * `(currentLine + word).length` with the width, not counting the space
    * that is then inserted. */
  function WrapStep(st: WrapState, word: string, width: nat): WrapState
  {
    if |st.current + word| <= width then
      WrapState(st.lines, st.current + (if st.current != "" then " " else "") + word)
    else
      WrapState(if st.current != "" then st.lines + [st.current] else st.lines, word)
  }

  /** The corrected step: the separating space is counted. */
  function WrapStepFixed(st: WrapState, word: string, width: nat): WrapState
  {
    var candidate := st.current + (if st.current != "" then " " else "") + word;
    if |candidate| <= width then WrapState(st.lines, candidate)
    else WrapState(if st.current != "" then st.lines + [st.current] else st.lines, word)
  }

  function WrapWords(words: seq<string>, width: nat, fixed: bool): WrapState
  {
    if |words| == 0 then WrapState([], "")
    else
      var st := WrapWords(words[..|words| - 1], width, fixed);
      if fixed then WrapStepFixed(st, words[|words| - 1], width) else WrapStep(st, words[|words| - 1], width)
  }

  function FinishLines(st: WrapState): seq<string>
  {
    if st.current != "" then st.lines + [st.current] else st.lines
  }

  /** The lines wordWrap joins with newlines. */
  function WrapLines(text: string, width: nat, fixed: bool): seq<string>
  {
    FinishLines(WrapWords(Split(text, ' '), width, fixed))
  }

  /** wordWrap as written. */
  method WordWrap(text: string, width: nat) returns (wrapped: string)
    ensures wrapped == Join(WrapLines(text, width, false), "\n")
  {
    var words := Split(text, ' ');
    var lines: seq<string> := [];
    var currentLine := "";
    var i := 0;
    while i < |words|
      invariant 0 <= i <= |words|
      invariant WrapState(lines, currentLine) == WrapWords(words[..i], width, false)
    {
      var word := words[i];
      if |currentLine + word| <= width {
        currentLine := currentLine + (if currentLine != "" then " " else "") + word;
      } else {
        if currentLine != "" {
          lines := lines + [currentLine];
        }
        currentLine := word;
      }
      assert words[..i + 1][..i] == words[..i];
      i := i + 1;
    }
    assert words[..i] == words;
    if currentLine != "" {
      lines := lines + [currentLine];
    }
    wrapped := Join(lines, "\n");
  }

  /** A line is either one word or fits in `bound`. */
  predicate LinesWithin(lines: seq<string>, bound: nat)
  {
    forall k :: 0 <= k < |lines| ==> |lines[k]| <= bound || ' ' !in lines[k]
  }

  predicate StateWithin(st: WrapState, bound: nat)
  {
    LinesWithin(st.lines, bound) && (' ' in st.current ==> |st.current| <= bound)
  }

  /** As written, a line that joins several words is at most one character
    * longer than the width. */
  lemma {:induction false} WrapWordsBound(words: seq<string>, width: nat)
    requires forall k :: 0 <= k < |words| ==> ' ' !in words[k]
    ensures StateWithin(WrapWords(words, width, false), width + 1)
  {
    if |words| > 0 {
      var init := words[..|words| - 1];
      WrapWordsBound(init, width);
      var st := WrapWords(init, width, false);
      var w := words[|words| - 1];
      if |st.current + w| <= width {
        if st.current != "" {
          assert ' ' in st.current + " " + w;
        } else {
          assert st.current + "" + w == w;
        }
      }
    }
  }

  /** The corrected step keeps every multi-word line within the width. */
  lemma {:induction false} WrapWordsFixedBound(words: seq<string>, width: nat)
    requires forall k :: 0 <= k < |words| ==> ' ' !in words[k]
    ensures StateWithin(WrapWords(words, width, true), width)
  {
    if |words| > 0 {
      var init := words[..|words| - 1];
      WrapWordsFixedBound(init, width);
      var st := WrapWords(init, width, true);
      var w := words[|words| - 1];
      if st.current == "" {
        assert st.current + "" + w == w;
      }
    }
  }

  lemma WrapLinesBound(text: string, width: nat)
    ensures LinesWithin(WrapLines(text, width, false), width + 1)
    ensures LinesWithin(WrapLines(text, width, true), width)
  {
    WrapWordsBound(Split(text, ' '), width);
    WrapWordsFixedBound(Split(text, ' '), width);
  }

  /** "aa bb" at width 4: the test sees 4 characters, the line has 5. */
  lemma WordWrapOverflow()
    ensures WrapLines("aa bb", 4, false) == ["aa bb"]
    ensures WrapLines("aa bb", 4, true) == ["aa", "bb"]
  {
    var s := "aa bb";
    SplitAaBb();
    var words := ["aa", "bb"];
    assert words[..1] == ["aa"];
    assert words[..1][..0] == [];
    assert WrapWords(words[..1], 4, false) == WrapState([], "aa");
    assert |"aa" + "bb"| == 4;
    assert "aa" + " " + "bb" == "aa bb";
    assert WrapWords(words[..1], 4, true) == WrapState([], "aa");
  }

  lemma SplitAaBb()
    ensures Split("aa bb", ' ') == ["aa", "bb"]
  {
    var s := "aa bb";
    assert s[0] == 'a' && s[1] == 'a' && s[2] == ' ';
    var i := FirstIndexOfChar(s, ' ');
    assert i == 2;
    assert s[..2] == "aa";
    assert s[3..] == "bb";
    assert ' ' !in "bb";
  }

  // ---------------------------------------------------------------------
  // parseAIResponse and extractValue
  // ---------------------------------------------------------------------

  /** The last index below `bound` holding `c`. */
  function LastCharBelow(s: string, c: char, bound: nat): (r: Option<nat>)
    requires bound <= |s|
    ensures r.Some? ==> r.value < bound && s[r.value] == c
    ensures r.Some? ==> forall k :: r.value < k < bound ==> s[k] != c
    ensures r.None? ==> forall k :: 0 <= k < bound ==> s[k] != c
  {
    if bound == 0 then None
    else if s[bound - 1] == c then Some(bound - 1)
    else LastCharBelow(s, c, bound - 1)
  }

  /** Where `/\{[\s\S]*\}/` matches: from the first `{` to the last `}`, when
    * that `}` comes after the `{`; no match exactly when no `}` follows any
    * `{`. */
  function JsonBounds(s: string): (r: Option<(nat, nat)>)
    ensures r.Some? ==> r.value.0 < r.value.1 < |s| && s[r.value.0] == '{' && s[r.value.1] == '}'
    ensures r.Some? ==> forall k :: 0 <= k < r.value.0 ==> s[k] != '{'
    ensures r.Some? ==> forall k :: r.value.1 < k < |s| ==> s[k] != '}'
    ensures r.None? ==> forall i, j :: 0 <= i < j < |s| && s[i] == '{' ==> s[j] != '}'
  {
    if '{' !in s then None
    else
      var i := FirstIndexOfChar(s, '{');
      assert forall k :: 0 <= k < i ==> s[k] != '{' by {
        assert forall k :: 0 <= k < i ==> s[k] == s[..i][k];
      }
      match LastCharBelow(s, '}', |s|)
      case Some(j) => if i < j then Some((i, j)) else None
      case None => None
  }

  /** The text `JSON.parse` is given. */
  function JsonSlice(response: string): (r: Option<string>)
    ensures r.Some? ==> |r.value| >= 2 && r.value[0] == '{' && r.value[|r.value| - 1] == '}'
    ensures r.Some? <==> JsonBounds(response).Some?
  {
    match JsonBounds(response)
    case Some((i, j)) => Some(response[i..j + 1])
    case None => None
  }

  /** One labelled field, `/w1[:\s]+w2[:\s]+([^\n,]+)/i`: the words in order,
    * each followed by separators (colons or white space). */
  predicate Sep(c: char) { c == ':' || IsSpace(c) }

  /** The number of separator characters from `e` on. */
  function SepRun(s: string, e: nat): (k: nat)
    requires e <= |s|
    ensures e + k <= |s|
    ensures forall i :: e <= i < e + k ==> Sep(s[i])
    ensures e + k == |s| || !Sep(s[e + k])
    decreases |s| - e
  {
    if e < |s| && Sep(s[e]) then 1 + SepRun(s, e + 1) else 0
  }

  /** The run of characters other than newline and comma from `j` on. */
  function FieldRun(s: string, j: nat): (r: string)
    requires j <= |s|
    ensures j + |r| <= |s| && r == s[j..j + |r|]
    ensures '\n' !in r && ',' !in r
    ensures j + |r| == |s| || s[j + |r|] == '\n' || s[j + |r|] == ','
    decreases |s| - j
  {
    if j == |s| || s[j] == '\n' || s[j] == ',' then "" else [s[j]] + FieldRun(s, j + 1)
  }

  /** Where the capture group starts when `k` separators follow `e`: the
    * greedy separators give back characters until the group can take one
    * (anything but a newline or a comma). */
  function CaptureStart(s: string, e: nat, k: nat): (r: Option<nat>)
    requires e + k <= |s|
    ensures r.Some? ==> e < r.value <= e + k && r.value < |s| && s[r.value] != '\n' && s[r.value] != ','
    ensures r.None? ==> forall i :: e < i <= e + k && i < |s| ==> s[i] == '\n' || s[i] == ','
  {
    if k == 0 then None
    else if e + k < |s| && s[e + k] != '\n' && s[e + k] != ',' then Some(e + k)
    else CaptureStart(s, e, k - 1)
  }

  function MatchWordsAt(s: string, words: seq<string>, q: nat): Option<string>
    requires |words| > 0
    decreases |words|
  {
    if !AtCi(s, words[0], q) then None
    else
      var e := q + |words[0]|;
      var k := SepRun(s, e);
      if |words| > 1 then
        (if k > 0 then MatchWordsAt(s, words[1..], e + k) else None)
      else
        match CaptureStart(s, e, k)
        case Some(j) => Some(Trim(FieldRun(s, j)))
        case None => None
  }

  /** The first of `at(from)`, `at(from + 1)`, ..., `at(last)` that is
    * present: how a regular expression without the `g` flag tries each
    * starting position in turn. */
  function Leftmost<T>(at: nat -> Option<T>, from: nat, last: nat): Option<T>
    decreases last + 1 - from
  {
    if from > last then None
    else if at(from).Some? then at(from)
    else Leftmost(at, from + 1, last)
  }

  /** The result is at the first position that has one; there is none
    * exactly when no position has one. */
  lemma {:induction false} LeftmostSpec<T>(at: nat -> Option<T>, from: nat, last: nat)
    decreases last + 1 - from
    ensures Leftmost(at, from, last).Some? ==>
      exists p :: (from <= p <= last && at(p) == Leftmost(at, from, last)
                   && forall q :: from <= q < p ==> at(q).None?)
    ensures Leftmost(at, from, last).None? ==> forall p :: from <= p <= last ==> at(p).None?
  {
    if from <= last && at(from).None? {
      LeftmostSpec(at, from + 1, last);
      if Leftmost(at, from, last).Some? {
        var p :| from + 1 <= p <= last && at(p) == Leftmost(at, from + 1, last)
                 && forall q :: from + 1 <= q < p ==> at(q).None?;
        assert forall q :: from <= q < p ==> at(q).None?;
      }
    } else if from <= last {
      assert from <= from <= last && at(from) == Leftmost(at, from, last);
    }
  }

  /** extractValue: the trimmed capture of the leftmost match, or null when
    * the label matches nowhere. */
  function ExtractValue(text: string, words: seq<string>): Option<string>
    requires |words| > 0
  {
    Leftmost(p => MatchWordsAt(text, words, p), 0, |text|)
  }

  /** What extractValue can return: trimmed, one line, no comma. */
  predicate Clean(v: string) { NoSpaceAtEnds(v) && '\n' !in v && ',' !in v }

  /** A match's value is trimmed and holds no newline and no comma. */
  lemma {:induction false} MatchWordsAtSpec(s: string, words: seq<string>, q: nat)
    requires |words| > 0
    ensures MatchWordsAt(s, words, q).Some? ==> Clean(MatchWordsAt(s, words, q).value)
    decreases |words|
  {
    if AtCi(s, words[0], q) {
      var e := q + |words[0]|;
      var k := SepRun(s, e);
      if |words| > 1 {
        if k > 0 {
          MatchWordsAtSpec(s, words[1..], e + k);
        }
      } else {
        match CaptureStart(s, e, k)
        case Some(j) => FieldValueClean(s, j);
        case None =>
      }
    }
  }

  lemma FieldValueClean(s: string, j: nat)
    requires j <= |s|
    ensures Clean(Trim(FieldRun(s, j)))
  {
    TrimKeepsChars(FieldRun(s, j));
  }

  /** Trim only removes characters. */
  lemma TrimKeepsChars(s: string)
    ensures forall c :: c in Trim(s) ==> c in s
  {
    var t := TrimStart(s);
    var a := |s| - |t|;
    var u := TrimEnd(t);
    forall c | c in u ensures c in s {
      var i :| 0 <= i < |u| && u[i] == c;
      assert t[i] == c;
      assert s[a + i] == c;
    }
  }

  lemma ExtractValueSpec(text: string, words: seq<string>)
    requires |words| > 0
    ensures ExtractValue(text, words).Some? ==> Clean(ExtractValue(text, words).value)
  {
    var at := (p: nat) => MatchWordsAt(text, words, p);
    LeftmostSpec(at, 0, |text|);
    if ExtractValue(text, words).Some? {
      var p :| 0 <= p <= |text| && at(p) == ExtractValue(text, words);
      MatchWordsAtSpec(text, words, p);
    }
  }

  /** A line `key:value` is read back as the value, for a lower-case key
    * and a value that is trimmed, holds no newline or comma and does not
    * start with a colon. */
  lemma LabelledValueRead(key: string, v: string)
    requires |key| > 0 && Lower(key) == key
    requires |v| > 0 && Clean(v) && !Sep(v[0])
    ensures ExtractValue(key + ":" + v, [key]) == Some(v)
  {
    var s := key + ":" + v;
    var e := |key|;
    assert s[..e] == key;
    assert AtCi(s, key, 0);
    assert s[e] == ':' && s[e + 1] == v[0];
    assert SepRun(s, e + 1) == 0;
    assert SepRun(s, e) == 1;
    assert CaptureStart(s, e, 1) == Some(e + 1);
    var r := FieldRun(s, e + 1);
    assert s[e + 1..] == v;
    assert r == v;
    TrimIdempotent(v);
    assert MatchWordsAt(s, [key], 0) == Some(v);
  }

  /** What parseAIResponse returns: the parsed JSON object (with
    * `parsed: true`), or the labelled fields scraped from the text with the
    * raw text and `parsed: false`. */
  datatype Specs =
    | Parsed(json: string)
    | Scraped(component: Option<string>, voltageMin: Option<string>, voltageTyp: Option<string>,
              voltageMax: Option<string>, currentOperating: Option<string>, package: Option<string>,
              manufacturer: Option<string>, raw: string)

  /** parseAIResponse; `parses` says which texts `JSON.parse` accepts. */
  function ParseAIResponse(response: string, parses: string -> bool): (r: Specs)
    ensures r.Parsed? <==> JsonSlice(response).Some? && parses(JsonSlice(response).value)
    ensures r.Parsed? ==> r.json == JsonSlice(response).value
    ensures r.Scraped? ==> r.raw == response
  {
    match JsonSlice(response)
    case Some(t) =>
      if parses(t) then Parsed(t) else Scrape(response)
    case None => Scrape(response)
  }

  function Scrape(response: string): Specs
  {
    Scraped(
      ExtractValue(response, ["component"]),
      ExtractValue(response, ["voltage", "min"]),
      ExtractValue(response, ["voltage", "typ"]),
      ExtractValue(response, ["voltage", "max"]),
      ExtractValue(response, ["current", "operating"]),
      ExtractValue(response, ["package"]),
      ExtractValue(response, ["manufacturer"]),
      response)
  }
}
