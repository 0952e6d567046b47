/**
 The report printer: escaped prose, block quotes and code spans, each with the reading that CommonMark 0.31.2
 gives the printed text (sections 2.4, 2.5, 5.1 and 6.1).
 */
module MarkdownReport {
  import opened Naturals
  import opened Wrappers

  // ---------------------------------------------------------------- escaping

  const SPECIAL: set<char> := {
    '\\', '`', '*', '_', '{', '}', '[', ']', '(', ')', '#', '+', '-', '.', '!', '|', '~'}

  /** Section 2.4: the characters a backslash escapes. */
  const PUNCTUATION: set<char> := {
    '!', '"', '#', '$', '%', '&', '\'', '(', ')', '*', '+', ',', '-', '.', '/', ':', ';', '<', '=', '>', '?', '@',
    '[', '\\', ']', '^', '_', '`', '{', '|', '}', '~'}

  function HtmlEscape(s: string): string {
    if s == "" then
      ""
    else
      (match s[0]
       case '&' => "&amp;"
       case '<' => "&lt;"
       case '>' => "&gt;"
       case c => [c]) + HtmlEscape(s[1..])
  }

  function BackslashEscape(s: string): string {
    if s == "" then "" else (if s[0] in SPECIAL then ['\\', s[0]] else [s[0]]) + BackslashEscape(s[1..])
  }

  function EscapeMarkdownText(s: string): string {
    BackslashEscape(HtmlEscape(s))
  }

  predicate IsNameChar(c: char) {
    'a' <= c <= 'z' || 'A' <= c <= 'Z' || '0' <= c <= '9' || c == '#'
  }

  /** The length of the run of reference-name characters at the start. */
  function NameLength(s: string): (n: nat)
    ensures n <= |s|
  {
    if s == "" || !IsNameChar(s[0]) then 0 else 1 + NameLength(s[1..])
  }

  /** Any table of character references that knows the three the printer uses. */
  ghost predicate KnowsBasics(table: map<string, string>) {
    && "amp" in table && table["amp"] == "&"
    && "lt" in table && table["lt"] == "<"
    && "gt" in table && table["gt"] == ">"
  }

  /** Reads backslash escapes and character references from left to right; anything else is literal. */
  function Unescape(s: string, table: map<string, string>): string
    decreases |s|
  {
    if s == "" then
      ""
    else if s[0] == '\\' && |s| >= 2 && s[1] in PUNCTUATION then
      [s[1]] + Unescape(s[2..], table)
    else if s[0] == '&' then
      var n := NameLength(s[1..]);
      if 1 + n < |s| && s[1 + n] == ';' && s[1..1 + n] in table then
        table[s[1..1 + n]] + Unescape(s[n + 2..], table)
      else
        [s[0]] + Unescape(s[1..], table)
    else
      [s[0]] + Unescape(s[1..], table)
  }

  /** What one character becomes. */
  function EscapeChar(c: char): (e: string)
    ensures e != ""
  {
    if c == '&' then "&amp;"
    else if c == '<' then "&lt;"
    else if c == '>' then "&gt;"
    else if c in SPECIAL then ['\\', c]
    else [c]
  }

  lemma BackslashStep(s: string, t: string)
    requires s != ""
    ensures BackslashEscape(s + t) == (if s[0] in SPECIAL then ['\\', s[0]] else [s[0]]) + BackslashEscape(s[1..] + t)
  {
    assert (s + t)[1..] == s[1..] + t;
  }

  lemma {:induction false} BackslashConcat(a: string, b: string)
    ensures BackslashEscape(a + b) == BackslashEscape(a) + BackslashEscape(b)
  {
    if a == "" {
      assert a + b == b;
    } else {
      BackslashConcat(a[1..], b);
      BackslashStep(a, b);
      hide BackslashEscape;
      var head := if a[0] in SPECIAL then ['\\', a[0]] else [a[0]];
      assert BackslashEscape(a) == head + BackslashEscape(a[1..]) by {
        BackslashStep(a, "");
        assert a + "" == a && a[1..] + "" == a[1..];
      }
    }
  }

  lemma BackslashLiterals()
    ensures BackslashEscape("&amp;") == "&amp;"
    ensures BackslashEscape("&lt;") == "&lt;"
    ensures BackslashEscape("&gt;") == "&gt;"
  {
    hide BackslashEscape;
    BackslashFree("&amp;");
    BackslashFree("&lt;");
    BackslashFree("&gt;");
  }

  lemma {:induction false} BackslashFree(s: string)
    requires forall c :: c in s ==> c !in SPECIAL
    ensures BackslashEscape(s) == s
  {
    if s != "" {
      assert s[0] in s && forall c :: c in s[1..] ==> c in s;
      BackslashFree(s[1..]);
    }
  }

  /** The two passes together escape character by character. */
  lemma EscapeStep(c: char, rest: string)
    ensures EscapeMarkdownText([c] + rest) == EscapeChar(c) + EscapeMarkdownText(rest)
  {
    var s := [c] + rest;
    assert s[1..] == rest;
    BackslashLiterals();
    var head := match c case '&' => "&amp;" case '<' => "&lt;" case '>' => "&gt;" case x => [x];
    assert HtmlEscape(s) == head + HtmlEscape(rest);
    BackslashConcat(head, HtmlEscape(rest));
    if head == [c] {
      assert [c][1..] == "";
    }
  }

  lemma ReferenceRead(name: string, rest: string, table: map<string, string>)
    requires name != "" && name in table && forall c :: c in name ==> IsNameChar(c)
    ensures Unescape("&" + name + ";" + rest, table) == table[name] + Unescape(rest, table)
  {
    var s := "&" + name + ";" + rest;
    assert s[1..] == name + (";" + rest);
    NameRun(name, ";" + rest);
    assert s[1..1 + |name|] == name;
    assert s[|name| + 2..] == rest;
  }

  lemma {:induction false} NameRun(name: string, rest: string)
    requires forall c :: c in name ==> IsNameChar(c)
    requires rest != "" && !IsNameChar(rest[0])
    ensures NameLength(name + rest) == |name|
  {
    if name == "" {
      assert name + rest == rest;
    } else {
      assert name[0] in name && forall c :: c in name[1..] ==> c in name;
      NameRun(name[1..], rest);
      assert (name + rest)[1..] == name[1..] + rest;
    }
  }

  lemma EscapedCharRead(c: char, rest: string, table: map<string, string>)
    requires KnowsBasics(table)
    ensures Unescape(EscapeChar(c) + rest, table) == [c] + Unescape(rest, table)
  {
    if c == '&' {
      assert EscapeChar(c) + rest == "&" + "amp" + ";" + rest;
      ReferenceRead("amp", rest, table);
    } else if c == '<' {
      assert EscapeChar(c) + rest == "&" + "lt" + ";" + rest;
      ReferenceRead("lt", rest, table);
    } else if c == '>' {
      assert EscapeChar(c) + rest == "&" + "gt" + ";" + rest;
      ReferenceRead("gt", rest, table);
    } else if c in SPECIAL {
      assert (['\\', c] + rest)[2..] == rest;
    } else {
      assert ([c] + rest)[1..] == rest;
    }
  }

  /** Reading the escapes of any escaped text gives the text back. */
  lemma {:induction false} EscapeRoundTrip(s: string, table: map<string, string>)
    requires KnowsBasics(table)
    ensures Unescape(EscapeMarkdownText(s), table) == s
  {
    hide EscapeChar, KnowsBasics;
    if s == "" {
      EmptyEscape();
    } else {
      assert s == [s[0]] + s[1..];
      EscapeStep(s[0], s[1..]);
      EscapeRoundTrip(s[1..], table);
      EscapedCharRead(s[0], EscapeMarkdownText(s[1..]), table);
    }
  }

  lemma EmptyEscape()
    ensures EscapeMarkdownText("") == ""
  {
  }

  /** Different texts print differently. */
  lemma EscapeIsInjective(s: string, t: string)
    requires EscapeMarkdownText(s) == EscapeMarkdownText(t)
    ensures s == t
  {
    var table := map["amp" := "&", "lt" := "<", "gt" := ">"];
    assert KnowsBasics(table);
    EscapeRoundTrip(s, table);
    EscapeRoundTrip(t, table);
  }

  // ---------------------------------------------------------------- code spans

  function ReplaceChar(s: string, c: char, replacement: string): string {
    if s == "" then "" else (if s[0] == c then replacement else [s[0]]) + ReplaceChar(s[1..], c, replacement)
  }

  /** Line ends are spelled out: a carriage return as backslash r, a line feed as backslash n. */
  function Normalized(value: string): string {
    ReplaceChar(ReplaceChar(value, '\r', "\\r"), '\n', "\\n")
  }

  /** How many backticks follow one another from position `i`. */
  function RunLength(s: string, i: nat): (n: nat)
    requires i <= |s|
    ensures i + n <= |s|
    decreases |s| - i
  {
    if i == |s| || s[i] != '`' then 0 else 1 + RunLength(s, i + 1)
  }

  /** The longest run of backticks from position `i` on, run by run. */
  function LongestRun(s: string, i: nat): nat
    requires i <= |s|
    decreases |s| - i
  {
    if i == |s| then
      0
    else if s[i] != '`' then
      LongestRun(s, i + 1)
    else
      Max(RunLength(s, i), LongestRun(s, i + RunLength(s, i)))
  }

  function Repeat(c: char, n: nat): (r: string)
    ensures |r| == n && forall i :: 0 <= i < n ==> r[i] == c
  {
    if n == 0 then "" else [c] + Repeat(c, n - 1)
  }

  predicate NeedsPadding(text: string) {
    text != "" && (text[0] == '`' || text[0] == ' ' || text[|text| - 1] == '`' || text[|text| - 1] == ' ')
  }

  function Fence(text: string): string {
    Repeat('`', LongestRun(text, 0) + 1)
  }

  function Body(text: string): string {
    if NeedsPadding(text) then " " + text + " " else text
  }

  function CodeSpan(value: string): string {
    var text := Normalized(value);
    Fence(text) + Body(text) + Fence(text)
  }

  // The reading of section 6.1.

  /** Where the next run of exactly `n` backticks starts, looking run by run from position `i`. */
  function FindClose(s: string, i: nat, n: nat): (r: Option<nat>)
    requires i <= |s|
    ensures r.Some? ==> i <= r.value && r.value + n <= |s|
    decreases |s| - i
  {
    if i == |s| then
      None
    else if s[i] != '`' then
      FindClose(s, i + 1, n)
    else if RunLength(s, i) == n then
      Some(i)
    else
      FindClose(s, i + RunLength(s, i), n)
  }

  predicate AllSpaces(s: string) {
    forall i :: 0 <= i < |s| ==> s[i] == ' '
  }

  function LineEndsToSpaces(s: string): string {
    ReplaceChar(ReplaceChar(s, '\r', " "), '\n', " ")
  }

  /** One space is stripped from both sides of a span that has one on both and is not all spaces. */
  function StripOne(s: string): string {
    if |s| >= 2 && s[0] == ' ' && s[|s| - 1] == ' ' && !AllSpaces(s) then s[1..|s| - 1] else s
  }

  datatype Span = Span(content: string, end: nat)

  /** A run of backticks can open here: nothing before it lengthens or escapes it. */
  predicate CanOpen(doc: string, at: nat)
    requires at <= |doc|
  {
    at == 0 || (doc[at - 1] != '`' && doc[at - 1] != '\\')
  }

  /** The code span that opens at position `at`, if one does. */
  function ParseCodeSpan(doc: string, at: nat): Option<Span>
    requires at <= |doc|
  {
    var n := RunLength(doc, at);
    if n == 0 || !CanOpen(doc, at) then
      None
    else
      match FindClose(doc, at + n, n)
      case None => None
      case Some(close) => Some(Span(StripOne(LineEndsToSpaces(doc[at + n..close])), close + n))
  }

  // ---------------------------------------------------------------- runs of backticks

  /** A run that ends inside a part of a document, or where the part does, has the same length there. */
  lemma {:induction false} RunInside(before: string, s: string, after: string, i: nat)
    requires i <= |s|
    requires after == "" || after[0] != '`' || (i < |s| && s[|s| - 1] != '`')
    ensures RunLength(before + s + after, |before| + i) == RunLength(s, i)
    decreases |s| - i
  {
    var doc := before + s + after;
    if i < |s| {
      assert doc[|before| + i] == s[i];
      if s[i] == '`' {
        RunInside(before, s, after, i + 1);
      }
    } else if after != "" {
      assert doc[|before| + i] == after[0];
    }
  }

  lemma {:induction false} RunOfRepeat(n: nat, i: nat)
    requires i <= n
    ensures RunLength(Repeat('`', n), i) == n - i
    decreases n - i
  {
    if i < n {
      RunOfRepeat(n, i + 1);
    }
  }

  lemma {:induction false} LaterInRun(s: string, i: nat, k: nat)
    requires i <= k <= |s| && k <= i + RunLength(s, i)
    ensures RunLength(s, k) == RunLength(s, i) - (k - i)
    decreases k - i
  {
    if i < k {
      LaterInRun(s, i + 1, k);
    }
  }

  lemma {:induction false} RunsAreBounded(s: string, i: nat, k: nat)
    requires i <= k <= |s|
    ensures RunLength(s, k) <= LongestRun(s, i)
    decreases |s| - i
  {
    if i < |s| {
      if s[i] != '`' {
        if i < k {
          RunsAreBounded(s, i + 1, k);
        }
      } else if k <= i + RunLength(s, i) {
        LaterInRun(s, i, k);
      } else {
        RunsAreBounded(s, i + RunLength(s, i), k);
      }
    }
  }

  /** Inside the body no run is as long as the fence, and the body neither starts nor ends with a backtick. */
  lemma BodyRuns(text: string, k: nat)
    requires text != "" && k < |Body(text)|
    ensures RunLength(Body(text), k) < |Fence(text)|
    ensures Body(text)[0] != '`' && Body(text)[|Body(text)| - 1] != '`'
  {
    if NeedsPadding(text) {
      if 0 < k <= |text| {
        RunInside(" ", text, " ", k - 1);
        RunsAreBounded(text, 0, k - 1);
      }
    } else {
      RunsAreBounded(text, 0, k);
    }
  }

  /** The search for the closing run passes over a body without a run of that length. */
  lemma {:induction false} FindPast(before: string, body: string, after: string, n: nat, k: nat)
    requires k <= |body| && n >= 1 && body != "" && body[|body| - 1] != '`'
    requires forall j :: 0 <= j < |body| ==> RunLength(body, j) < n
    requires RunLength(before + body + after, |before| + |body|) == n
    ensures FindClose(before + body + after, |before| + k, n) == Some(|before| + |body|)
    decreases |body| - k
  {
    var doc := before + body + after;
    if k < |body| {
      assert doc[|before| + k] == body[k];
      if body[k] != '`' {
        FindPast(before, body, after, n, k + 1);
      } else {
        RunInside(before, body, after, k);
        FindPast(before, body, after, n, k + RunLength(body, k));
      }
    }
  }

  // ---------------------------------------------------------------- normalised text has no line ends

  lemma {:induction false} ReplacedAway(s: string, c: char, replacement: string, d: char)
    requires d !in replacement && (d == c || d !in s)
    ensures d !in ReplaceChar(s, c, replacement)
  {
    if s != "" {
      assert s[0] in s && forall x :: x in s[1..] ==> x in s;
      ReplacedAway(s[1..], c, replacement, d);
    }
  }

  lemma {:induction false} NothingToReplace(s: string, c: char, replacement: string)
    requires c !in s
    ensures ReplaceChar(s, c, replacement) == s
  {
    if s != "" {
      assert s[0] in s && forall x :: x in s[1..] ==> x in s;
      NothingToReplace(s[1..], c, replacement);
    }
  }

  lemma NormalizedHasNoLineEnds(value: string)
    ensures '\r' !in Normalized(value) && '\n' !in Normalized(value)
    ensures '\r' !in value && '\n' !in value ==> Normalized(value) == value
  {
    hide ReplaceChar;
    var once := ReplaceChar(value, '\r', "\\r");
    ReplacedAway(value, '\r', "\\r", '\r');
    ReplacedAway(once, '\n', "\\n", '\n');
    ReplacedAway(once, '\n', "\\n", '\r');
    if '\r' !in value && '\n' !in value {
      NothingToReplace(value, '\r', "\\r");
      NothingToReplace(value, '\n', "\\n");
    }
  }

  lemma SpacesKept(s: string)
    requires '\r' !in s && '\n' !in s
    ensures LineEndsToSpaces(s) == s
  {
    NothingToReplace(s, '\r', " ");
    NothingToReplace(s, '\n', " ");
  }

  // ---------------------------------------------------------------- the round trip

  lemma Regroup(before: string, fence: string, body: string, after: string)
    ensures var doc := before + (fence + body + fence) + after;
            && doc == before + (fence + body + fence + after)
            && doc == before + fence + (body + fence + after)
            && doc == (before + fence) + body + (fence + after)
            && doc == (before + fence + body) + fence + after
            && |doc| == |before| + |fence| + |body| + |fence| + |after|
            && doc[|before| + |fence|..|before| + |fence| + |body|] == body
  {
  }

  lemma FenceRun(text: string, before: string, after: string)
    requires after != "" ==> after[0] != '`'
    ensures RunLength(before + Fence(text) + after, |before|) == |Fence(text)|
  {
    hide RunLength;
    RunOfRepeat(|Fence(text)|, 0);
    RunInside(before, Fence(text), after, 0);
  }

  lemma BodyFacts(text: string)
    requires text != "" && '\r' !in text && '\n' !in text
    ensures var body := Body(text);
            && body != "" && body[0] != '`' && body[|body| - 1] != '`'
            && LineEndsToSpaces(body) == body
            && forall j :: 0 <= j < |body| ==> RunLength(body, j) < |Fence(text)|
  {
    hide RunLength, LineEndsToSpaces, Fence;
    BodyRuns(text, 0);
    SpacesKept(Body(text));
    forall j | 0 <= j < |Body(text)| ensures RunLength(Body(text), j) < |Fence(text)| {
      BodyRuns(text, j);
    }
  }

  /** Where the printed span's fences are found when it stands between other text. */
  lemma SpanParses(before: string, text: string, after: string)
    requires text != "" && '\r' !in text && '\n' !in text
    requires before != "" ==> before[|before| - 1] != '`' && before[|before| - 1] != '\\'
    requires after != "" ==> after[0] != '`'
    ensures var printed := Fence(text) + Body(text) + Fence(text);
            ParseCodeSpan(before + printed + after, |before|)
            == Some(Span(StripOne(Body(text)), |before| + |printed|))
  {
    hide RunLength, FindClose, LineEndsToSpaces, StripOne, Body, Fence, ParseCodeSpan, CanOpen;
    var fence, body, n := Fence(text), Body(text), |Fence(text)|;
    var doc := before + (fence + body + fence) + after;
    Regroup(before, fence, body, after);
    BodyFacts(text);
    FenceIsNotEmpty(text);
    FenceRun(text, before, body + fence + after);
    FenceRun(text, before + fence + body, after);
    FindPast(before + fence, body, fence + after, n, 0);
    OpensAfter(before, fence + body + fence + after);
    ParsedBetween(doc, |before|, n, |before| + n + |body|);
  }

  lemma OpensAfter(before: string, rest: string)
    requires before != "" ==> before[|before| - 1] != '`' && before[|before| - 1] != '\\'
    ensures CanOpen(before + rest, |before|)
  {
  }

  lemma ParsedBetween(doc: string, at: nat, n: nat, close: nat)
    requires at <= |doc| && n >= 1 && RunLength(doc, at) == n && CanOpen(doc, at)
    requires FindClose(doc, at + n, n) == Some(close)
    ensures ParseCodeSpan(doc, at) == Some(Span(StripOne(LineEndsToSpaces(doc[at + n..close])), close + n))
  {
    hide RunLength, FindClose, LineEndsToSpaces, StripOne, CanOpen;
  }

  lemma FenceIsNotEmpty(text: string)
    ensures |Fence(text)| >= 1
  {
  }

  lemma {:induction false} CloseIsABacktick(s: string, i: nat, n: nat)
    requires i <= |s| && n >= 1
    ensures FindClose(s, i, n).Some? ==> FindClose(s, i, n).value < |s| && s[FindClose(s, i, n).value] == '`'
    decreases |s| - i
  {
    if i < |s| {
      if s[i] != '`' {
        CloseIsABacktick(s, i + 1, n);
      } else if RunLength(s, i) != n {
        CloseIsABacktick(s, i + RunLength(s, i), n);
      }
    }
  }

  lemma {:induction false} ReplaceKeepsSome(s: string, c: char, replacement: string)
    requires s != "" && replacement != ""
    ensures ReplaceChar(s, c, replacement) != ""
  {
  }

  /** No code span has empty content. */
  lemma ContentIsNeverEmpty(doc: string, at: nat)
    requires at <= |doc| && ParseCodeSpan(doc, at).Some?
    ensures ParseCodeSpan(doc, at).value.content != ""
  {
    hide FindClose, ReplaceChar;
    var n := RunLength(doc, at);
    CloseIsABacktick(doc, at + n, n);
    LaterInRun(doc, at, at + n);
    var close := FindClose(doc, at + n, n).value;
    assert RunLength(doc, at + n) == 0;
    assert close > at + n;
    var inner := doc[at + n..close];
    ReplaceKeepsSome(inner, '\r', " ");
    ReplaceKeepsSome(ReplaceChar(inner, '\r', " "), '\n', " ");
  }

  /** Padding is exactly what reading strips, unless there is nothing but spaces. */
  lemma StrippingUndoesPadding(text: string)
    requires text != ""
    ensures StripOne(Body(text)) == text <==> !AllSpaces(text)
  {
    if NeedsPadding(text) {
      var body := Body(text);
      assert body[1..|body| - 1] == text;
      if AllSpaces(text) {
        assert AllSpaces(body);
      } else {
        var i :| 0 <= i < |text| && text[i] != ' ';
        assert body[i + 1] != ' ';
      }
    } else {
      assert text[0] != ' ';
    }
  }

  /**
   Reading a printed code span, between text that neither escapes nor lengthens its fences, gives back the
   normalised text and ends where the span ends, exactly when the text has a character other than a space.
   */
  lemma CodeSpanRoundTrip(before: string, value: string, after: string)
    requires before != "" ==> before[|before| - 1] != '`' && before[|before| - 1] != '\\'
    requires after != "" ==> after[0] != '`'
    ensures ParseCodeSpan(before + CodeSpan(value) + after, |before|)
            == Some(Span(Normalized(value), |before| + |CodeSpan(value)|))
            <==> !AllSpaces(Normalized(value))
  {
    hide ParseCodeSpan, Normalized, StripOne, Body, Fence, AllSpaces;
    var text := Normalized(value);
    NormalizedHasNoLineEnds(value);
    if text == "" {
      EmptyIsAllSpaces();
      if ParseCodeSpan(before + CodeSpan(value) + after, |before|).Some? {
        ContentIsNeverEmpty(before + CodeSpan(value) + after, |before|);
      }
    } else {
      SpanParses(before, text, after);
      StrippingUndoesPadding(text);
    }
  }

  lemma EmptyIsAllSpaces()
    ensures AllSpaces("")
  {
  }

  // ---------------------------------------------------------------- block quotes

  /** The characters at which the printer's host language ends a line. */
  const BREAKS: set<char> := {
    '\n', '\r', '\U{000B}', '\U{000C}', '\U{001C}', '\U{001D}', '\U{001E}', '\U{0085}', '\U{2028}', '\U{2029}'}

  function FirstBreak(s: string): (i: nat)
    ensures i <= |s| && (forall k :: 0 <= k < i ==> s[k] !in BREAKS) && (i < |s| ==> s[i] in BREAKS)
  {
    if s == "" || s[0] in BREAKS then 0 else 1 + FirstBreak(s[1..])
  }

  function BreakLength(s: string, i: nat): (n: nat)
    requires i < |s|
    ensures 1 <= n && i + n <= |s|
  {
    if s[i] == '\r' && i + 1 < |s| && s[i + 1] == '\n' then 2 else 1
  }

  /** Lines without their ends; a final line end starts no further line. */
  function SplitLines(s: string): seq<string>
    decreases |s|
  {
    if s == "" then
      []
    else
      var i := FirstBreak(s);
      if i == |s| then [s] else [s[..i]] + SplitLines(s[i + BreakLength(s, i)..])
  }

  function Quoted(line: string, prefix: string): string {
    prefix + (if line != "" then "> " + line else ">")
  }

  function Blockquote(value: string, prefix: string): seq<string> {
    var lines := SplitLines(EscapeMarkdownText(value));
    seq(|lines|, i requires 0 <= i < |lines| => Quoted(lines[i], prefix))
  }

  /** Section 5.1: a block quote marker is a greater-than sign and an optional space. */
  function Unquoted(line: string, indent: nat): Option<string> {
    if indent >= |line| || line[indent] != '>' then
      None
    else if indent + 1 < |line| && line[indent + 1] == ' ' then
      Some(line[indent + 2..])
    else
      Some(line[indent + 1..])
  }

  lemma {:induction false} EscapeConcat(a: string, b: string)
    ensures EscapeMarkdownText(a + b) == EscapeMarkdownText(a) + EscapeMarkdownText(b)
  {
    hide EscapeMarkdownText, EscapeChar;
    if a == "" {
      assert a + b == b;
      EmptyEscape();
    } else {
      EscapeConcat(a[1..], b);
      EscapeStep(a[0], a[1..]);
      EscapeStep(a[0], a[1..] + b);
      assert [a[0]] + a[1..] == a && [a[0]] + (a[1..] + b) == a + b;
    }
  }

  /** A text none of whose characters ends a line. */
  predicate Unbroken(s: string) {
    forall k :: 0 <= k < |s| ==> s[k] !in BREAKS
  }

  lemma {:induction false} EscapeKeepsLines(s: string)
    requires Unbroken(s)
    ensures Unbroken(EscapeMarkdownText(s))
  {
    hide EscapeMarkdownText;
    if s == "" {
      EmptyEscape();
    } else {
      EscapeKeepsLines(s[1..]);
      EscapeStep(s[0], s[1..]);
      assert [s[0]] + s[1..] == s;
      EscapedCharHasNoBreak(s[0]);
    }
  }

  lemma EscapedCharHasNoBreak(c: char)
    requires c !in BREAKS
    ensures Unbroken(EscapeChar(c))
  {
  }

  lemma BreakIsItself(c: char)
    requires c in BREAKS
    ensures EscapeMarkdownText([c]) == [c]
  {
    EscapeStep(c, "");
    EmptyEscape();
    assert [c] + "" == [c];
  }

  /** The first escaped character is a line feed exactly when the first character is. */
  lemma FirstEscaped(s: string)
    ensures s == "" <==> EscapeMarkdownText(s) == ""
    ensures s != "" ==> (s[0] == '\n' <==> EscapeMarkdownText(s)[0] == '\n')
  {
    hide EscapeMarkdownText;
    EmptyEscape();
    if s != "" {
      EscapeStep(s[0], s[1..]);
      assert [s[0]] + s[1..] == s;
    }
  }

  lemma {:induction false} FirstBreakAt(a: string, rest: string)
    requires Unbroken(a)
    requires rest == "" || rest[0] in BREAKS
    ensures FirstBreak(a + rest) == |a|
  {
    if a == "" {
      assert a + rest == rest;
    } else {
      assert a[0] !in BREAKS;
      assert (a + rest)[1..] == a[1..] + rest;
      FirstBreakAt(a[1..], rest);
    }
  }

  /** A line end: both characters of a carriage return and line feed, or one character that the next leaves alone. */
  predicate EndsLine(brk: string, rest: string) {
    || brk == "\r\n"
    || (|brk| == 1 && brk[0] in BREAKS && (brk == "\r" && rest != "" ==> rest[0] != '\n'))
  }

  lemma SplitAt(a: string, brk: string, rest: string)
    requires Unbroken(a) && EndsLine(brk, rest)
    ensures SplitLines(a + brk + rest) == [a] + SplitLines(rest)
  {
    hide FirstBreak, Unbroken;
    var s := a + brk + rest;
    assert s == a + (brk + rest);
    assert brk[0] in BREAKS;
    FirstBreakAt(a, brk + rest);
    assert s[..|a|] == a;
    assert s[|a|] == brk[0];
    assert |a| + 1 < |s| ==> s[|a| + 1] == (brk + rest)[1];
    assert s[|a| + |brk|..] == rest;
  }

  function EscapeAll(lines: seq<string>): (r: seq<string>)
    ensures |r| == |lines| && forall i :: 0 <= i < |lines| ==> r[i] == EscapeMarkdownText(lines[i])
  {
    seq(|lines|, i requires 0 <= i < |lines| => EscapeMarkdownText(lines[i]))
  }

  lemma EscapeAllStep(line: string, lines: seq<string>)
    ensures EscapeAll([line] + lines) == [EscapeMarkdownText(line)] + EscapeAll(lines)
  {
    hide EscapeMarkdownText;
  }

  /** A text with a line end is its first line, that line end and the rest. */
  lemma Broken(s: string) returns (line: string, brk: string, rest: string)
    requires FirstBreak(s) < |s|
    ensures s == line + brk + rest && |rest| < |s| && Unbroken(line) && EndsLine(brk, rest)
  {
    var i := FirstBreak(s);
    var n := BreakLength(s, i);
    line, brk, rest := s[..i], s[i..i + n], s[i + n..];
    if n == 2 {
      assert brk == "\r\n";
    } else {
      assert brk == [s[i]];
    }
  }

  lemma LineEndEscapes(brk: string, rest: string)
    requires EndsLine(brk, rest)
    ensures EscapeMarkdownText(brk) == brk && EndsLine(brk, EscapeMarkdownText(rest))
  {
    hide EscapeMarkdownText;
    FirstEscaped(rest);
    if brk == "\r\n" {
      assert brk == ['\r'] + ['\n'];
      EscapeConcat(['\r'], ['\n']);
      BreakIsItself('\r');
      BreakIsItself('\n');
    } else {
      assert brk == [brk[0]];
      BreakIsItself(brk[0]);
    }
  }

  lemma EscapeThree(a: string, b: string, c: string)
    ensures EscapeMarkdownText(a + b + c) == EscapeMarkdownText(a) + EscapeMarkdownText(b) + EscapeMarkdownText(c)
  {
    hide EscapeMarkdownText;
    EscapeConcat(a + b, c);
    EscapeConcat(a, b);
  }

  lemma UnbrokenLine(s: string)
    requires s != "" && Unbroken(s)
    ensures SplitLines(s) == [s]
  {
    hide Unbroken;
    FirstBreakAt(s, "");
    assert s + "" == s;
  }

  /** Escaping neither joins nor splits lines. */
  lemma {:induction false} LinesEscape(s: string)
    ensures SplitLines(EscapeMarkdownText(s)) == EscapeAll(SplitLines(s))
    decreases |s|
  {
    hide EscapeMarkdownText, SplitLines, EscapeAll, Unbroken, EndsLine;
    if s == "" {
      NothingEscapes();
    } else if FirstBreak(s) < |s| {
      var line, brk, rest := Broken(s);
      LinesEscape(rest);
      EscapeThree(line, brk, rest);
      EscapeKeepsLines(line);
      LineEndEscapes(brk, rest);
      SplitAt(line, brk, rest);
      SplitAt(EscapeMarkdownText(line), brk, EscapeMarkdownText(rest));
      EscapeAllStep(line, SplitLines(rest));
    } else {
      WholeLineEscapes(s);
    }
  }

  lemma NothingEscapes()
    ensures SplitLines(EscapeMarkdownText("")) == EscapeAll(SplitLines(""))
  {
    EmptyEscape();
  }

  lemma WholeLineEscapes(s: string)
    requires s != "" && FirstBreak(s) == |s|
    ensures SplitLines(EscapeMarkdownText(s)) == EscapeAll(SplitLines(s))
  {
    hide EscapeMarkdownText, SplitLines;
    assert Unbroken(s);
    EscapeKeepsLines(s);
    FirstEscaped(s);
    UnbrokenLine(s);
    UnbrokenLine(EscapeMarkdownText(s));
  }

  lemma UnquoteQuoted(line: string, prefix: string)
    ensures Unquoted(Quoted(line, prefix), |prefix|) == Some(line)
  {
    var q := Quoted(line, prefix);
    if line != "" {
      assert q[|prefix| + 2..] == line;
    } else {
      assert q[|prefix| + 1..] == line;
    }
  }

  /** Taking off the quote markers and reading the escapes gives back the lines of the quoted text. */
  lemma BlockquoteRoundTrip(value: string, prefix: string, table: map<string, string>, i: nat)
    requires KnowsBasics(table)
    ensures |Blockquote(value, prefix)| == |SplitLines(value)|
    ensures i < |SplitLines(value)| ==>
              && Unquoted(Blockquote(value, prefix)[i], |prefix|).Some?
              && Unescape(Unquoted(Blockquote(value, prefix)[i], |prefix|).value, table) == SplitLines(value)[i]
  {
    hide EscapeMarkdownText, SplitLines, Quoted, Unquoted, Unescape, KnowsBasics;
    LinesEscape(value);
    if i < |SplitLines(value)| {
      UnquoteQuoted(EscapeMarkdownText(SplitLines(value)[i]), prefix);
      EscapeRoundTrip(SplitLines(value)[i], table);
    }
  }

  // ---------------------------------------------------------------- what is printed, character by character

  /** Escaping goes character by character: markup characters get a backslash, the three of HTML their references. */
  lemma EscapedExactly(s: string, c: char)
    ensures EscapeMarkdownText("") == ""
    ensures EscapeMarkdownText(s + [c]) == EscapeMarkdownText(s) +
            (if c == '&' then "&amp;" else if c == '<' then "&lt;" else if c == '>' then "&gt;"
             else if c in {'\\', '`', '*', '_', '{', '}', '[', ']', '(', ')', '#', '+', '-', '.', '!', '|', '~'}
             then ['\\', c] else [c])
  {
    hide EscapeMarkdownText;
    EmptyEscape();
    EscapeConcat(s, [c]);
    EscapeStep(c, "");
    assert [c] + "" == [c] && EscapeChar(c) + "" == EscapeChar(c);
  }

  lemma ReplaceStep(s: string, t: string, c: char, replacement: string)
    requires s != ""
    ensures ReplaceChar(s + t, c, replacement)
         == (if s[0] == c then replacement else [s[0]]) + ReplaceChar(s[1..] + t, c, replacement)
  {
    assert (s + t)[1..] == s[1..] + t;
  }

  lemma {:induction false} ReplaceConcat(a: string, b: string, c: char, replacement: string)
    ensures ReplaceChar(a + b, c, replacement) == ReplaceChar(a, c, replacement) + ReplaceChar(b, c, replacement)
  {
    if a == "" {
      assert a + b == b;
    } else {
      ReplaceConcat(a[1..], b, c, replacement);
      ReplaceStep(a, b, c, replacement);
      ReplaceStep(a, "", c, replacement);
      hide ReplaceChar;
      assert a + "" == a && a[1..] + "" == a[1..];
    }
  }

  lemma NormalizedCharacter(c: char)
    ensures Normalized([c]) == if c == '\r' then "\\r" else if c == '\n' then "\\n" else [c]
  {
    hide ReplaceChar;
    if c == '\r' {
      ReplacedOnce(c, '\r', "\\r");
      NothingToReplace("\\r", '\n', "\\n");
    } else {
      NothingToReplace([c], '\r', "\\r");
      if c == '\n' {
        ReplacedOnce(c, '\n', "\\n");
      } else {
        NothingToReplace([c], '\n', "\\n");
      }
    }
  }

  lemma ReplacedOnce(d: char, c: char, replacement: string)
    requires d == c
    ensures ReplaceChar([d], c, replacement) == replacement
  {
    assert [d][1..] == "";
    assert ReplaceChar("", c, replacement) == "";
    assert replacement + "" == replacement;
  }

  /** Normalising goes character by character too, and spells out both line ends. */
  lemma NormalizedExactly(s: string, c: char)
    ensures Normalized("") == ""
    ensures Normalized(s + [c]) == Normalized(s) + if c == '\r' then "\\r" else if c == '\n' then "\\n" else [c]
  {
    var once := ReplaceChar(s, '\r', "\\r");
    ReplaceConcat(s, [c], '\r', "\\r");
    ReplaceConcat(once, ReplaceChar([c], '\r', "\\r"), '\n', "\\n");
    NormalizedCharacter(c);
  }

  /** From position `k` on there are `n` backticks in a row. */
  predicate TicksAt(s: string, k: int, n: nat) {
    0 <= k && k + n <= |s| && forall i :: k <= i < k + n ==> s[i] == '`'
  }

  lemma {:induction false} RunIsTicks(s: string, i: nat)
    requires i <= |s|
    ensures TicksAt(s, i, RunLength(s, i))
    decreases |s| - i
  {
    if i < |s| && s[i] == '`' {
      RunIsTicks(s, i + 1);
    }
  }

  lemma {:induction false} TicksAreInRun(s: string, k: nat, n: nat)
    requires TicksAt(s, k, n)
    ensures n <= RunLength(s, k)
    decreases n
  {
    if n > 0 {
      TicksAreInRun(s, k + 1, n - 1);
    }
  }

  lemma {:induction false} LongestIsSomewhere(s: string, i: nat) returns (k: nat)
    requires i <= |s|
    ensures i <= k <= |s| && RunLength(s, k) == LongestRun(s, i)
    decreases |s| - i
  {
    if i == |s| {
      k := i;
    } else if s[i] != '`' {
      k := LongestIsSomewhere(s, i + 1);
    } else {
      var n := RunLength(s, i);
      k := LongestIsSomewhere(s, i + n);
      if RunLength(s, k) < n {
        k := i;
      }
    }
  }

  /** So many backticks as one more than the longest run of them in the text. */
  ghost predicate IsFence(fence: string, text: string) {
    && fence != "" && (forall i :: 0 <= i < |fence| ==> fence[i] == '`')
    && (forall k :: !TicksAt(text, k, |fence|))
    && exists k :: TicksAt(text, k, |fence[1..]|)
  }

  lemma FenceExactly(text: string)
    ensures IsFence(Fence(text), text)
  {
    hide RunLength, LongestRun;
    forall k ensures !TicksAt(text, k, |Fence(text)|) {
      if TicksAt(text, k, |Fence(text)|) {
        TicksAreInRun(text, k, |Fence(text)|);
        RunsAreBounded(text, 0, k);
      }
    }
    var k := LongestIsSomewhere(text, 0);
    RunIsTicks(text, k);
    var fence := Fence(text);
    assert TicksAt(text, k, |fence[1..]|);
  }

  /**
   A printed code span: the normalised text between two fences, each one backtick longer than any run in it, and padded
   with a space on both sides exactly when the text starts or ends with a backtick or a space.
   */
  lemma CodeSpanExactly(value: string) returns (fence: string, padding: string)
    ensures CodeSpan(value) == fence + padding + Normalized(value) + padding + fence
    ensures IsFence(fence, Normalized(value))
    ensures var text := Normalized(value);
            padding == if text != "" && (text[0] in {'`', ' '} || text[|text| - 1] in {'`', ' '}) then " " else ""
  {
    hide Normalized, IsFence;
    var text := Normalized(value);
    fence, padding := Fence(text), if NeedsPadding(text) then " " else "";
    FenceExactly(text);
    hide Fence;
    if NeedsPadding(text) {
      assert fence + (" " + text + " ") + fence == fence + " " + text + " " + fence;
    } else {
      assert fence + text + fence == fence + "" + text + "" + fence;
    }
  }

  // ---------------------------------------------------------------- the lines of a quote

  predicate IsLineEnd(c: char) {
    c in {'\n', '\r', '\U{000B}', '\U{000C}', '\U{001C}', '\U{001D}', '\U{001E}', '\U{0085}', '\U{2028}', '\U{2029}'}
  }

  /** Lines and their ends, one after the other. */
  function Rejoined(lines: seq<string>, ends: seq<string>): string
    requires |lines| == |ends|
  {
    if lines == [] then "" else lines[0] + ends[0] + Rejoined(lines[1..], ends[1..])
  }

  /** A line end, or nothing after a last line that is not empty; a line feed after a carriage return belongs to it. */
  predicate EndIs(line: string, end: string, rest: string) {
    || end == "\r\n"
    || (|end| == 1 && IsLineEnd(end[0]) && !(end == "\r" && rest != "" && rest[0] == '\n'))
    || (end == "" && rest == "" && line != "")
  }

  /** `lines` are the lines of the text: no line end within them, one after each, and together they are the text. */
  ghost predicate LinesOf(lines: seq<string>, ends: seq<string>) {
    && |ends| == |lines|
    && (forall i, k :: 0 <= i < |lines| && 0 <= k < |lines[i]| ==> !IsLineEnd(lines[i][k]))
    && forall i :: 0 <= i < |lines| ==> EndIs(lines[i], ends[i], Rejoined(lines[i + 1..], ends[i + 1..]))
  }

  lemma LinesOfStep(line: string, end: string, lines: seq<string>, ends: seq<string>)
    requires LinesOf(lines, ends) && EndIs(line, end, Rejoined(lines, ends))
    requires forall k :: 0 <= k < |line| ==> !IsLineEnd(line[k])
    ensures LinesOf([line] + lines, [end] + ends)
    ensures Rejoined([line] + lines, [end] + ends) == line + end + Rejoined(lines, ends)
  {
    hide EndIs, IsLineEnd;
    var (all, allEnds) := ([line] + lines, [end] + ends);
    assert all[1..] == lines && allEnds[1..] == ends;
    forall i | 0 <= i < |all| ensures EndIs(all[i], allEnds[i], Rejoined(all[i + 1..], allEnds[i + 1..])) {
      if i > 0 {
        assert all[i] == lines[i - 1] && allEnds[i] == ends[i - 1];
        assert all[i + 1..] == lines[i..] && allEnds[i + 1..] == ends[i..];
        assert lines[i - 1 + 1..] == lines[i..] && ends[i - 1 + 1..] == ends[i..];
      }
    }
  }

  /** Splitting takes a text apart at its line ends, and nowhere else. */
  lemma {:induction false} SplitExactly(s: string) returns (ends: seq<string>)
    ensures LinesOf(SplitLines(s), ends) && Rejoined(SplitLines(s), ends) == s
    decreases |s|
  {
    hide SplitLines, LinesOf;
    if s == "" {
      ends := [];
      NoLines();
    } else if FirstBreak(s) < |s| {
      var line, brk, rest := Broken(s);
      SplitAt(line, brk, rest);
      ends := SplitExactly(rest);
      LinesOfStep(line, brk, SplitLines(rest), ends);
      ends := [brk] + ends;
      assert [line] + SplitLines(rest) == SplitLines(s);
    } else {
      UnbrokenLine(s);
      NoLines();
      LinesOfStep(s, "", [], []);
      ends := [""];
      assert [s] + [] == [s] && [""] + [] == [""];
    }
  }

  lemma NoLines()
    ensures SplitLines("") == [] && LinesOf([], []) && Rejoined([], []) == ""
  {
  }

  /** Every line of a printed quote. */
  lemma BlockquoteExactly(value: string, prefix: string, i: nat)
    requires i < |SplitLines(value)|
    ensures |Blockquote(value, prefix)| == |SplitLines(value)|
    ensures var line := SplitLines(value)[i];
            Blockquote(value, prefix)[i]
            == if line == "" then prefix + ">" else prefix + "> " + EscapeMarkdownText(line)
  {
    hide EscapeMarkdownText, SplitLines;
    LinesEscape(value);
    FirstEscaped(SplitLines(value)[i]);
    var escaped := EscapeMarkdownText(SplitLines(value)[i]);
    assert prefix + ("> " + escaped) == prefix + "> " + escaped;
  }
}
