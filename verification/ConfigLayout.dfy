/** The texts of a configuration: its tokens with any blanks, newlines and comments between
them.  The scanner reads such a text as those tokens, and ends with its stack empty.
 */
module ConfigLayout {
  import opened CStrings
  import opened Wrappers
  import opened L = Lexer
  import opened ConfigText
  import opened Parser
  import opened ConfigParse

  // ---------------------------------------------------------------- layouts

  datatype Filler = Blank(c: char) | LineEnd | Remark(text: string)

  predicate FillerOk(f: Filler) {
    match f
    case Blank(c) => c == ' ' || c == '\t'
    case LineEnd => true
    case Remark(text) => forall i :: 0 <= i < |text| ==> text[i] != '\n'
  }

  predicate GapOk(gap: seq<Filler>) {
    forall i :: 0 <= i < |gap| ==> FillerOk(gap[i])
  }

  function FillerText(f: Filler): string {
    match f
    case Blank(c) => [c]
    case LineEnd => "\n"
    case Remark(text) => "#" + text + "\n"
  }

  function GapText(gap: seq<Filler>): string {
    if gap == [] then "" else FillerText(gap[0]) + GapText(gap[1..])
  }

  function GapLines(gap: seq<Filler>): nat {
    if gap == [] then 0 else (if gap[0].Blank? then 0 else 1) + GapLines(gap[1..])
  }

  /** What stands at the end: a gap, and a comment that no newline ends. */
  datatype Ending = Ending(gap: seq<Filler>, remark: Option<string>)

  function RemarkText(remark: Option<string>): string {
    if remark.Some? then "#" + remark.value else ""
  }

  function EndText(end: Ending): string {
    GapText(end.gap) + RemarkText(end.remark)
  }

  predicate EndOk(end: Ending) {
    GapOk(end.gap) && (end.remark.Some? ==> FillerOk(Remark(end.remark.value)))
  }

  /** What stands before a token: a gap, and after a closing brace another one. */
  type Layout = seq<(seq<Filler>, seq<Filler>)>

  function Shown(e: Expect): string {
    if e.kind == Text then "\"" + e.text + "\"" else e.text
  }

  function TextOf(es: seq<Expect>, layout: Layout, end: Ending): string
    requires |layout| == |es|
    decreases |es|
  {
    if es == [] then EndText(end)
    else
      GapText(layout[0].0)
      + ((if es[0].closes then "}" + GapText(layout[0].1) else "")
      + (Shown(es[0]) + TextOf(es[1..], layout[1..], end)))
  }

  /** Tokens that would run together. */
  predicate WordLike(e: Expect) {
    e.kind != Text && e.kind != Semi && e.kind != LBrace && e.kind != RBrace
  }

  predicate LayoutOk(es: seq<Expect>, layout: Layout, end: Ending) {
    && |layout| == |es| && EndOk(end)
    && (forall i :: 0 <= i < |es| ==> GapOk(layout[i].0) && GapOk(layout[i].1))
    && (forall i :: 0 < i < |es| && WordLike(es[i - 1]) && WordLike(es[i]) ==> layout[i].0 != [])
  }

  // ---------------------------------------------------------------- tokens in their place

  /** The scanner, in this start condition, can read the token. */
  predicate LexOk(c: Cond, e: Expect) {
    if e.kind == Text then IsQuoted(e.text)
    else if e.kind == Semi then e.text == ";"
    else if c == Generic then
      if e.kind == Word then IsIdentifier(e.text) && e.text != "yes" && e.text != "no"
      else if e.kind == Number then e.text != "" && forall i :: 0 <= i < |e.text| ==> IsNumeral(e.text[i])
      else if e.kind == Yes then e.text == "yes"
      else e.kind == No && e.text == "no"
    else if e.kind == LBrace then e.text == "{"
    else if e.kind == RBrace then e.text == "}"
    else IsKeywordToken(e)
  }

  predicate IsKeywordToken(e: Expect) {
    && IsKeyword(e.kind) && !HasText(e.kind) && IsIdentifier(e.text)
    && var k := FindKeyword(KEYWORDS, e.text, 0);
       k < |KEYWORDS| && KEYWORDS[k].1 == e.kind
  }

  function After(c: Cond, e: Expect): Cond {
    if e.opens then Generic else if e.closes then Initial else c
  }

  predicate FitsOne(c: Cond, e: Expect) {
    && (e.closes ==> c == Generic && e.kind == Semi)
    && (e.opens ==> c == Initial && e.kind == LBrace && !e.closes)
    && LexOk(if e.closes then Initial else c, e)
  }

  /** The start condition after the tokens, if they can be read one after another. */
  function Fits(c: Cond, es: seq<Expect>): Option<Cond>
    decreases |es|
  {
    if es == [] then Some(c)
    else if FitsOne(c, es[0]) then Fits(After(c, es[0]), es[1..])
    else None
  }

  // ---------------------------------------------------------------- reading gaps

  function Past(s: Scanner, lines: nat, rest: string): Scanner {
    s.(rest := rest, lineno := s.lineno + lines)
  }

  lemma SkipBlank(s: Scanner, c: char, rest: string)
    requires s.rest == [c] + rest && IsBlank(c) && s.cond != InString
    ensures Yylex(s) == Yylex(Past(s, 0, rest))
  {
    assert Past(s, 0, rest) == s.(rest := rest);
    var n := Run(Blanks, s.rest);
    assert s.rest[1..] == rest;
    assert n == 1 + Run(Blanks, rest);
    assert s.rest[n..] == rest[n - 1..];
    if rest != "" && IsBlank(rest[0]) {
      assert Step(s.(rest := rest)) == Again(s.(rest := rest[n - 1..]));
    } else {
      assert rest[n - 1..] == rest;
    }
  }

  lemma StepNewline(s: Scanner, rest: string)
    requires s.rest == "\n" + rest && s.cond != InString
    ensures Step(s) == Again(s.(rest := rest, lineno := s.lineno + 1))
  {
    assert s.rest[1..] == rest;
  }

  lemma SkipNewline(s: Scanner, rest: string)
    requires s.rest == "\n" + rest && s.cond != InString
    ensures Yylex(s) == Yylex(Past(s, 1, rest))
  {
    StepNewline(s, rest);
    YylexAgain(s, Past(s, 1, rest));
  }

  lemma {:induction false} RunIs(these: CharClass, s: string, n: nat)
    requires n <= |s| && (forall i :: 0 <= i < n ==> In(s[i], these)) && (n < |s| ==> !In(s[n], these))
    ensures Run(these, s) == n
  {
    if n > 0 {
      RunIs(these, s[1..], n - 1);
    }
  }

  lemma StepRemark(s: Scanner, text: string, rest: string)
    requires s.rest == "#" + text + "\n" + rest && FillerOk(Remark(text)) && s.cond != InString
    ensures Step(s) == Again(Past(s, 0, "\n" + rest))
  {
    RunIs(NotNewlines, s.rest, 1 + |text|);
    assert s.rest[1 + |text|..] == "\n" + rest;
  }

  lemma SkipRemark(s: Scanner, text: string, rest: string)
    requires s.rest == "#" + text + "\n" + rest && FillerOk(Remark(text)) && s.cond != InString
    ensures Yylex(s) == Yylex(Past(s, 1, rest))
  {
    var next := Past(s, 0, "\n" + rest);
    StepRemark(s, text, rest);
    YylexAgain(s, next);
    SkipNewline(next, rest);
    assert Past(next, 1, rest) == Past(s, 1, rest);
  }

  lemma SkipFiller(s: Scanner, f: Filler, rest: string)
    requires s.rest == FillerText(f) + rest && FillerOk(f) && s.cond != InString
    ensures Yylex(s) == Yylex(Past(s, if f.Blank? then 0 else 1, rest))
  {
    match f
    case Blank(c) => SkipBlank(s, c, rest);
    case LineEnd => SkipNewline(s, rest);
    case Remark(text) => SkipRemark(s, text, rest);
  }

  lemma GapCons(s: Scanner, gap: seq<Filler>, rest: string)
    requires gap != []
    ensures GapText(gap) + rest == FillerText(gap[0]) + (GapText(gap[1..]) + rest)
    ensures Past(Past(s, if gap[0].Blank? then 0 else 1, GapText(gap[1..]) + rest), GapLines(gap[1..]), rest)
      == Past(s, GapLines(gap), rest)
  {
  }

  lemma {:induction false} SkipGap(s: Scanner, gap: seq<Filler>, rest: string)
    requires s.rest == GapText(gap) + rest && GapOk(gap) && s.cond != InString
    ensures Yylex(s) == Yylex(Past(s, GapLines(gap), rest))
    decreases |gap|
  {
    if gap == [] {
      assert Past(s, GapLines(gap), rest) == s;
    } else {
      var more := GapText(gap[1..]) + rest;
      var next := Past(s, if gap[0].Blank? then 0 else 1, more);
      GapCons(s, gap, rest);
      SkipGap(next, gap[1..], rest);
      SkipFiller(s, gap[0], more);
    }
  }

  // ---------------------------------------------------------------- reading tokens

  /** A quote that ends a string, and a brace that ends generic values, give no token. */
  lemma StepPop(s: Scanner, c: char, rest: string)
    requires s.rest == [c] + rest
    requires (s.cond == InString && c == '"') || (s.cond == Generic && c == '}')
    ensures Step(s) == Again(s.(rest := rest).Pop())
  {
    assert s.rest[1..] == rest;
  }

  lemma SkipPop(s: Scanner, c: char, rest: string)
    requires s.rest == [c] + rest
    requires (s.cond == InString && c == '"') || (s.cond == Generic && c == '}')
    ensures Yylex(s) == Yylex(s.(rest := rest).Pop())
  {
    StepPop(s, c, rest);
    YylexAgain(s, s.(rest := rest).Pop());
  }

  lemma StepQuote(s: Scanner, rest: string)
    requires s.rest == "\"" + rest && s.cond != InString
    ensures Step(s) == Again(s.(rest := rest).Push(InString))
  {
    assert s.rest[1..] == rest;
  }

  lemma PushThenPop(s: Scanner, rest0: string, rest: string)
    requires s.cond != InString
    ensures s.(rest := rest0).Push(InString).(rest := rest).Pop() == s.(rest := rest)
  {
  }

  /** An empty string gives no token at all. */
  lemma EmptyStringIsSkipped(s: Scanner, inside: Scanner, rest: string)
    requires s.rest == "\"" + ("\"" + rest) && s.cond != InString
    requires inside == s.(rest := "\"" + rest).Push(InString)
    ensures Yylex(s) == Yylex(s.(rest := rest))
  {
    PushThenPop(s, "\"" + rest, rest);
    StepQuote(s, "\"" + rest);
    SkipPop(inside, '"', rest);
    YylexAgain(s, inside);
  }

  lemma StepText(s: Scanner, text: string, rest: string)
    requires s.rest == text + ("\"" + rest) && IsQuoted(text) && s.cond == InString
    ensures Step(s) == Turn.Token(Text, s.(rest := "\"" + rest, val := text))
  {
    RunIs(Quotables, s.rest, |text|);
    assert s.rest[..|text|] == text && s.rest[|text|..] == "\"" + rest;
    StrUnique(text, 0, |text|);
    assert text[0..|text|] == text && s.rest[0] == text[0];
  }

  lemma LexText(s: Scanner, text: string, rest: string)
    requires s.rest == "\"" + (text + ("\"" + rest)) && IsQuoted(text) && s.cond != InString
    ensures Yylex(s) == (Text, s.(rest := "\"" + rest, val := text).Push(InString))
  {
    var inside := s.(rest := text + ("\"" + rest)).Push(InString);
    StepQuote(s, text + ("\"" + rest));
    YylexAgain(s, inside);
    StepText(inside, text, rest);
    YylexToken(inside, Text, inside.(rest := "\"" + rest, val := text));
  }

  /** The first character of what follows a word-like token does not lengthen it. */
  predicate Apart(rest: string) {
    rest != "" ==> !IsWordChar(rest[0])
  }

  lemma WordIsChosen(c: Cond, s: string)
    requires c != InString && s != "" && IsWordStart(s[0])
    ensures var n := Run(WordChars, s); Choose(KEYWORDS, c, s) == (WordAction(KEYWORDS, c, s[..n]), n)
  {
  }

  lemma WordActionIs(c: Cond, e: Expect)
    requires c != InString && LexOk(c, e) && WordLike(e) && IsIdentifier(e.text)
    ensures WordAction(KEYWORDS, c, e.text) == if c == Generic then ReturnText(e.kind) else Return(e.kind)
  {
  }

  lemma StepWord(s: Scanner, e: Expect, rest: string)
    requires s.rest == e.text + rest && IsIdentifier(e.text) && Apart(rest)
    requires s.cond != InString && LexOk(s.cond, e) && WordLike(e)
    ensures Step(s) == Turn.Token(e.kind, s.(rest := rest, val := if s.cond == Generic then e.text else s.val))
  {
    var n := |e.text|;
    assert forall i :: 0 <= i < n ==> s.rest[i] == e.text[i];
    RunIs(WordChars, s.rest, n);
    assert s.rest[..n] == e.text && s.rest[n..] == rest;
    WordIsChosen(s.cond, s.rest);
    WordActionIs(s.cond, e);
    StrUnique(e.text, 0, n);
    assert e.text[0..n] == e.text;
  }

  lemma NumberIsChosen(c: Cond, s: string)
    requires c != InString && s != "" && IsNumeral(s[0])
    ensures Choose(KEYWORDS, c, s) == (ReturnText(Number), Run(Numerals, s))
  {
  }

  lemma StepNumber(s: Scanner, digits: string, rest: string)
    requires s.rest == digits + rest && digits != "" && (forall i :: 0 <= i < |digits| ==> IsNumeral(digits[i]))
    requires Apart(rest) && s.cond != InString
    ensures Step(s) == Turn.Token(Number, s.(rest := rest, val := digits))
  {
    var n := |digits|;
    assert forall i :: 0 <= i < n ==> s.rest[i] == digits[i];
    RunIs(Numerals, s.rest, n);
    NumberIsChosen(s.cond, s.rest);
    assert s.rest[..n] == digits && s.rest[n..] == rest;
    StrUnique(digits, 0, n);
    assert digits[0..n] == digits;
  }

  lemma StepMark(s: Scanner, e: Expect, rest: string)
    requires s.rest == e.text + rest && s.cond != InString && LexOk(s.cond, e)
    requires e.kind == Semi || e.kind == LBrace || e.kind == RBrace
    ensures Step(s) == Turn.Token(e.kind, s.(rest := rest))
  {
    assert |e.text| == 1 && s.rest[1..] == rest && s.rest[0] == e.text[0];
  }

  // ---------------------------------------------------------------- reading all the tokens

  lemma AheadSame(s: Scanner, t: Scanner)
    requires Yylex(s) == Yylex(t)
    ensures Ahead(s) == Ahead(t)
  {
  }

  lemma AheadToken(s: Scanner, kind: Kind, next: Scanner)
    requires Yylex(s) == (kind, next) && kind != Eof
    ensures Ahead(s) == Tokens.Token(kind, next.val, Ahead(next),
                                     if kind == LBrace then Ahead(PushGeneric(next)) else Ahead(next))
  {
  }

  lemma GapAhead(s: Scanner, gap: seq<Filler>, more: string) returns (t: Scanner)
    requires s.cond != InString && GapOk(gap) && s.rest == GapText(gap) + more
    ensures Ahead(s) == Ahead(t) && t.rest == more && t.cond == s.cond && t.stack == s.stack
  {
    t := Past(s, GapLines(gap), more);
    SkipGap(s, gap, more);
    AheadSame(s, t);
  }

  lemma BraceAhead(s: Scanner, more: string) returns (t: Scanner)
    requires s.cond == Generic && s.rest == ['}'] + more
    ensures Ahead(s) == Ahead(t) && t.rest == more && t.cond == Initial
  {
    t := s.(rest := more).Pop();
    SkipPop(s, '}', more);
    AheadSame(s, t);
  }

  /** The gap before a token, and a closing brace with the gap after it. */
  lemma SkipToToken(s: Scanner, e: Expect, gaps: (seq<Filler>, seq<Filler>), more: string) returns (t: Scanner)
    requires s.cond != InString && (e.closes ==> s.cond == Generic) && GapOk(gaps.0) && GapOk(gaps.1)
    requires s.rest == GapText(gaps.0) + ((if e.closes then "}" + GapText(gaps.1) else "") + more)
    ensures Ahead(s) == Ahead(t) && t.rest == more && t.cond == (if e.closes then Initial else s.cond)
  {
    if !e.closes {
      assert "" + more == more;
      t := GapAhead(s, gaps.0, more);
    } else {
      var tail := GapText(gaps.1) + more;
      assert ("}" + GapText(gaps.1)) + more == ['}'] + tail;
      t := GapAhead(s, gaps.0, ['}'] + tail);
      t := BraceAhead(t, tail);
      t := GapAhead(t, gaps.1, more);
    }
  }

  /** A string's closing quote is still ahead after it, but gives no token. */
  lemma ReadText(s: Scanner, e: Expect, rest: string) returns (t: Scanner)
    requires e.kind == Text && !e.opens && IsQuoted(e.text) && s.cond != InString
    requires s.rest == "\"" + (e.text + ("\"" + rest))
    ensures Take(Ahead(s), e) == Some(Ahead(t)) && t.rest == rest && t.cond == s.cond
  {
    var next: Scanner := s.(rest := "\"" + rest, val := e.text).Push(InString);
    LexText(s, e.text, rest);
    AheadToken(s, Text, next);
    t := next.(rest := rest).Pop();
    SkipPop(next, '"', rest);
    AheadSame(next, t);
  }

  lemma LexOther(s: Scanner, e: Expect, rest: string) returns (next: Scanner)
    requires s.rest == e.text + rest && e.kind != Text && s.cond != InString && LexOk(s.cond, e)
    requires WordLike(e) ==> Apart(rest)
    ensures Yylex(s) == (e.kind, next) && next.rest == rest && next.cond == s.cond
    ensures HasText(e.kind) && s.cond == Generic ==> next.val == e.text
  {
    if !WordLike(e) {
      next := s.(rest := rest);
      StepMark(s, e, rest);
    } else if e.kind == Number {
      next := s.(rest := rest, val := e.text);
      StepNumber(s, e.text, rest);
    } else {
      next := s.(rest := rest, val := if s.cond == Generic then e.text else s.val);
      StepWord(s, e, rest);
    }
    YylexToken(s, e.kind, next);
  }

  lemma ReadOther(s: Scanner, e: Expect, rest: string) returns (t: Scanner)
    requires s.rest == e.text + rest && e.kind != Text && s.cond != InString && LexOk(s.cond, e)
    requires (WordLike(e) ==> Apart(rest)) && (e.opens ==> s.cond == Initial && e.kind == LBrace)
    ensures Take(Ahead(s), e) == Some(Ahead(t)) && t.rest == rest
    ensures t.cond == if e.opens then Generic else s.cond
  {
    var next := LexOther(s, e, rest);
    AheadToken(s, e.kind, next);
    t := if e.opens then PushGeneric(next) else next;
  }

  /** One token at the front. */
  lemma ReadShown(s: Scanner, e: Expect, more: string) returns (t: Scanner)
    requires s.rest == Shown(e) + more && s.cond != InString && LexOk(s.cond, e)
    requires (WordLike(e) ==> Apart(more)) && (e.opens ==> s.cond == Initial && e.kind == LBrace)
    ensures Take(Ahead(s), e) == Some(Ahead(t)) && t.rest == more
    ensures t.cond == if e.opens then Generic else s.cond
  {
    if e.kind == Text {
      assert Shown(e) + more == "\"" + (e.text + ("\"" + more));
      t := ReadText(s, e, more);
    } else {
      t := ReadOther(s, e, more);
    }
  }

  /** One token with what stands before it. */
  lemma ReadToken(s: Scanner, e: Expect, gaps: (seq<Filler>, seq<Filler>), more: string) returns (t: Scanner)
    requires s.cond != InString && FitsOne(s.cond, e) && GapOk(gaps.0) && GapOk(gaps.1)
    requires s.rest == GapText(gaps.0) + ((if e.closes then "}" + GapText(gaps.1) else "") + (Shown(e) + more))
    requires WordLike(e) ==> Apart(more)
    ensures Take(Ahead(s), e) == Some(Ahead(t)) && t.rest == more && t.cond == After(s.cond, e)
  {
    var s1 := SkipToToken(s, e, gaps, Shown(e) + more);
    t := ReadShown(s1, e, more);
  }

  lemma GapApart(gap: seq<Filler>, rest: string)
    requires GapOk(gap) && (gap == [] ==> Apart(rest))
    ensures Apart(GapText(gap) + rest)
  {
    if gap == [] {
      assert "" + rest == rest;
    } else {
      assert FillerOk(gap[0]);
      assert (GapText(gap) + rest)[0] == FillerText(gap[0])[0];
    }
  }

  lemma ShownApart(c: Cond, e: Expect, rest: string)
    requires LexOk(c, e) && !WordLike(e)
    ensures Apart(Shown(e) + rest)
  {
    assert Shown(e) != "" && (Shown(e) + rest)[0] == Shown(e)[0];
  }

  /** In an allowed layout nothing lengthens a word-like token. */
  lemma RestApart(c: Cond, es: seq<Expect>, layout: Layout, end: Ending)
    requires LayoutOk(es, layout, end) && es != [] && WordLike(es[0])
    requires |es| > 1 ==> FitsOne(c, es[1])
    ensures Apart(TextOf(es[1..], layout[1..], end))
  {
    var tail, gaps := es[1..], layout[1..];
    if tail == [] {
      GapApart(end.gap, RemarkText(end.remark));
    } else {
      var e, more := tail[0], TextOf(tail[1..], gaps[1..], end);
      var before := if e.closes then "}" + GapText(gaps[0].1) else "";
      if e.closes {
        assert (before + (Shown(e) + more))[0] == '}';
      } else {
        assert before + (Shown(e) + more) == Shown(e) + more;
        if !WordLike(e) {
          ShownApart(c, e, more);
        }
      }
      GapApart(gaps[0].0, before + (Shown(e) + more));
    }
  }

  /** A comment that the end of the file ends. */
  lemma SkipLastRemark(s: Scanner, remark: Option<string>)
    requires s.cond != InString && s.rest == RemarkText(remark)
    requires remark.Some? ==> FillerOk(Remark(remark.value))
    ensures Yylex(s) == Yylex(Past(s, 0, ""))
  {
    if remark.Some? {
      RunIs(NotNewlines, s.rest, |s.rest|);
      assert s.rest[|s.rest|..] == "";
      YylexAgain(s, Past(s, 0, ""));
    } else {
      assert Past(s, 0, "") == s;
    }
  }

  lemma ReadEnd(s: Scanner, end: Ending) returns (z: Scanner)
    requires s.cond != InString && s.rest == EndText(end) && EndOk(end)
    ensures Ahead(s) == End(z) && z.rest == "" && z.cond == s.cond
  {
    var t := Past(s, GapLines(end.gap), RemarkText(end.remark));
    SkipGap(s, end.gap, RemarkText(end.remark));
    SkipLastRemark(t, end.remark);
    z := Past(t, 0, "");
    AheadSame(s, z);
  }

  lemma LayoutTail(es: seq<Expect>, layout: Layout, end: Ending)
    requires LayoutOk(es, layout, end) && es != []
    ensures LayoutOk(es[1..], layout[1..], end)
  {
  }

  /** The scanner reads a text as its tokens, and then finds the end. */
  lemma {:induction false} FollowText(s: Scanner, es: seq<Expect>, layout: Layout, end: Ending) returns (z: Scanner)
    requires s.cond != InString && LayoutOk(es, layout, end) && Fits(s.cond, es).Some?
    requires s.rest == TextOf(es, layout, end)
    ensures Follow(Ahead(s), es) == Some(End(z)) && z.rest == "" && z.cond == Fits(s.cond, es).value
    decreases |es|
  {
    if es == [] {
      z := ReadEnd(s, end);
    } else {
      if WordLike(es[0]) {
        RestApart(After(s.cond, es[0]), es, layout, end);
      }
      LayoutTail(es, layout, end);
      var t := ReadToken(s, es[0], layout[0], TextOf(es[1..], layout[1..], end));
      z := FollowText(t, es[1..], layout[1..], end);
    }
  }

  // ---------------------------------------------------------------- a configuration's tokens fit

  lemma {:induction false} FitsConcat(c: Cond, a: seq<Expect>, b: seq<Expect>)
    ensures Fits(c, a + b) == match Fits(c, a) case None => None case Some(d) => Fits(d, b)
    decreases |a|
  {
    if a == [] {
      assert a + b == b;
    } else {
      assert (a + b)[1..] == a[1..] + b;
      if FitsOne(c, a[0]) {
        FitsConcat(After(c, a[0]), a[1..], b);
      }
    }
  }

  lemma FitsCons(c: Cond, e: Expect, es: seq<Expect>)
    ensures Fits(c, Cons(e, es)) == if FitsOne(c, e) then Fits(After(c, e), es) else None
  {
    assert Cons(e, es)[1..] == es;
  }

  function Unspelled(w: string): Kind {
    if |w| == 2 then if w[0] == 'n' then No else Cf
    else if |w| == 3 then if w[0] == 'y' then Yes else if w[1] == 'i' then Min else Max
    else if |w| == 4 then
      if w[0] == 't' then Type else if w[0] == 'f' then File else if w[0] == 'a' then Auth else Last
    else if |w| == 5 then if w[0] == 'p' then Proto else Gauge
    else if |w| == 6 then
      if w[0] == 'g' then Global else if w[0] == 'p' then Plugin else if w[0] == 'd' then Derive
      else if w[1] == 'e' then Sensor else Kind.System
    else if |w| == 7 then if w[0] == 's' then Storage else if w[0] == 'c' then Counter else Average
    else if |w| == 8 then if w[0] == 'd' then Kind.DataSet else Absolute
    else Desc
  }

  lemma SpellingIsUnique(k: Kind)
    requires IsKeyword(k)
    ensures Unspelled(Spelling(k)) == k
  {
  }

  lemma GlobalSpelling(i: nat)
    requires i < |GLOBAL_WORDS|
    ensures GLOBAL_WORDS[i].0 == Spelling(GLOBAL_WORDS[i].1)
  {
  }

  lemma DataSpelling(i: nat)
    requires i < |DATA_WORDS|
    ensures DATA_WORDS[i].0 == Spelling(DATA_WORDS[i].1)
  {
  }

  lemma SystemSpelling(i: nat)
    requires i < |SYSTEM_WORDS|
    ensures SYSTEM_WORDS[i].0 == Spelling(SYSTEM_WORDS[i].1)
  {
  }

  lemma KeywordSpelling(i: nat)
    requires i < |KEYWORDS|
    ensures KEYWORDS[i].0 == Spelling(KEYWORDS[i].1)
  {
    var words, data := GLOBAL_WORDS + DATA_WORDS, |GLOBAL_WORDS|;
    if i < data {
      GlobalSpelling(i);
      assert KEYWORDS[i] == words[i] == GLOBAL_WORDS[i];
    } else if i < |words| {
      DataSpelling(i - data);
      assert KEYWORDS[i] == words[i] == DATA_WORDS[i - data];
    } else {
      SystemSpelling(i - |words|);
      assert KEYWORDS[i] == SYSTEM_WORDS[i - |words|];
    }
  }

  lemma KeywordIndex(k: Kind) returns (i: nat)
    requires IsKeyword(k)
    ensures i < |KEYWORDS| && KEYWORDS[i].1 == k
  {
    match k
    case Global => i := 0;
    case Plugin => i := 1;
    case Type => i := 2;
    case File => i := 3;
    case Storage => i := 4;
    case Sensor => i := 5;
    case Proto => i := 6;
    case Auth => i := 7;
    case DataSet => i := 8;
    case Counter => i := 9;
    case Derive => i := 10;
    case Absolute => i := 11;
    case Gauge => i := 12;
    case Yes => i := 13;
    case No => i := 14;
    case System => i := 15;
    case Desc => i := 16;
    case Cf => i := 17;
    case Average => i := 18;
    case Min => i := 19;
    case Max => i := 20;
    case Last => i := 21;
  }

  lemma KeywordFits(k: Kind)
    requires IsKeyword(k) && !HasText(k)
    ensures FitsOne(Initial, Tok(k))
  {
    var i := KeywordIndex(k);
    KeywordSpelling(i);
    SpellingIsUnique(k);
    var j := FindKeyword(KEYWORDS, Spelling(k), 0);
    if j < |KEYWORDS| {
      KeywordSpelling(j);
      SpellingIsUnique(KEYWORDS[j].1);
    }
  }
}
