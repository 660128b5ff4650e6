/** The configuration scanner, src/plugins/config/file_lexer.l.

Flex runs, among the rules of the current start condition, the one whose pattern matches the
longest prefix of the input, and the earliest of those; a character that no rule matches is
echoed.  Rules and IsFlexChoice say that; Choose is the scanner's dispatch on the first
character, proved to be the same thing.
 */
module Lexer {
  import opened CStrings
  import opened Wrappers

  datatype Kind =
    | Global | Plugin | Type | File | Storage | Sensor | Proto | Auth | DataSet
    | Counter | Derive | Absolute | Gauge | Yes | No | System | Desc
    | Cf | Average | Min | Max | Last
    | Semi | LBrace | RBrace | Crap | Word | Text | Number
    | Eof

  datatype Cond = Initial | InString | Generic

  // ---------------------------------------------------------------- the rules

  predicate IsBlank(c: char) { c == ' ' || c == '\t' }

  predicate IsNumeral(c: char) { '0' <= c <= '9' }

  predicate IsWordStart(c: char) { 'A' <= c <= 'Z' || 'a' <= c <= 'z' || c == '_' }

  predicate IsWordChar(c: char) { IsWordStart(c) || IsNumeral(c) }

  predicate IsCrap(c: char) {
    !IsWordChar(c) && !IsBlank(c) && c != '\n' && c != ';' && c != '#' && c != '{' && c != '}' && c != '"'
  }

  predicate IsQuotable(c: char) { c != '"' && c != '\n' }

  predicate IsNotNewline(c: char) { c != '\n' }

  const CAPITALS: set<char> := {
    'A', 'B', 'C', 'D', 'E', 'F', 'G', 'H', 'I', 'J', 'K', 'L', 'M',
    'N', 'O', 'P', 'Q', 'R', 'S', 'T', 'U', 'V', 'W', 'X', 'Y', 'Z'}

  const SMALLS: set<char> := {
    'a', 'b', 'c', 'd', 'e', 'f', 'g', 'h', 'i', 'j', 'k', 'l', 'm',
    'n', 'o', 'p', 'q', 'r', 's', 't', 'u', 'v', 'w', 'x', 'y', 'z'}

  const DIGITS: set<char> := {'0', '1', '2', '3', '4', '5', '6', '7', '8', '9'}

  const MARKS: set<char> := {' ', '\t', '\n', ';', '#', '{', '}', '"'}

  /** The classes, character by character. */
  lemma ClassesAre(c: char)
    ensures IsBlank(c) <==> c == ' ' || c == '\t'
    ensures IsNumeral(c) <==> c in DIGITS
    ensures IsWordStart(c) <==> c in CAPITALS || c in SMALLS || c == '_'
    ensures IsWordChar(c) <==> c in CAPITALS || c in SMALLS || c in DIGITS || c == '_'
    ensures IsCrap(c) <==> !(c in CAPITALS || c in SMALLS || c in DIGITS || c == '_' || c in MARKS)
  {
  }

  datatype CharClass = Blanks | Numerals | WordChars | Craps | Quotables | NotNewlines

  predicate In(c: char, these: CharClass) {
    match these
    case Blanks => IsBlank(c)
    case Numerals => IsNumeral(c)
    case WordChars => IsWordChar(c)
    case Craps => IsCrap(c)
    case Quotables => IsQuotable(c)
    case NotNewlines => IsNotNewline(c)
  }

  /** The length of the longest prefix of s inside the class. */
  function Run(these: CharClass, s: string): (n: nat)
    ensures n <= |s| && (forall i :: 0 <= i < n ==> In(s[i], these))
    ensures n < |s| ==> !In(s[n], these)
  {
    if s == "" || !In(s[0], these) then 0 else 1 + Run(these, s[1..])
  }

  datatype Pattern =
    | Literal(text: string)
    | Plus(these: CharClass)
    | Star(these: CharClass)
    | Identifier
    | Comment
    | Any

  /** Does the pattern match exactly this text? */
  ghost predicate Matches(p: Pattern, s: string) {
    match p
    case Literal(text) => s == text
    case Plus(these) => s != "" && forall i :: 0 <= i < |s| ==> In(s[i], these)
    case Star(these) => forall i :: 0 <= i < |s| ==> In(s[i], these)
    case Identifier => s != "" && IsWordStart(s[0]) && forall i :: 0 <= i < |s| ==> IsWordChar(s[i])
    case Comment => s != "" && s[0] == '#' && forall i :: 0 <= i < |s| ==> s[i] != '\n'
    case Any => |s| == 1
  }

  datatype Action =
    | Skip
    | NewLine
    | Return(kind: Kind)
    | ReturnText(kind: Kind)
    | PushString
    | Pop
    | Echo

  datatype Rule = Rule(pattern: Pattern, action: Action)

  predicate IsKeyword(k: Kind) {
    k != Semi && k != LBrace && k != RBrace && k != Crap && k != Word && k != Text && k != Number && k != Eof
  }

  predicate IsIdentifier(w: string) {
    w != "" && IsWordStart(w[0]) && forall i :: 0 <= i < |w| ==> IsWordChar(w[i])
  }

  /** Keywords, each with its token, in the order of their rules. */
  type Keywords = words: seq<(string, Kind)> |
    forall i :: 0 <= i < |words| ==> IsIdentifier(words[i].0) && IsKeyword(words[i].1)
    witness []

  function KeywordRules(words: Keywords): (rules: seq<Rule>)
    ensures |rules| == |words|
    ensures forall i :: 0 <= i < |rules| ==> rules[i] == Rule(Literal(words[i].0), Return(words[i].1))
  {
    seq(|words|, i requires 0 <= i < |words| => Rule(Literal(words[i].0), Return(words[i].1)))
  }

  const LAYOUT: seq<Rule> := [Rule(Plus(Blanks), Skip), Rule(Literal("\n"), NewLine), Rule(Comment, Skip)]

  const INITIAL_REST: seq<Rule> := [
    Rule(Literal(";"), Return(Semi)),
    Rule(Literal("{"), Return(LBrace)),
    Rule(Literal("}"), Return(RBrace)),
    Rule(Literal("\""), PushString),
    Rule(Plus(Numerals), ReturnText(Number)),
    Rule(Identifier, ReturnText(Word)),
    Rule(Plus(Craps), Return(Crap)),
    Rule(Any, Echo)]

  const GENERIC_REST: seq<Rule> := [
    Rule(Literal("yes"), ReturnText(Yes)),
    Rule(Literal("no"), ReturnText(No)),
    Rule(Literal(";"), Return(Semi)),
    Rule(Literal("\""), PushString),
    Rule(Identifier, ReturnText(Word)),
    Rule(Plus(Numerals), ReturnText(Number)),
    Rule(Literal("}"), Pop),
    Rule(Plus(Craps), Return(Crap)),
    Rule(Any, Echo)]

  /** The rules of the file, with its keywords. */
  function Rules(words: Keywords, cond: Cond): seq<Rule> {
    match cond
    case Initial => LAYOUT + KeywordRules(words) + INITIAL_REST
    case InString => [
      Rule(Literal("\""), Pop),
      Rule(Star(Quotables), ReturnText(Text)),
      Rule(Any, Echo)]
    case Generic => LAYOUT + GENERIC_REST
  }

  /** Flex takes n characters by rule r: no rule matches more, and no earlier one as many. */
  ghost predicate IsFlexChoice(rules: seq<Rule>, s: string, r: nat, n: nat)
    requires r < |rules| && n <= |s|
  {
    && Matches(rules[r].pattern, s[..n])
    && forall q, m :: 0 <= q < |rules| && 0 <= m <= |s| && Matches(rules[q].pattern, s[..m]) ==>
         m < n || (m == n && r <= q)
  }

  // ---------------------------------------------------------------- the dispatch

  /** The first keyword from i on that is spelled w. */
  function FindKeyword(words: Keywords, w: string, i: nat): (k: nat)
    requires i <= |words|
    ensures i <= k <= |words| && (k < |words| ==> words[k].0 == w)
    ensures forall j :: i <= j < k ==> words[j].0 != w
    ensures k < |words| ==> IsKeyword(words[k].1)
    decreases |words| - i
  {
    if i == |words| || words[i].0 == w then i else FindKeyword(words, w, i + 1)
  }

  function WordAction(words: Keywords, cond: Cond, w: string): (a: Action)
    ensures a.Return? || a.ReturnText?
    ensures a.kind == Word || IsKeyword(a.kind)
  {
    if cond == Generic then ReturnText(if w == "yes" then Yes else if w == "no" then No else Word)
    else
      var k := FindKeyword(words, w, 0);
      if k < |words| then Return(words[k].1) else ReturnText(Word)
  }

  /** What the scanner does next, and on how many characters. */
  function Choose(words: Keywords, cond: Cond, s: string): (r: (Action, nat))
    requires s != ""
    ensures 0 < r.1 <= |s|
    ensures r.0.Return? || r.0.ReturnText? ==> r.0.kind != Eof
    ensures r.0.Return? && r.0.kind == LBrace ==> cond == Initial
    ensures r.0.ReturnText? ==> r.0.kind != LBrace
    ensures r.0 == PushString ==> cond != InString
    ensures r.0 == Pop ==> cond != Initial
  {
    var c := s[0];
    if cond == InString then
      if c == '"' then (Pop, 1)
      else if c == '\n' then (Echo, 1)
      else (ReturnText(Text), Run(Quotables, s))
    else if IsBlank(c) then (Skip, Run(Blanks, s))
    else if c == '\n' then (NewLine, 1)
    else if c == '#' then (Skip, Run(NotNewlines, s))
    else if IsWordStart(c) then
      var n := Run(WordChars, s);
      (WordAction(words, cond, s[..n]), n)
    else if IsNumeral(c) then (ReturnText(Number), Run(Numerals, s))
    else if c == ';' then (Return(Semi), 1)
    else if c == '"' then (PushString, 1)
    else if c == '{' then (if cond == Generic then Echo else Return(LBrace), 1)
    else if c == '}' then (if cond == Generic then Pop else Return(RBrace), 1)
    else (Return(Crap), Run(Craps, s))
  }

  // ---------------------------------------------------------------- why the dispatch is right

  lemma {:induction false} RunIsLongest(these: CharClass, s: string, m: nat)
    requires m <= |s| && forall i :: 0 <= i < m ==> In(s[i], these)
    ensures m <= Run(these, s)
  {
    if m > 0 {
      RunIsLongest(these, s[1..], m - 1);
    }
  }

  /** How much of s a pattern can match. */
  ghost predicate Bounded(p: Pattern, s: string, m: nat)
    requires m <= |s|
  {
    match p
    case Literal(text) => m == |text| && text <= s && s[..m] == text
    case Plus(these) => 0 < m <= Run(these, s) && In(s[0], these)
    case Star(these) => m <= Run(these, s)
    case Identifier => 0 < m <= Run(WordChars, s) && IsWordStart(s[0])
    case Comment => 0 < m <= Run(NotNewlines, s) && s[0] == '#'
    case Any => m == 1
  }

  lemma MatchesBounded(p: Pattern, s: string, m: nat)
    requires m <= |s| && Matches(p, s[..m])
    ensures Bounded(p, s, m)
  {
    var t := s[..m];
    assert forall i :: 0 <= i < m ==> t[i] == s[i];
    match p
    case Literal(text) =>
    case Plus(these) => RunIsLongest(these, s, m);
    case Star(these) => RunIsLongest(these, s, m);
    case Identifier => RunIsLongest(WordChars, s, m);
    case Comment => RunIsLongest(NotNewlines, s, m);
    case Any =>
  }

  /** The rule that Choose applies. */
  function Chosen(words: Keywords, cond: Cond, s: string): (r: nat)
    requires s != ""
    ensures r < |Rules(words, cond)|
  {
    var c := s[0];
    var w := s[..Run(WordChars, s)];
    match cond
    case InString => if c == '"' then 0 else if c == '\n' then 2 else 1
    case Initial =>
      if IsBlank(c) then 0
      else if c == '\n' then 1
      else if c == '#' then 2
      else if IsWordStart(c) then
        var k := FindKeyword(words, w, 0);
        if k < |words| then 3 + k else |words| + 8
      else if IsNumeral(c) then |words| + 7
      else if c == ';' then |words| + 3
      else if c == '"' then |words| + 6
      else if c == '{' then |words| + 4
      else if c == '}' then |words| + 5
      else |words| + 9
    case Generic =>
      if IsBlank(c) then 0
      else if c == '\n' then 1
      else if c == '#' then 2
      else if IsWordStart(c) then if w == "yes" then 3 else if w == "no" then 4 else 7
      else if IsNumeral(c) then 8
      else if c == ';' then 5
      else if c == '"' then 6
      else if c == '{' then 11
      else if c == '}' then 9
      else 10
  }

  /** Rule r of the list takes n characters and does the action. */
  ghost predicate Takes(rules: seq<Rule>, s: string, r: nat, action: Action, n: nat)
    requires r < |rules| && n <= |s|
  {
    rules[r].action == action && Matches(rules[r].pattern, s[..n])
  }

  lemma StringChosen(words: Keywords, s: string)
    requires s != ""
    ensures var c := Choose(words, InString, s);
      Takes(Rules(words, InString), s, Chosen(words, InString, s), c.0, c.1)
  {
    assert forall i :: 0 <= i < Choose(words, InString, s).1 ==> s[..Choose(words, InString, s).1][i] == s[i];
  }

  lemma GenericChosen(words: Keywords, s: string)
    requires s != ""
    ensures var c := Choose(words, Generic, s);
      Takes(Rules(words, Generic), s, Chosen(words, Generic, s), c.0, c.1)
  {
    assert forall i :: 0 <= i < Choose(words, Generic, s).1 ==> s[..Choose(words, Generic, s).1][i] == s[i];
  }

  lemma InitialWordChosen(words: Keywords, s: string)
    requires s != "" && IsWordStart(s[0])
    ensures var c := Choose(words, Initial, s);
      Takes(Rules(words, Initial), s, Chosen(words, Initial, s), c.0, c.1)
  {
    var t := s[..Run(WordChars, s)];
    var k := FindKeyword(words, t, 0);
    if k < |words| {
      assert Rules(words, Initial)[3 + k] == KeywordRules(words)[k];
    } else {
      assert Rules(words, Initial)[|words| + 8] == INITIAL_REST[5];
      assert forall i :: 0 <= i < |t| ==> t[i] == s[i];
    }
  }

  lemma InitialOtherChosen(words: Keywords, s: string)
    requires s != "" && !IsWordStart(s[0])
    ensures var c := Choose(words, Initial, s);
      Takes(Rules(words, Initial), s, Chosen(words, Initial, s), c.0, c.1)
  {
    var n := Choose(words, Initial, s).1;
    assert forall i :: 0 <= i < n ==> s[..n][i] == s[i];
    var r := Chosen(words, Initial, s);
    if r < 3 {
      assert Rules(words, Initial)[r] == LAYOUT[r];
    } else {
      assert Rules(words, Initial)[r] == INITIAL_REST[r - 3 - |words|];
    }
  }

  lemma ChosenTakes(words: Keywords, cond: Cond, s: string)
    requires s != ""
    ensures var c := Choose(words, cond, s);
      Takes(Rules(words, cond), s, Chosen(words, cond, s), c.0, c.1)
  {
    match cond
    case Initial =>
      if IsWordStart(s[0]) {
        InitialWordChosen(words, s);
      } else {
        InitialOtherChosen(words, s);
      }
    case InString => StringChosen(words, s);
    case Generic => GenericChosen(words, s);
  }

  lemma KeywordRuleBound(words: Keywords, s: string, q: nat, m: nat)
    requires 3 <= q < 3 + |words| && m <= |s| && Bounded(Rules(words, Initial)[q].pattern, s, m)
    ensures IsWordStart(s[0]) && m <= Run(WordChars, s)
    ensures m == Run(WordChars, s) ==> FindKeyword(words, s[..m], 0) <= q - 3
  {
    assert Rules(words, Initial)[q] == KeywordRules(words)[q - 3];
    assert forall i :: 0 <= i < m ==> s[i] == s[..m][i];
    RunIsLongest(WordChars, s, m);
  }

  /** No rule matches more than rule r does, nor an earlier one as much. */
  ghost predicate Beaten(rules: seq<Rule>, s: string, r: nat, n: nat, q: nat, m: nat)
    requires q < |rules| && m <= |s|
  {
    Bounded(rules[q].pattern, s, m) ==> m < n || (m == n && r <= q)
  }

  lemma StringRuleBeaten(words: Keywords, s: string, q: nat, m: nat)
    requires s != "" && q < |Rules(words, InString)| && m <= |s|
    ensures Beaten(Rules(words, InString), s, Chosen(words, InString, s), Choose(words, InString, s).1, q, m)
  {
  }

  lemma GenericRuleBeaten(words: Keywords, s: string, q: nat, m: nat)
    requires s != "" && q < |Rules(words, Generic)| && m <= |s|
    ensures Beaten(Rules(words, Generic), s, Chosen(words, Generic, s), Choose(words, Generic, s).1, q, m)
  {
  }

  lemma InitialRuleBeaten(words: Keywords, s: string, q: nat, m: nat)
    requires s != "" && q < |Rules(words, Initial)| && m <= |s|
    ensures Beaten(Rules(words, Initial), s, Chosen(words, Initial, s), Choose(words, Initial, s).1, q, m)
  {
    if q < 3 {
      assert Rules(words, Initial)[q] == LAYOUT[q];
    } else if q < 3 + |words| {
      if Bounded(Rules(words, Initial)[q].pattern, s, m) {
        KeywordRuleBound(words, s, q, m);
      }
    } else {
      assert Rules(words, Initial)[q] == INITIAL_REST[q - 3 - |words|];
    }
  }

  lemma RuleBeaten(words: Keywords, cond: Cond, s: string, q: nat, m: nat)
    requires s != "" && q < |Rules(words, cond)| && m <= |s|
    ensures Beaten(Rules(words, cond), s, Chosen(words, cond, s), Choose(words, cond, s).1, q, m)
  {
    match cond
    case Initial => InitialRuleBeaten(words, s, q, m);
    case InString => StringRuleBeaten(words, s, q, m);
    case Generic => GenericRuleBeaten(words, s, q, m);
  }

  lemma BestIsFlexChoice(rules: seq<Rule>, s: string, r: nat, n: nat)
    requires r < |rules| && n <= |s| && Matches(rules[r].pattern, s[..n])
    requires forall q, m :: 0 <= q < |rules| && 0 <= m <= |s| ==> Beaten(rules, s, r, n, q, m)
    ensures IsFlexChoice(rules, s, r, n)
  {
    forall q, m | 0 <= q < |rules| && 0 <= m <= |s| && Matches(rules[q].pattern, s[..m])
      ensures m < n || (m == n && r <= q)
    {
      MatchesBounded(rules[q].pattern, s, m);
      assert Beaten(rules, s, r, n, q, m);
    }
  }

  /** The dispatch on the first character is flex's choice: the longest match, and the
  earliest rule among the longest. */
  lemma ChooseIsFlexChoice(words: Keywords, cond: Cond, s: string)
    requires s != ""
    ensures IsFlexChoice(Rules(words, cond), s, Chosen(words, cond, s), Choose(words, cond, s).1)
    ensures Rules(words, cond)[Chosen(words, cond, s)].action == Choose(words, cond, s).0
  {
    ChosenTakes(words, cond, s);
    forall q, m | 0 <= q < |Rules(words, cond)| && 0 <= m <= |s|
      ensures Beaten(Rules(words, cond), s, Chosen(words, cond, s), Choose(words, cond, s).1, q, m)
    {
      RuleBeaten(words, cond, s, q, m);
    }
    BestIsFlexChoice(Rules(words, cond), s, Chosen(words, cond, s), Choose(words, cond, s).1);
  }

  /** And flex has only one choice. */
  lemma FlexChoiceIsUnique(rules: seq<Rule>, s: string, r0: nat, n0: nat, r1: nat, n1: nat)
    requires r0 < |rules| && n0 <= |s| && IsFlexChoice(rules, s, r0, n0)
    requires r1 < |rules| && n1 <= |s| && IsFlexChoice(rules, s, r1, n1)
    ensures r0 == r1 && n0 == n1
  {
    assert Matches(rules[r0].pattern, s[..n0]) && Matches(rules[r1].pattern, s[..n1]);
  }

  // ---------------------------------------------------------------- the scanner

  const GLOBAL_WORDS: Keywords := [
    ("global", Global), ("plugin", Plugin), ("type", Type), ("file", File), ("storage", Storage),
    ("sensor", Sensor), ("proto", Proto), ("auth", Auth)]

  const DATA_WORDS: Keywords := [
    ("data_set", DataSet), ("counter", Counter), ("derive", Derive), ("absolute", Absolute),
    ("gauge", Gauge), ("yes", Yes), ("no", No)]

  const SYSTEM_WORDS: Keywords := [
    ("system", System), ("description", Desc), ("cf", Cf), ("average", Average), ("min", Min),
    ("max", Max), ("last", Last)]

  const KEYWORDS: Keywords := GLOBAL_WORDS + DATA_WORDS + SYSTEM_WORDS

  /** The scanner between two calls: the input that is left, the start condition, the stack of
  start conditions, the line number and yylval. */
  datatype Scan = Scan(rest: string, cond: Cond, stack: seq<Cond>, lineno: nat, val: string) {
    /** The stacks that can occur. */
    predicate WellStacked() {
      match cond
      case Initial => stack == []
      case Generic => stack == [Initial]
      case InString => stack == [Initial] || stack == [Initial, Generic]
    }

    /** yy_push_state */
    function Push(c: Cond): Scan {
      this.(cond := c, stack := stack + [cond])
    }

    /** yy_pop_state, which ends the process when the stack is empty. */
    function Pop(): Scan
      requires stack != []
    {
      this.(cond := stack[|stack| - 1], stack := stack[..|stack| - 1])
    }

    /** The actions that return no token. */
    function Act(a: Action): (s: Scan)
      requires WellStacked() && (a == PushString ==> cond != InString) && (a == Action.Pop ==> cond != Initial)
      ensures s.WellStacked() && s.rest == rest && s.val == val
    {
      match a
      case NewLine => this.(lineno := lineno + 1)
      case PushString => Push(InString)
      case Pop => this.Pop()
      case _ => this
    }
  }

  type Scanner = s: Scan | s.WellStacked() witness Scan("", Initial, [], 1, "")

  function Start(text: string): Scanner {
    Scan(text, Initial, [], 1, "")
  }

  /** push_generic, which the parser calls after a left brace. */
  function PushGeneric(s: Scanner): Scanner
    requires s.cond == Initial
  {
    s.Push(Generic)
  }

  /** After one rule, either there is a token or the scanner goes on. */
  datatype Turn = Token(kind: Kind, next: Scan) | Again(next: Scan)

  function Step(s: Scanner): (t: Turn)
    requires s.rest != ""
    ensures t.next.WellStacked() && |t.next.rest| < |s.rest|
    ensures t.Token? ==> t.kind != Eof && (t.kind == LBrace ==> t.next.cond == Initial)
  {
    var (action, n) := Choose(KEYWORDS, s.cond, s.rest);
    var next := s.(rest := s.rest[n..]);
    match action
    case Return(kind) => Token(kind, next)
    case ReturnText(kind) => Token(kind, next.(val := Str(s.rest[..n], 0)))
    case _ => Again(next.Act(action))
  }

  /** The next token. */
  function Yylex(s: Scanner): (r: (Kind, Scanner))
    ensures if r.0 == Eof then r.1.rest == "" else |r.1.rest| < |s.rest|
    ensures r.0 == LBrace ==> r.1.cond == Initial
    decreases |s.rest|
  {
    if s.rest == "" then (Eof, s)
    else
      match Step(s)
      case Token(kind, next) => (kind, next)
      case Again(next) => Yylex(next)
  }

  lemma YylexAgain(s: Scanner, next: Scanner)
    requires s.rest != "" && Step(s) == Again(next)
    ensures Yylex(s) == Yylex(next)
  {
  }

  lemma YylexToken(s: Scanner, kind: Kind, next: Scanner)
    requires s.rest != "" && Step(s) == Token(kind, next)
    ensures Yylex(s) == (kind, next)
  {
  }

  /** How many newlines a text has. */
  function Newlines(s: string): nat {
    if s == "" then 0 else (if s[0] == '\n' then 1 else 0) + Newlines(s[1..])
  }

  lemma {:induction false} NoNewlines(s: string)
    requires forall i :: 0 <= i < |s| ==> s[i] != '\n'
    ensures Newlines(s) == 0
  {
    if s != "" { NoNewlines(s[1..]); }
  }

  /** What the next rule takes. */
  function Taken(s: Scanner): string
    requires s.rest != ""
  {
    s.rest[..Choose(KEYWORDS, s.cond, s.rest).1]
  }

  /** Outside strings only the newline rule takes a newline, and nothing else. */
  lemma TakenLines(s: Scanner)
    requires s.rest != "" && s.cond != InString
    ensures Newlines(Taken(s)) == if s.rest[0] == '\n' then 1 else 0
  {
    assert forall i :: 0 <= i < |Taken(s)| ==> Taken(s)[i] == s.rest[i];
    if s.rest[0] == '\n' {
      assert Taken(s) == "\n" && Taken(s)[1..] == "";
    } else {
      NoNewlines(Taken(s));
    }
  }

  lemma StepLines(s: Scanner)
    requires s.rest != ""
    ensures s.rest == Taken(s) + Step(s).next.rest
    ensures Step(s).next.lineno == s.lineno + if s.cond == InString then 0 else Newlines(Taken(s))
  {
    if s.cond != InString { TakenLines(s); }
  }

  /** The newlines that one call of yylex reads outside strings. */
  function Crossed(s: Scanner): nat
    decreases |s.rest|
  {
    if s.rest == "" then 0
    else
      (if s.cond == InString then 0 else Newlines(Taken(s)))
      + match Step(s) case Token(_, _) => 0 case Again(next) => Crossed(next)
  }

  /** The line number that error messages give counts the newlines outside strings. */
  lemma {:induction false} LinesCount(s: Scanner)
    ensures Yylex(s).1.lineno == s.lineno + Crossed(s)
    decreases |s.rest|
  {
    if s.rest != "" {
      StepLines(s);
      match Step(s)
      case Token(_, _) =>
      case Again(next) => LinesCount(next);
    }
  }

  /** The scanner as flex runs it, over one buffer. */
  class FlexScanner {
    const text: string
    var pos: nat
    var cond: Cond
    var stack: seq<Cond>
    var lineno: nat
    var yylval: string

    ghost predicate Valid()
      reads this
    {
      pos <= |text| && State().WellStacked()
    }

    ghost function State(): Scan
      requires pos <= |text|
      reads this
    {
      Scan(text[pos..], cond, stack, lineno, yylval)
    }

    constructor (text: string)
      ensures Valid() && State() == Start(text)
    {
      this.text, pos, cond, stack, lineno, yylval := text, 0, Initial, [], 1, "";
    }

    method PushState(c: Cond)
      requires pos <= |text|
      modifies this`cond, this`stack
      ensures State() == old(State()).Push(c)
    {
      stack := stack + [cond];
      cond := c;
    }

    method PopState()
      requires pos <= |text| && stack != []
      modifies this`cond, this`stack
      ensures State() == old(State()).Pop()
    {
      cond := stack[|stack| - 1];
      stack := stack[..|stack| - 1];
    }

    /** One rule, whatever the input: every pop finds a start condition on the stack. */
    method RunRule() returns (token: Option<Kind>)
      requires Valid() && pos < |text|
      modifies this
      ensures Valid()
      ensures Step(old(State())) == if token.None? then Again(State()) else Token(token.value, State())
    {
      var (action, n) := Choose(KEYWORDS, cond, text[pos..]);
      var yytext := text[pos..pos + n];
      assert text[pos..][n..] == text[pos + n..] && text[pos..][..n] == yytext;
      pos := pos + n;
      match action {
        case Return(kind) =>
          return Some(kind);
        case ReturnText(kind) =>
          yylval := Str(yytext, 0);
          return Some(kind);
        case NewLine =>
          lineno := lineno + 1;
        case PushString =>
          PushState(InString);
        case Pop =>
          PopState();
        case _ =>
      }
      return None;
    }

    /** yylex */
    method Lex() returns (token: Kind)
      requires Valid()
      modifies this
      ensures Valid() && (token, State()) == Yylex(old(State()))
    {
      while pos < |text|
        invariant Valid() && Yylex(State()) == Yylex(old(State()))
        decreases |text| - pos
      {
        ghost var before := State();
        var result := RunRule();
        if result.Some? {
          return result.value;
        }
        assert |State().rest| < |before.rest|;
      }
      return Eof;
    }
  }
}
