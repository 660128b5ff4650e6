/** A configuration that no printer would write and the parser accepts: a value that stands behind
the brace that closes its block.
 */
module ConfigStale {
  import opened Wrappers
  import opened ConfigFile
  import opened L = Lexer
  import opened ConfigText
  import opened Parser
  import opened ConfigParse
  import opened ConfigLayout
  import opened ConfigRoundTrip
  import opened ConfigAccept

  lemma TakeToken(s: Scanner, e: Expect, next: Scanner)
    requires Yylex(s) == (e.kind, next) && e.kind != Eof && e.kind != LBrace && !e.opens
    requires HasText(e.kind) ==> next.val == e.text
    ensures Take(Ahead(s), e) == Some(Ahead(next))
  {
    AheadToken(s, e.kind, next);
  }

  /** The word, and the brace behind it. */
  lemma ReadWord(s: Scanner, word: string, more: string) returns (t: Scanner)
    requires s.cond == Generic && IsIdentifier(word) && word != "yes" && word != "no"
    requires s.rest == word + (['}'] + more)
    ensures Take(Ahead(s), Expect(Word, word, false, false)) == Some(Ahead(t))
    ensures t.rest == more && t.cond == Initial && t.val == word
  {
    var e := Expect(Word, word, false, false);
    var next := LexOther(s, e, ['}'] + more);
    TakeToken(s, e, next);
    t := next.(rest := more).Pop();
    SkipPop(next, '}', more);
    AheadSame(next, t);
  }

  lemma ReadSemi(s: Scanner, more: string) returns (t: Scanner)
    requires s.cond == Initial && s.rest == ";" + more
    ensures Take(Ahead(s), Tok(Semi)) == Some(Ahead(t)) && t.rest == more && t.cond == Initial
  {
    t := s.(rest := more);
    StepMark(s, Tok(Semi), more);
    YylexToken(s, Semi, t);
    TakeToken(s, Tok(Semi), t);
  }

  /** A yes behind the brace that closes the values is read with the text of the word before it. */
  lemma ReadStaleYes(s: Scanner, word: string, more: string) returns (t: Scanner)
    requires s.cond == Generic && IsIdentifier(word) && word != "yes" && word != "no"
    requires s.rest == word + (['}'] + ("yes" + (";" + more)))
    ensures Follow(Ahead(s), ValueStmtToks((word, StaleYes(word)))) == Some(Ahead(t))
    ensures t.rest == more && t.cond == Initial
  {
    var s1 := ReadWord(s, word, "yes" + (";" + more));
    t := ReadYesSemi(s1, more);
    var yes := Cons(ValueTok(StaleYes(word)), [Tok(Semi)]);
    FollowCons(Ahead(s), Expect(Word, word, false, false), yes);
  }

  lemma ReadYesSemi(s: Scanner, more: string) returns (t: Scanner)
    requires s.cond == Initial && s.rest == "yes" + (";" + more)
    ensures Follow(Ahead(s), Cons(ValueTok(StaleYes(s.val)), [Tok(Semi)])) == Some(Ahead(t))
    ensures t.rest == more && t.cond == Initial
  {
    var next := LexYes(s, ";" + more);
    TakeToken(s, ValueTok(StaleYes(s.val)), next);
    t := ReadSemi(next, more);
    FollowCons(Ahead(s), ValueTok(StaleYes(s.val)), [Tok(Semi)]);
    BuildLast(Ahead(next), Tok(Semi));
  }

  /** Outside generic blocks a yes leaves the text as it was. */
  lemma LexYes(s: Scanner, rest: string) returns (next: Scanner)
    requires s.cond == Initial && s.rest == "yes" + rest && Apart(rest)
    ensures next == s.(rest := rest) && Yylex(s) == (Yes, next)
  {
    next := s.(rest := rest);
    var n := 3;
    RunIs(WordChars, s.rest, 3);
    assert s.rest[..3] == "yes" && s.rest[3..] == rest;
    WordIsChosen(Initial, s.rest);
    YesIsKeyword();
    YylexToken(s, Yes, next);
  }

  lemma YesIsKeyword()
    ensures WordAction(KEYWORDS, Initial, "yes") == Return(Yes)
  {
    var j := FindKeyword(KEYWORDS, "yes", 0);
    var i := KeywordIndex(Yes);
    KeywordSpelling(i);
    if j < |KEYWORDS| {
      KeywordSpelling(j);
      SpellingIsUnique(Yes);
      SpellingIsUnique(KEYWORDS[j].1);
    }
  }

  function ShownAll(es: seq<Expect>): string {
    if es == [] then "" else Shown(es[0]) + ShownAll(es[1..])
  }

  /** Tokens that can stand together without gaps, none of them behind a brace. */
  predicate Dense(es: seq<Expect>) {
    && (forall i :: 0 <= i < |es| ==> !es[i].closes)
    && (forall i :: 0 <= i < |es| && WordLike(es[i]) ==> i + 1 < |es| && !WordLike(es[i + 1]))
  }

  lemma DenseRest(es: seq<Expect>)
    requires es != [] && Dense(es)
    ensures Dense(es[1..]) && (WordLike(es[0]) ==> es[1..] != [] && !WordLike(es[1..][0]))
  {
    assert forall i :: 0 <= i < |es| - 1 ==> es[1..][i] == es[i + 1];
  }

  lemma ShownFront(es: seq<Expect>, more: string)
    requires es != []
    ensures ShownAll(es) + more == Shown(es[0]) + (ShownAll(es[1..]) + more)
  {
  }

  lemma FirstApart(c: Cond, es: seq<Expect>, more: string)
    requires es != [] && Dense(es) && Fits(c, es).Some? && WordLike(es[0])
    ensures Apart(ShownAll(es[1..]) + more)
  {
    DenseRest(es);
    DenseApart(After(c, es[0]), es[1..], more);
  }

  lemma DenseFirst(s: Scanner, es: seq<Expect>, more: string) returns (u: Scanner)
    requires es != [] && s.cond != InString && Fits(s.cond, es).Some? && Dense(es) && s.rest == ShownAll(es) + more
    ensures Take(Ahead(s), es[0]) == Some(Ahead(u)) && u.rest == ShownAll(es[1..]) + more
    ensures Fits(u.cond, es[1..]) == Fits(s.cond, es) && u.cond != InString
  {
    ShownFront(es, more);
    if WordLike(es[0]) { FirstApart(s.cond, es, more); }
    u := ReadShown(s, es[0], ShownAll(es[1..]) + more);
  }

  lemma {:induction false} ReadDense(s: Scanner, es: seq<Expect>, more: string) returns (t: Scanner)
    requires s.cond != InString && Fits(s.cond, es).Some? && Dense(es) && s.rest == ShownAll(es) + more
    ensures Follow(Ahead(s), es) == Some(Ahead(t)) && t.rest == more && Some(t.cond) == Fits(s.cond, es)
    decreases |es|
  {
    if es == [] {
      t := s;
    } else {
      DenseRest(es);
      var u := DenseFirst(s, es, more);
      t := ReadDense(u, es[1..], more);
    }
  }

  lemma DenseApart(c: Cond, es: seq<Expect>, more: string)
    requires es != [] && !WordLike(es[0]) && !es[0].closes && FitsOne(c, es[0])
    ensures Apart(ShownAll(es) + more)
  {
    ShownApart(c, es[0], ShownAll(es[1..]) + more);
    assert ShownAll(es) + more == Shown(es[0]) + (ShownAll(es[1..]) + more);
  }

  function StaleHead(name: string, plugin: string): seq<Expect> {
    Cons(Tok(Global), Cons(Tok(LBrace), OpenToks(Storage, name, plugin, [])))
  }

  lemma OpenTokFits()
    ensures Fits(Initial, Cons(Tok(LBrace).(opens := true), [])) == Some(Generic)
  {
    FitsCons(Initial, Tok(LBrace).(opens := true), []);
  }

  lemma OpenToksFit(name: string, plugin: string)
    requires ConfigText.IsQuoted(name) && ConfigText.IsQuoted(plugin)
    ensures Fits(Initial, OpenToks(Storage, name, plugin, [])) == Some(Generic)
  {
    var open := Cons(Tok(LBrace).(opens := true), []);
    OpenTokFits();
    HeadFits(Type, plugin, open);
    HeadFits(Storage, name, Cons(Tok(Type), Cons(ConfigText.Str(plugin), open)));
  }

  lemma StaleHeadFits(name: string, plugin: string)
    requires ConfigText.IsQuoted(name) && ConfigText.IsQuoted(plugin)
    ensures Fits(Initial, StaleHead(name, plugin)) == Some(Generic)
  {
    var body := OpenToks(Storage, name, plugin, []);
    OpenToksFit(name, plugin);
    KeywordFits(Global);
    FitsCons(Initial, Tok(LBrace), body);
    FitsCons(Initial, Tok(Global), Cons(Tok(LBrace), body));
  }

  lemma StaleHeadIs(name: string, plugin: string)
    ensures StaleHead(name, plugin) == [Tok(Global), Tok(LBrace), Tok(Storage), ConfigText.Str(name), Tok(Type),
                                        ConfigText.Str(plugin), Tok(LBrace).(opens := true)]
  {
  }

  lemma StaleHeadDense(name: string, plugin: string)
    ensures Dense(StaleHead(name, plugin))
  {
    StaleHeadIs(name, plugin);
  }

  /** After that value: the semicolon of the storage, and the end of the global block. */
  const STALE_TAIL: seq<Expect> := [Tok(Semi), Tok(RBrace), Tok(Semi)]

  function StaleText(name: string, plugin: string, word: string): string {
    ShownAll(StaleHead(name, plugin)) + (word + (['}'] + ("yes" + (";" + ShownAll(STALE_TAIL)))))
  }

  function StaleConfig(name: string, plugin: string, word: string): seq<TopEntry> {
    [GlobalSection([StorageEntry(name, plugin, [(word, StaleYes(word))])])]
  }

  lemma ReadStaleTail(s: Scanner) returns (z: Scanner)
    requires s.cond == Initial && s.rest == ShownAll(STALE_TAIL)
    ensures Follow(Ahead(s), STALE_TAIL) == Some(End(z))
  {
    FitsCons(Initial, Tok(Semi), []);
    FitsCons(Initial, Tok(RBrace), [Tok(Semi)]);
    FitsCons(Initial, Tok(Semi), [Tok(RBrace), Tok(Semi)]);
    assert STALE_TAIL == Cons(Tok(Semi), Cons(Tok(RBrace), Cons(Tok(Semi), [])));
    assert s.rest == ShownAll(STALE_TAIL) + "";
    z := ReadDense(s, STALE_TAIL, "");
  }

  /** The brace that closes the values makes no difference to what follows. */
  lemma {:induction false} CloseAnywhere(t: Tokens, e: Expect, es: seq<Expect>)
    ensures Follow(t, [e.(closes := true)] + es) == Follow(t, [e.(closes := false)] + es)
  {
    FollowCons(t, e.(closes := true), es);
    FollowCons(t, e.(closes := false), es);
    assert Cons(e.(closes := true), es) == [e.(closes := true)] + es;
    assert Cons(e.(closes := false), es) == [e.(closes := false)] + es;
  }

  lemma StaleToks(name: string, plugin: string, word: string)
    ensures Toks(StaleConfig(name, plugin, word)) == StaleHead(name, plugin) + ValueAndTail(word)
  {
    var values := [(word, StaleYes(word))];
    var e := StorageEntry(name, plugin, values);
    var config := StaleConfig(name, plugin, word);
    assert values[1..] == [] && [e][1..] == [] && config[1..] == [];
    assert ValueToks(values) == ValueStmtToks(values[0]) + [];
    assert GlobalToks([e]) == GlobalEntryToks(e) + [];
    assert Toks(config) == TopToks(config[0]) + [];
  }

  /** For any storage, plugin and word there is an accepted text in which the value of the word is
  written as yes and read as the word. */
  lemma StaleYesIsAccepted(name: string, plugin: string, word: string)
    requires ConfigText.IsQuoted(name) && ConfigText.IsQuoted(plugin)
    requires IsIdentifier(word) && word != "yes" && word != "no"
    ensures var o := ParseText(StaleText(name, plugin, word));
      o.Parsed? && o.p.g.added == [AddStorage(Instance(name, plugin, [(word, word)]))]
  {
    var config := StaleConfig(name, plugin, word);
    var z := FollowStale(name, plugin, word);
    StaleRecords(name, plugin, word);
    EveryText(StaleText(name, plugin, word));
    assert Spells(Ahead(Start(StaleText(name, plugin, word))), config);
  }

  lemma FollowStale(name: string, plugin: string, word: string) returns (z: Scanner)
    requires ConfigText.IsQuoted(name) && ConfigText.IsQuoted(plugin)
    requires IsIdentifier(word) && word != "yes" && word != "no"
    ensures Follow(Ahead(Start(StaleText(name, plugin, word))), Toks(StaleConfig(name, plugin, word))) == Some(End(z))
  {
    var s := Start(StaleText(name, plugin, word));
    var tail := word + (['}'] + ("yes" + (";" + ShownAll(STALE_TAIL))));
    StaleHeadFits(name, plugin);
    StaleHeadDense(name, plugin);
    var s1 := ReadDense(s, StaleHead(name, plugin), tail);
    z := FollowValueAndTail(s1, word);
    StaleToks(name, plugin, word);
    FollowConcat(Ahead(s), StaleHead(name, plugin), ValueAndTail(word));
  }

  function ValueAndTail(word: string): seq<Expect> {
    ValueStmtToks((word, StaleYes(word))) + ([Tok(Semi).(closes := true)] + [Tok(RBrace), Tok(Semi)])
  }

  lemma FollowValueAndTail(s: Scanner, word: string) returns (z: Scanner)
    requires s.cond == Generic && IsIdentifier(word) && word != "yes" && word != "no"
    requires s.rest == word + (['}'] + ("yes" + (";" + ShownAll(STALE_TAIL))))
    ensures Follow(Ahead(s), ValueAndTail(word)) == Some(End(z))
  {
    var t := ReadStaleYes(s, word, ShownAll(STALE_TAIL));
    z := ReadStaleTail(t);
    var end := [Tok(RBrace), Tok(Semi)];
    CloseAnywhere(Ahead(t), Tok(Semi), end);
    assert [Tok(Semi).(closes := false)] + end == STALE_TAIL;
    FollowConcat(Ahead(s), ValueStmtToks((word, StaleYes(word))), [Tok(Semi).(closes := true)] + end);
  }

  lemma StaleRecords(name: string, plugin: string, word: string)
    ensures var config := StaleConfig(name, plugin, word);
      && Typed(config) && AllValued(config)
      && Records(config) == [AddStorage(Instance(name, plugin, [(word, word)]))]
  {
    var values := [(word, StaleYes(word))];
    var e := StorageEntry(name, plugin, values);
    var config := StaleConfig(name, plugin, word);
    assert values[1..] == [] && [e][1..] == [] && config[1..] == [];
    assert ValueRecords(values) == [(word, word)];
    assert GlobalRecords([e]) == [GlobalRecord(e)];
  }
}
