/** Printing a configuration in any layout, and scanning and parsing the text again. */
module ConfigRoundTrip {
  import opened Wrappers
  import opened L = Lexer
  import opened ConfigText
  import opened Parser
  import opened ConfigParse
  import opened ConfigLayout

  // ---------------------------------------------------------------- the tokens fit

  lemma StmtFits(k: Kind, arg: Expect)
    requires IsKeyword(k) && !HasText(k) && FitsOne(Initial, arg) && !arg.opens && !arg.closes
    ensures Fits(Initial, Stmt(k, arg)) == Some(Initial)
  {
    KeywordFits(k);
    FitsCons(Initial, Tok(k), Cons(arg, [Tok(Semi)]));
    FitsCons(Initial, arg, [Tok(Semi)]);
    FitsCons(Initial, Tok(Semi), []);
  }

  /** A block: its head, what is inside, and its end. */
  lemma BlockFits(inside: seq<Expect>)
    requires Fits(Initial, inside) == Some(Initial)
    ensures Fits(Initial, Cons(Tok(LBrace), inside + Cons(Tok(RBrace), [Tok(Semi)]))) == Some(Initial)
  {
    var end := Cons(Tok(RBrace), [Tok(Semi)]);
    FitsCons(Initial, Tok(LBrace), inside + end);
    FitsConcat(Initial, inside, end);
    FitsCons(Initial, Tok(RBrace), [Tok(Semi)]);
    FitsCons(Initial, Tok(Semi), []);
  }

  /** A keyword and a name before other tokens. */
  lemma HeadFits(k: Kind, name: string, rest: seq<Expect>)
    requires IsKeyword(k) && !HasText(k) && IsQuoted(name)
    ensures Fits(Initial, Cons(Tok(k), Cons(Str(name), rest))) == Fits(Initial, rest)
  {
    KeywordFits(k);
    FitsCons(Initial, Tok(k), Cons(Str(name), rest));
    FitsCons(Initial, Str(name), rest);
  }

  lemma {:induction false} PluginToksFit(stmts: seq<PluginStmt>)
    requires forall i :: 0 <= i < |stmts| ==> if stmts[i].SetType? then true else IsQuoted(stmts[i].file)
    ensures Fits(Initial, PluginToks(stmts)) == Some(Initial)
  {
    if stmts != [] {
      match stmts[0] {
        case SetType(t) =>
          KeywordFits(PluginTypeKind(t));
          StmtFits(Type, Tok(PluginTypeKind(t)));
        case SetFile(f) => StmtFits(File, Str(f));
      }
      PluginToksFit(stmts[1..]);
      FitsConcat(Initial, PluginStmtToks(stmts[0]), PluginToks(stmts[1..]));
    }
  }

  lemma ValueFits(v: (string, Value))
    requires ValueOk(v)
    ensures FitsOne(Generic, Expect(Word, v.0, false, false)) && FitsOne(Generic, ValueTok(v.1))
  {
  }

  lemma ValueStmtFits(v: (string, Value))
    requires ValueOk(v)
    ensures Fits(Generic, ValueStmtToks(v)) == Some(Generic)
  {
    var word, arg := Expect(Word, v.0, false, false), ValueTok(v.1);
    ValueFits(v);
    FitsCons(Generic, word, Cons(arg, [Tok(Semi)]));
    FitsCons(Generic, arg, [Tok(Semi)]);
    FitsCons(Generic, Tok(Semi), []);
  }

  lemma {:induction false} ValueToksFit(values: seq<(string, Value)>)
    requires forall i :: 0 <= i < |values| ==> ValueOk(values[i])
    ensures Fits(Generic, ValueToks(values)) == Some(Generic)
  {
    if values != [] {
      ValueStmtFits(values[0]);
      ValueToksFit(values[1..]);
      FitsConcat(Generic, ValueStmtToks(values[0]), ValueToks(values[1..]));
    }
  }

  lemma OpenFits(e: Expect)
    requires e == Tok(LBrace).(opens := true)
    ensures FitsOne(Initial, e) && After(Initial, e) == Generic
  {
  }

  lemma CloseFits(e: Expect)
    requires e == Tok(Semi).(closes := true)
    ensures Fits(Generic, [e]) == Some(Initial)
  {
    FitsCons(Generic, e, []);
  }

  /** The values of a generic block, between its braces. */
  lemma GenericFits(values: seq<(string, Value)>)
    requires forall i :: 0 <= i < |values| ==> ValueOk(values[i])
    ensures Fits(Initial, Cons(Tok(LBrace).(opens := true), ValueToks(values) + [Tok(Semi).(closes := true)]))
      == Some(Initial)
  {
    var open, close := Tok(LBrace).(opens := true), Tok(Semi).(closes := true);
    OpenFits(open);
    CloseFits(close);
    ValueToksFit(values);
    FitsConcat(Generic, ValueToks(values), [close]);
    FitsCons(Initial, open, ValueToks(values) + [close]);
  }

  lemma InstanceToksFit(k: Kind, name: string, plugin: string, values: seq<(string, Value)>)
    requires (k == Storage || k == Sensor) && IsQuoted(name) && IsQuoted(plugin)
    requires forall i :: 0 <= i < |values| ==> ValueOk(values[i])
    ensures Fits(Initial, InstanceToks(k, name, plugin, values)) == Some(Initial)
  {
    var body := Cons(Tok(LBrace).(opens := true), ValueToks(values) + [Tok(Semi).(closes := true)]);
    GenericFits(values);
    HeadFits(Type, plugin, body);
    HeadFits(k, name, Cons(Tok(Type), Cons(Str(plugin), body)));
  }

  lemma GlobalEntryFits(e: GlobalEntry)
    requires GlobalOk(e)
    ensures Fits(Initial, GlobalEntryToks(e)) == Some(Initial)
  {
    match e
    case PluginEntry(name, stmts) =>
      PluginToksFit(stmts);
      BlockFits(PluginToks(stmts));
      HeadFits(Plugin, name, Cons(Tok(LBrace), PluginToks(stmts) + Cons(Tok(RBrace), [Tok(Semi)])));
    case StorageEntry(name, plugin, values) => InstanceToksFit(Storage, name, plugin, values);
    case SensorEntry(name, plugin, values) => InstanceToksFit(Sensor, name, plugin, values);
  }

  lemma {:induction false} GlobalToksFit(es: seq<GlobalEntry>)
    requires forall i :: 0 <= i < |es| ==> GlobalOk(es[i])
    ensures Fits(Initial, GlobalToks(es)) == Some(Initial)
  {
    if es != [] {
      GlobalEntryFits(es[0]);
      GlobalToksFit(es[1..]);
      FitsConcat(Initial, GlobalEntryToks(es[0]), GlobalToks(es[1..]));
    }
  }

  lemma DataStmtFits(s: DataStmt)
    requires DataOk(s)
    ensures Fits(Initial, DataStmtToks(s)) == Some(Initial)
  {
    match s
    case SetDataType(t) =>
      KeywordFits(DataTypeKind(t));
      StmtFits(Type, Tok(DataTypeKind(t)));
    case SetCf(c) =>
      KeywordFits(CfKind(c));
      StmtFits(Cf, Tok(CfKind(c)));
    case SetSensor(n) => StmtFits(Sensor, Str(n));
    case SetStorage(n) => StmtFits(Storage, Str(n));
    case SetDesc(d) => StmtFits(Desc, Str(d));
  }

  lemma {:induction false} DataToksFit(stmts: seq<DataStmt>)
    requires forall i :: 0 <= i < |stmts| ==> DataOk(stmts[i])
    ensures Fits(Initial, DataToks(stmts)) == Some(Initial)
  {
    if stmts != [] {
      DataStmtFits(stmts[0]);
      DataToksFit(stmts[1..]);
      FitsConcat(Initial, DataStmtToks(stmts[0]), DataToks(stmts[1..]));
    }
  }

  lemma SystemEntryFits(e: SystemEntry)
    requires SystemOk(e)
    ensures Fits(Initial, SystemEntryToks(e)) == Some(Initial)
  {
    match e
    case DataEntry(name, stmts) =>
      DataToksFit(stmts);
      BlockFits(DataToks(stmts));
      HeadFits(Kind.DataSet, name, Cons(Tok(LBrace), DataToks(stmts) + Cons(Tok(RBrace), [Tok(Semi)])));
    case DescEntry(d) => StmtFits(Desc, Str(d));
  }

  lemma {:induction false} SystemToksFit(es: seq<SystemEntry>)
    requires forall i :: 0 <= i < |es| ==> SystemOk(es[i])
    ensures Fits(Initial, SystemToks(es)) == Some(Initial)
  {
    if es != [] {
      SystemEntryFits(es[0]);
      SystemToksFit(es[1..]);
      FitsConcat(Initial, SystemEntryToks(es[0]), SystemToks(es[1..]));
    }
  }

  lemma TopToksFit(e: TopEntry)
    requires TopOk(e)
    ensures Fits(Initial, TopToks(e)) == Some(Initial)
  {
    match e
    case GlobalSection(es) =>
      GlobalToksFit(es);
      BlockFits(GlobalToks(es));
      KeywordFits(Global);
      FitsCons(Initial, Tok(Global), Cons(Tok(LBrace), GlobalToks(es) + Cons(Tok(RBrace), [Tok(Semi)])));
    case SystemSection(name, es) =>
      SystemToksFit(es);
      BlockFits(SystemToks(es));
      HeadFits(Kind.System, name, Cons(Tok(LBrace), SystemToks(es) + Cons(Tok(RBrace), [Tok(Semi)])));
  }

  lemma {:induction false} ToksFit(config: seq<TopEntry>)
    requires WellFormed(config)
    ensures Fits(Initial, Toks(config)) == Some(Initial)
  {
    if config != [] {
      TopToksFit(config[0]);
      ToksFit(config[1..]);
      FitsConcat(Initial, TopToks(config[0]), Toks(config[1..]));
    }
  }

  // ---------------------------------------------------------------- the round trip

  lemma PrintedTokens(config: seq<TopEntry>, layout: Layout, end: Ending) returns (z: Scanner)
    requires WellFormed(config) && LayoutOk(Toks(config), layout, end)
    ensures Follow(Ahead(Start(TextOf(Toks(config), layout, end))), Toks(config)) == Some(End(z))
    ensures z.rest == "" && z.cond == Initial
  {
    ToksFit(config);
    z := FollowText(Start(TextOf(Toks(config), layout, end)), Toks(config), layout, end);
  }

  lemma TokensParse(config: seq<TopEntry>, t: Tokens, z: Scanner)
    requires Follow(t, Toks(config)) == Some(End(z)) && WellFormed(config) && AllValued(config)
    ensures TopList(Parse(t, NEW_GLOBALS)) == Parsed(Parse(End(z), NEW_GLOBALS.(added := Records(config))))
  {
    WellFormedIsTyped(config);
    TopListParses(config, Parse(t, NEW_GLOBALS), End(z));
    assert [] + Records(config) == Records(config);
  }

  /** The parse ended at the end of the text, with the scanner back where it started. */
  predicate EndsClean(p: Parse) {
    && Fresh(p.g) && p.t.End?
    && p.t.at.rest == "" && p.t.at.cond == Initial && p.t.at.stack == []
  }

  /** Every well-formed configuration, printed with any layout, is parsed back into the records
  it means, and the scanner ends in its first start condition with an empty stack. */
  lemma PrintedConfigParses(config: seq<TopEntry>, layout: Layout, end: Ending)
    requires WellFormed(config) && AllValued(config) && LayoutOk(Toks(config), layout, end)
    ensures var o := ParseText(TextOf(Toks(config), layout, end));
      o.Parsed? && o.p.g.added == Records(config) && EndsClean(o.p)
  {
    var z := PrintedTokens(config, layout, end);
    TokensParse(config, Ahead(Start(TextOf(Toks(config), layout, end))), z);
  }

  /** A printed configuration ends the process, on a null pointer, exactly when some storage or
  sensor in it has no values; it is never a syntax error. */
  lemma PrintedConfigEnds(config: seq<TopEntry>, layout: Layout, end: Ending)
    requires WellFormed(config) && LayoutOk(Toks(config), layout, end)
    ensures var o := ParseText(TextOf(Toks(config), layout, end));
      (o.NullValues? <==> !AllValued(config)) && !o.SyntaxError?
  {
    if AllValued(config) {
      PrintedConfigParses(config, layout, end);
    } else {
      var z := PrintedTokens(config, layout, end);
      WellFormedIsTyped(config);
      TopListEnds(config, Parse(Ahead(Start(TextOf(Toks(config), layout, end))), NEW_GLOBALS));
    }
  }
}
