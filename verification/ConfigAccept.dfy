/** The converse of the round trip: whatever text is accepted, its tokens are those of a
configuration; whatever text ends the process, its tokens run into a storage or sensor without
values; and every other text is a syntax error.
 */
module ConfigAccept {
  import opened Wrappers
  import opened ConfigFile
  import opened L = Lexer
  import opened ConfigText
  import opened Parser
  import opened ConfigParse

  // ---------------------------------------------------------------- building up tokens

  lemma BuildLast(ts: Tokens, e: Expect)
    ensures Follow(ts, [e]) == Take(ts, e)
  {
    FollowCons(ts, e, []);
    assert Cons(e, []) == [e];
  }

  lemma BuildStmt(ts: Tokens, k: Kind, arg: Expect)
    requires ts.Token? && ts.kind == k && !HasText(k) && ts.next.Token? && ts.next.kind == arg.kind && !arg.opens
    requires HasText(arg.kind) ==> ts.next.val == arg.text
    requires ts.next.next.Token? && ts.next.next.kind == Semi
    ensures Follow(ts, Stmt(k, arg)) == Some(ts.next.next.next)
  {
    var last := [Tok(Semi)];
    BuildLast(ts.next.next, Tok(Semi));
    FollowCons(ts.next, arg, last);
    FollowCons(ts, Tok(k), Cons(arg, last));
  }

  /** The inside of a block and its end. */
  lemma BuildBlock(ts: Tokens, inside: seq<Expect>, last: Tokens)
    requires Follow(ts, inside) == Some(last)
    requires last.Token? && last.kind == RBrace && last.next.Token? && last.next.kind == Semi
    ensures Follow(ts, inside + Cons(Tok(RBrace), [Tok(Semi)])) == Some(last.next.next)
  {
    FollowConcat(ts, inside, Cons(Tok(RBrace), [Tok(Semi)]));
    FollowCons(last, Tok(RBrace), [Tok(Semi)]);
    FollowCons(last.next, Tok(Semi), []);
  }

  /** A keyword, a name and a left brace in front of other tokens. */
  lemma BuildHead(ts: Tokens, k: Kind, body: seq<Expect>)
    requires ts.Token? && ts.kind == k && !HasText(k) && ts.next.Token? && ts.next.kind == Text
    requires ts.next.next.Token? && ts.next.next.kind == LBrace
    ensures Follow(ts, Cons(Tok(k), Cons(ConfigText.Str(ts.next.val), Cons(Tok(LBrace), body))))
         == Follow(ts.next.next.next, body)
  {
    FollowCons(ts, Tok(k), Cons(ConfigText.Str(ts.next.val), Cons(Tok(LBrace), body)));
    FollowCons(ts.next, ConfigText.Str(ts.next.val), Cons(Tok(LBrace), body));
    FollowCons(ts.next.next, Tok(LBrace), body);
  }

  // ---------------------------------------------------------------- the global block

  lemma PluginItemShape(p: Parse) returns (st: PluginStmt)
    requires PluginItem(p).Parsed? && Want(PluginItem(p).p, Semi).Parsed?
    ensures st != SetType(PNone) && Follow(p.t, PluginStmtToks(st)) == Some(Want(PluginItem(p).p, Semi).p.t)
  {
    if Peek(p) == Type {
      st := SetType(PluginTypeOf(p.t.next.kind));
      BuildStmt(p.t, Type, Tok(p.t.next.kind));
    } else {
      st := SetFile(p.t.next.val);
      BuildStmt(p.t, File, ConfigText.Str(p.t.next.val));
    }
  }

  lemma PluginToksMore(t: Tokens, st: PluginStmt, more: seq<PluginStmt>, u: Tokens)
    requires Follow(t, PluginStmtToks(st)) == Some(u)
    ensures Follow(t, PluginToks([st] + more)) == Follow(u, PluginToks(more))
  {
    assert ([st] + more)[1..] == more;
    FollowConcat(t, PluginStmtToks(st), PluginToks(more));
  }

  lemma {:induction false} PluginListShape(p: Parse) returns (stmts: seq<PluginStmt>)
    requires PluginList(p).Parsed?
    ensures PluginStmtsOk(stmts) && Follow(p.t, PluginToks(stmts)) == Some(PluginList(p).p.t)
    decreases p.t
  {
    stmts := [];
    if Peek(p) == Type || Peek(p) == File {
      var st := PluginItemShape(p);
      var q := Want(PluginItem(p).p, Semi).p;
      var more := PluginListShape(q);
      stmts := [st] + more;
      PluginToksMore(p.t, st, more, q.t);
    }
  }

  lemma PluginBlockShape(p: Parse) returns (e: GlobalEntry)
    requires PluginBlock(p).Parsed? && Want(PluginBlock(p).p, Semi).Parsed?
    ensures e.PluginEntry? && GlobalTyped(e)
    ensures Follow(p.t, GlobalEntryToks(e)) == Some(Want(PluginBlock(p).p, Semi).p.t)
  {
    var p3 := Parse(p.t.next.next.next, p.g);
    var stmts := PluginListShape(p3);
    BuildBlock(p3.t, PluginToks(stmts), PluginList(p3).p.t);
    BuildHead(p.t, Plugin, PluginToks(stmts) + Cons(Tok(RBrace), [Tok(Semi)]));
    e := PluginEntry(p.t.next.val, stmts);
  }

  /** The token of a value; a yes or no may have any text. */
  function ValueAt(t: Tokens): Value
    requires t.Token?
  {
    if t.kind == Text then TextValue(t.val)
    else if t.kind == Number then NumberValue(t.val)
    else if t.kind == Yes then StaleYes(t.val)
    else StaleNo(t.val)
  }

  lemma {:induction false} GenericListShape(p: Parse) returns (values: seq<(string, Value)>)
    requires GenericList(p).Parsed?
    ensures Follow(p.t, ValueToks(values)) == Some(GenericList(p).p.t)
    ensures GenericList(p).p.g == p.g.(values := p.g.values + ValueRecords(values))
    ensures Peek(GenericList(p).p) != Word
    decreases p.t
  {
    if Peek(p) == Word {
      var value := (p.t.val, ValueAt(p.t.next));
      var q := Parse(p.t.next.next.next, p.g.(values := p.g.values + [(p.t.val, p.t.next.val)]));
      var more := GenericListShape(q);
      values := [value] + more;
      FollowCons(p.t, Expect(Word, value.0, false, false), Cons(ValueTok(value.1), [Tok(Semi)]));
      FollowCons(p.t.next, ValueTok(value.1), [Tok(Semi)]);
      FollowCons(p.t.next.next, Tok(Semi), []);
      FollowConcat(p.t, ValueStmtToks(value), ValueToks(more));
      AppendCons(p.g.values, (p.t.val, p.t.next.val), ValueRecords(more));
    } else {
      values := [];
      assert p.g.values + [] == p.g.values;
    }
  }

  /** What stands before the values of a storage or sensor. */
  function OpenToks(k: Kind, name: string, plugin: string, rest: seq<Expect>): seq<Expect> {
    Cons(Tok(k), Cons(ConfigText.Str(name), Cons(Tok(Type), Cons(ConfigText.Str(plugin),
      Cons(Tok(LBrace).(opens := true), rest)))))
  }

  /** The five tokens of such a head, and where the values begin. */
  predicate IsOpen(t: Tokens, k: Kind) {
    && t.Token? && t.kind == k && t.next.Token? && t.next.kind == Text
    && var t2 := t.next.next;
    && t2.Token? && t2.kind == Type && t2.next.Token? && t2.next.kind == Text
    && t2.next.next.Token? && t2.next.next.kind == LBrace
  }

  lemma BuildOpen(t: Tokens, k: Kind, rest: seq<Expect>)
    requires (k == Storage || k == Sensor) && IsOpen(t, k)
    ensures var t2 := t.next.next;
      Follow(t, OpenToks(k, t.next.val, t2.next.val, rest)) == Follow(t2.next.next.pushed, rest)
  {
    var t2 := t.next.next;
    var open := Tok(LBrace).(opens := true);
    var from2 := Cons(Tok(Type), Cons(ConfigText.Str(t2.next.val), Cons(open, rest)));
    FollowCons(t, Tok(k), Cons(ConfigText.Str(t.next.val), from2));
    FollowCons(t.next, ConfigText.Str(t.next.val), from2);
    FollowCons(t2, Tok(Type), Cons(ConfigText.Str(t2.next.val), Cons(open, rest)));
    FollowCons(t2.next, ConfigText.Str(t2.next.val), Cons(open, rest));
    FollowCons(t2.next.next, open, rest);
  }

  /** A head that is read, and the list of values behind it. */
  lemma InstanceOpens(p: Parse, k: Kind)
    requires (k == Storage || k == Sensor) && !InstanceBlock(p, k).SyntaxError?
    ensures IsOpen(p.t, k)
    ensures var list := GenericList(Parse(p.t.next.next.next.next.pushed, p.g));
      && list.Parsed?
      && (InstanceBlock(p, k).NullValues? <==> list.p.g.values == [])
      && (InstanceBlock(p, k).Parsed? ==> InstanceBlock(p, k).p.t == list.p.t)
  {
  }

  lemma BuildValues(t: Tokens, values: seq<(string, Value)>, t6: Tokens)
    requires Follow(t, ValueToks(values)) == Some(t6) && t6.Token? && t6.kind == Semi
    ensures Follow(t, ValueToks(values) + [Tok(Semi).(closes := true)]) == Some(t6.next)
  {
    FollowConcat(t, ValueToks(values), [Tok(Semi).(closes := true)]);
    BuildLast(t6, Tok(Semi).(closes := true));
  }

  lemma InstanceToksOpen(k: Kind, name: string, plugin: string, values: seq<(string, Value)>)
    ensures InstanceToks(k, name, plugin, values)
         == OpenToks(k, name, plugin, ValueToks(values) + [Tok(Semi).(closes := true)])
  {
  }

  lemma BuildInstance(t: Tokens, k: Kind, values: seq<(string, Value)>, t6: Tokens)
    requires (k == Storage || k == Sensor) && IsOpen(t, k)
    requires Follow(t.next.next.next.next.pushed, ValueToks(values)) == Some(t6) && t6.Token? && t6.kind == Semi
    ensures Follow(t, InstanceToks(k, t.next.val, t.next.next.next.val, values)) == Some(t6.next)
  {
    BuildValues(t.next.next.next.next.pushed, values, t6);
    BuildOpen(t, k, ValueToks(values) + [Tok(Semi).(closes := true)]);
    InstanceToksOpen(k, t.next.val, t.next.next.next.val, values);
  }

  lemma InstanceValues(p: Parse, k: Kind) returns (values: seq<(string, Value)>)
    requires (k == Storage || k == Sensor) && p.g.values == [] && InstanceBlock(p, k).Parsed?
    ensures IsOpen(p.t, k) && values != []
    ensures Follow(p.t.next.next.next.next.pushed, ValueToks(values)) == Some(InstanceBlock(p, k).p.t)
  {
    InstanceOpens(p, k);
    var p5 := Parse(p.t.next.next.next.next.pushed, p.g);
    values := GenericListShape(p5);
    assert [] + ValueRecords(values) == ValueRecords(values);
  }

  function InstanceEntry(k: Kind, name: string, plugin: string, values: seq<(string, Value)>): GlobalEntry {
    if k == Storage then StorageEntry(name, plugin, values) else SensorEntry(name, plugin, values)
  }

  lemma BuildEntry(t: Tokens, k: Kind, values: seq<(string, Value)>, t6: Tokens) returns (e: GlobalEntry)
    requires (k == Storage || k == Sensor) && IsOpen(t, k) && values != []
    requires Follow(t.next.next.next.next.pushed, ValueToks(values)) == Some(t6) && t6.Token? && t6.kind == Semi
    ensures GlobalTyped(e) && Valued(e) && Follow(t, GlobalEntryToks(e)) == Some(t6.next)
  {
    BuildInstance(t, k, values, t6);
    e := InstanceEntry(k, t.next.val, t.next.next.next.val, values);
  }

  lemma InstanceBlockShape(p: Parse, k: Kind) returns (e: GlobalEntry)
    requires (k == Storage || k == Sensor) && p.g.values == [] && InstanceBlock(p, k).Parsed?
    requires Want(InstanceBlock(p, k).p, Semi).Parsed?
    ensures GlobalTyped(e) && Valued(e)
    ensures Follow(p.t, GlobalEntryToks(e)) == Some(Want(InstanceBlock(p, k).p, Semi).p.t)
  {
    var values := InstanceValues(p, k);
    e := BuildEntry(p.t, k, values, InstanceBlock(p, k).p.t);
  }

  lemma GlobalItemShape(p: Parse) returns (e: GlobalEntry)
    requires Fresh(p.g) && GlobalItem(p).Parsed? && Want(GlobalItem(p).p, Semi).Parsed?
    ensures GlobalTyped(e) && Valued(e) && Follow(p.t, GlobalEntryToks(e)) == Some(Want(GlobalItem(p).p, Semi).p.t)
  {
    if Peek(p) == Plugin {
      e := PluginBlockShape(p);
    } else {
      e := InstanceBlockShape(p, if Peek(p) == Storage then Storage else Sensor);
    }
  }

  /** The next definition of a global block, and where the parser is behind it. */
  lemma GlobalItemNext(p: Parse) returns (e: GlobalEntry, q: Parse)
    requires Fresh(p.g) && GlobalItem(p).Parsed? && Want(GlobalItem(p).p, Semi).Parsed?
    ensures GlobalTyped(e) && Valued(e) && Follow(p.t, GlobalEntryToks(e)) == Some(q.t)
    ensures q == Want(GlobalItem(p).p, Semi).p && q.t < p.t && Fresh(q.g)
  {
    e := GlobalItemShape(p);
    GlobalItemParses(e, p);
    q := Want(GlobalItem(p).p, Semi).p;
  }

  lemma GlobalListUnfolds(p: Parse)
    requires GlobalList(p).Parsed? && Peek(p) in {Plugin, Storage, Sensor}
    ensures GlobalItem(p).Parsed? && Want(GlobalItem(p).p, Semi).Parsed?
    ensures GlobalList(p) == GlobalList(Want(GlobalItem(p).p, Semi).p)
  {
  }

  lemma SectionCons(e: GlobalEntry, es: seq<GlobalEntry>)
    requires GlobalTyped(e) && Valued(e) && TopTyped(GlobalSection(es)) && SectionValued(GlobalSection(es))
    ensures TopTyped(GlobalSection([e] + es)) && SectionValued(GlobalSection([e] + es))
    ensures GlobalToks([e] + es) == GlobalEntryToks(e) + GlobalToks(es)
  {
    assert ([e] + es)[1..] == es;
  }

  lemma {:induction false} GlobalListShape(p: Parse) returns (es: seq<GlobalEntry>)
    requires Fresh(p.g) && GlobalList(p).Parsed?
    ensures TopTyped(GlobalSection(es)) && SectionValued(GlobalSection(es))
    ensures Follow(p.t, GlobalToks(es)) == Some(GlobalList(p).p.t)
    decreases p.t
  {
    es := [];
    if Peek(p) in {Plugin, Storage, Sensor} {
      GlobalListUnfolds(p);
      var e, q := GlobalItemNext(p);
      var more := GlobalListShape(q);
      es := [e] + more;
      SectionCons(e, more);
      FollowConcat(p.t, GlobalEntryToks(e), GlobalToks(more));
    }
  }

  lemma GlobalBlockShape(p: Parse) returns (e: TopEntry)
    requires Fresh(p.g) && GlobalBlock(p).Parsed? && Want(GlobalBlock(p).p, Semi).Parsed?
    ensures TopTyped(e) && SectionValued(e) && Follow(p.t, TopToks(e)) == Some(Want(GlobalBlock(p).p, Semi).p.t)
  {
    var p2 := Parse(p.t.next.next, p.g);
    var es := GlobalListShape(p2);
    var body := GlobalToks(es) + Cons(Tok(RBrace), [Tok(Semi)]);
    BuildBlock(p2.t, GlobalToks(es), GlobalList(p2).p.t);
    FollowCons(p.t, Tok(Global), Cons(Tok(LBrace), body));
    FollowCons(p.t.next, Tok(LBrace), body);
    e := GlobalSection(es);
  }

  // ---------------------------------------------------------------- system blocks

  lemma DataTypeShape(p: Parse) returns (st: DataStmt)
    requires Peek(p) == Type && DataItem(p).Parsed? && Want(DataItem(p).p, Semi).Parsed?
    ensures DataTyped(st) && Follow(p.t, DataStmtToks(st)) == Some(Want(DataItem(p).p, Semi).p.t)
  {
    BuildStmt(p.t, Type, Tok(p.t.next.kind));
    st := SetDataType(DataTypeOf(p.t.next.kind));
  }

  lemma CfShape(p: Parse) returns (st: DataStmt)
    requires Peek(p) == Cf && DataItem(p).Parsed? && Want(DataItem(p).p, Semi).Parsed?
    ensures DataTyped(st) && Follow(p.t, DataStmtToks(st)) == Some(Want(DataItem(p).p, Semi).p.t)
  {
    BuildStmt(p.t, Cf, Tok(p.t.next.kind));
    st := SetCf(ConsolidationOf(p.t.next.kind));
  }

  lemma DataTextShape(p: Parse) returns (st: DataStmt)
    requires Peek(p) != Type && Peek(p) != Cf
    requires DataItem(p).Parsed? && Want(DataItem(p).p, Semi).Parsed?
    ensures DataTyped(st) && Follow(p.t, DataStmtToks(st)) == Some(Want(DataItem(p).p, Semi).p.t)
  {
    var text := p.t.next.val;
    BuildStmt(p.t, Peek(p), ConfigText.Str(text));
    st := if Peek(p) == Sensor then SetSensor(text) else if Peek(p) == Storage then SetStorage(text) else SetDesc(text);
  }

  lemma DataItemShape(p: Parse) returns (st: DataStmt)
    requires DataItem(p).Parsed? && Want(DataItem(p).p, Semi).Parsed?
    ensures DataTyped(st) && Follow(p.t, DataStmtToks(st)) == Some(Want(DataItem(p).p, Semi).p.t)
  {
    if Peek(p) == Type {
      st := DataTypeShape(p);
    } else if Peek(p) == Cf {
      st := CfShape(p);
    } else {
      st := DataTextShape(p);
    }
  }

  lemma DataToksMore(t: Tokens, st: DataStmt, more: seq<DataStmt>, u: Tokens)
    requires Follow(t, DataStmtToks(st)) == Some(u)
    ensures Follow(t, DataToks([st] + more)) == Follow(u, DataToks(more))
  {
    assert ([st] + more)[1..] == more;
    FollowConcat(t, DataStmtToks(st), DataToks(more));
  }

  lemma {:induction false} DataListShape(p: Parse) returns (stmts: seq<DataStmt>)
    requires DataList(p).Parsed?
    ensures (forall i :: 0 <= i < |stmts| ==> DataTyped(stmts[i]))
    ensures Follow(p.t, DataToks(stmts)) == Some(DataList(p).p.t)
    decreases p.t
  {
    stmts := [];
    if Peek(p) in {Type, Cf, Sensor, Storage, Desc} {
      var st := DataItemShape(p);
      var q := Want(DataItem(p).p, Semi).p;
      var more := DataListShape(q);
      stmts := [st] + more;
      DataToksMore(p.t, st, more, q.t);
    }
  }

  lemma DataBlockShape(p: Parse) returns (e: SystemEntry)
    requires DataBlock(p).Parsed? && Want(DataBlock(p).p, Semi).Parsed?
    ensures SystemTyped(e) && Follow(p.t, SystemEntryToks(e)) == Some(Want(DataBlock(p).p, Semi).p.t)
  {
    var p3 := Parse(p.t.next.next.next, p.g);
    var stmts := DataListShape(p3);
    BuildBlock(p3.t, DataToks(stmts), DataList(p3).p.t);
    BuildHead(p.t, Kind.DataSet, DataToks(stmts) + Cons(Tok(RBrace), [Tok(Semi)]));
    e := DataEntry(p.t.next.val, stmts);
  }

  lemma SystemItemShape(p: Parse) returns (e: SystemEntry)
    requires SystemItem(p).Parsed? && Want(SystemItem(p).p, Semi).Parsed?
    ensures SystemTyped(e) && Follow(p.t, SystemEntryToks(e)) == Some(Want(SystemItem(p).p, Semi).p.t)
  {
    if Peek(p) == Kind.DataSet {
      e := DataBlockShape(p);
    } else {
      e := DescEntry(p.t.next.val);
      BuildStmt(p.t, Desc, ConfigText.Str(p.t.next.val));
    }
  }

  lemma SystemToksMore(t: Tokens, e: SystemEntry, more: seq<SystemEntry>, u: Tokens)
    requires Follow(t, SystemEntryToks(e)) == Some(u)
    ensures Follow(t, SystemToks([e] + more)) == Follow(u, SystemToks(more))
  {
    assert ([e] + more)[1..] == more;
    FollowConcat(t, SystemEntryToks(e), SystemToks(more));
  }

  lemma SystemListUnfolds(p: Parse)
    requires SystemList(p).Parsed? && (Peek(p) == Kind.DataSet || Peek(p) == Desc)
    ensures SystemItem(p).Parsed? && Want(SystemItem(p).p, Semi).Parsed?
    ensures SystemList(p) == SystemList(Want(SystemItem(p).p, Semi).p) && Want(SystemItem(p).p, Semi).p.t < p.t
  {
  }

  lemma {:induction false} SystemListShape(p: Parse) returns (es: seq<SystemEntry>)
    requires SystemList(p).Parsed?
    ensures (forall i :: 0 <= i < |es| ==> SystemTyped(es[i]))
    ensures Follow(p.t, SystemToks(es)) == Some(SystemList(p).p.t)
    decreases p.t
  {
    es := [];
    if Peek(p) == Kind.DataSet || Peek(p) == Desc {
      SystemListUnfolds(p);
      var e := SystemItemShape(p);
      var q := Want(SystemItem(p).p, Semi).p;
      var more := SystemListShape(q);
      es := [e] + more;
      SystemToksMore(p.t, e, more, q.t);
    }
  }

  lemma SystemBlockShape(p: Parse) returns (e: TopEntry)
    requires SystemBlock(p).Parsed? && Want(SystemBlock(p).p, Semi).Parsed?
    ensures TopTyped(e) && SectionValued(e) && Follow(p.t, TopToks(e)) == Some(Want(SystemBlock(p).p, Semi).p.t)
  {
    var name := p.t.next.val;
    var p3 := Parse(p.t.next.next.next, p.g.(sys := p.g.sys.(name := name)));
    var es := SystemListShape(p3);
    BuildBlock(p3.t, SystemToks(es), SystemList(p3).p.t);
    BuildHead(p.t, Kind.System, SystemToks(es) + Cons(Tok(RBrace), [Tok(Semi)]));
    e := SystemSection(name, es);
  }

  // ---------------------------------------------------------------- the file

  /** The next section, and where the parser is behind it. */
  lemma TopItemNext(p: Parse) returns (e: TopEntry, q: Parse)
    requires Fresh(p.g) && TopItem(p).Parsed? && Want(TopItem(p).p, Semi).Parsed?
    ensures TopTyped(e) && SectionValued(e) && Follow(p.t, TopToks(e)) == Some(q.t)
    ensures q == Want(TopItem(p).p, Semi).p && q.t < p.t && Fresh(q.g)
  {
    if Peek(p) == Global {
      e := GlobalBlockShape(p);
      GlobalBlockParses(e.globals, p);
    } else {
      e := SystemBlockShape(p);
      SystemBlockParses(e.name, e.entries, p);
    }
    q := Want(TopItem(p).p, Semi).p;
  }

  lemma ConfigCons(e: TopEntry, config: seq<TopEntry>)
    requires TopTyped(e) && SectionValued(e) && Typed(config) && AllValued(config)
    ensures Typed([e] + config) && AllValued([e] + config) && Toks([e] + config) == TopToks(e) + Toks(config)
  {
    assert ([e] + config)[1..] == config;
  }

  lemma {:induction false} TopListShape(p: Parse) returns (config: seq<TopEntry>)
    requires Fresh(p.g) && TopList(p).Parsed?
    ensures Typed(config) && AllValued(config) && TopList(p).p.t.End?
    ensures Follow(p.t, Toks(config)) == Some(TopList(p).p.t)
    decreases p.t
  {
    config := [];
    if p.t.Token? {
      var e, q := TopItemNext(p);
      var more := TopListShape(q);
      config := [e] + more;
      ConfigCons(e, more);
      FollowConcat(p.t, TopToks(e), Toks(more));
    }
  }

  // ---------------------------------------------------------------- a storage or sensor without values

  predicate IsInstance(k: Kind) {
    k == Storage || k == Sensor
  }

  /** There is no value ahead. */
  predicate NoValue(t: Tokens) {
    !(t.Token? && t.kind == Word)
  }

  /** The definitions of a global block and then a storage or sensor that has no value. */
  ghost predicate BlockStops(t: Tokens, es: seq<GlobalEntry>, k: Kind, name: string, plugin: string) {
    && IsInstance(k) && TopTyped(GlobalSection(es)) && SectionValued(GlobalSection(es))
    && var rest := Follow(t, GlobalToks(es) + OpenToks(k, name, plugin, []));
       rest.Some? && NoValue(rest.value)
  }

  lemma InstanceNull(p: Parse, k: Kind)
    requires IsInstance(k) && p.g.values == [] && InstanceBlock(p, k).NullValues?
    ensures BlockStops(p.t, [], k, p.t.next.val, p.t.next.next.next.val)
  {
    InstanceOpens(p, k);
    var p5 := Parse(p.t.next.next.next.next.pushed, p.g);
    var values := GenericListShape(p5);
    assert [] + ValueRecords(values) == ValueRecords(values);
    assert values == [];
    var open := OpenToks(k, p.t.next.val, p.t.next.next.next.val, []);
    BuildOpen(p.t, k, []);
    assert GlobalToks([]) + open == open;
  }

  lemma FollowFront(t: Tokens, head: seq<Expect>, u: Tokens, mid: seq<Expect>, tail: seq<Expect>)
    requires Follow(t, head) == Some(u)
    ensures Follow(t, (head + mid) + tail) == Follow(u, mid + tail)
  {
    assert (head + mid) + tail == head + (mid + tail);
    FollowConcat(t, head, mid + tail);
  }

  lemma BlockStopsLater(t: Tokens, e: GlobalEntry, u: Tokens, es: seq<GlobalEntry>, k: Kind, name: string,
                        plugin: string)
    requires Follow(t, GlobalEntryToks(e)) == Some(u) && GlobalTyped(e) && Valued(e)
    requires BlockStops(u, es, k, name, plugin)
    ensures BlockStops(t, [e] + es, k, name, plugin)
  {
    SectionCons(e, es);
    FollowFront(t, GlobalEntryToks(e), u, GlobalToks(es), OpenToks(k, name, plugin, []));
  }

  lemma GlobalNullUnfolds(p: Parse)
    requires GlobalList(p).NullValues?
    ensures Peek(p) in {Plugin, Storage, Sensor}
    ensures if GlobalItem(p).NullValues? then IsInstance(Peek(p)) && InstanceBlock(p, Peek(p)).NullValues?
      else GlobalItem(p).Parsed? && Want(GlobalItem(p).p, Semi).Parsed?
           && GlobalList(p) == GlobalList(Want(GlobalItem(p).p, Semi).p)
  {
  }

  lemma {:induction false} GlobalNull(p: Parse)
    returns (es: seq<GlobalEntry>, k: Kind, name: string, plugin: string)
    requires Fresh(p.g) && GlobalList(p).NullValues?
    ensures BlockStops(p.t, es, k, name, plugin)
    decreases p.t
  {
    GlobalNullUnfolds(p);
    if GlobalItem(p).NullValues? {
      es, k, name, plugin := [], Peek(p), p.t.next.val, p.t.next.next.next.val;
      InstanceNull(p, k);
    } else {
      var e, q := GlobalItemNext(p);
      es, k, name, plugin := GlobalNull(q);
      BlockStopsLater(p.t, e, q.t, es, k, name, plugin);
      es := [e] + es;
    }
  }

  /** The tokens up to a storage or sensor without a value. */
  function StopToks(config: seq<TopEntry>, es: seq<GlobalEntry>, k: Kind, name: string, plugin: string): seq<Expect> {
    Toks(config) + BlockToks(es, k, name, plugin)
  }

  function BlockToks(es: seq<GlobalEntry>, k: Kind, name: string, plugin: string): seq<Expect> {
    Cons(Tok(Global), Cons(Tok(LBrace), GlobalToks(es) + OpenToks(k, name, plugin, [])))
  }

  ghost predicate Stops(t: Tokens, config: seq<TopEntry>, es: seq<GlobalEntry>, k: Kind, name: string, plugin: string) {
    && IsInstance(k) && Typed(config) && AllValued(config)
    && TopTyped(GlobalSection(es)) && SectionValued(GlobalSection(es))
    && var rest := Follow(t, StopToks(config, es, k, name, plugin));
       rest.Some? && NoValue(rest.value)
  }

  lemma StopsHere(t: Tokens, es: seq<GlobalEntry>, k: Kind, name: string, plugin: string)
    requires t.Token? && t.kind == Global && t.next.Token? && t.next.kind == LBrace
    requires BlockStops(t.next.next, es, k, name, plugin)
    ensures Stops(t, [], es, k, name, plugin)
  {
    var body := GlobalToks(es) + OpenToks(k, name, plugin, []);
    var all := Cons(Tok(Global), Cons(Tok(LBrace), body));
    FollowCons(t, Tok(Global), Cons(Tok(LBrace), body));
    FollowCons(t.next, Tok(LBrace), body);
    assert Toks([]) + all == all;
  }

  lemma StopsLater(t: Tokens, e: TopEntry, u: Tokens, config: seq<TopEntry>, es: seq<GlobalEntry>, k: Kind,
                   name: string, plugin: string)
    requires Follow(t, TopToks(e)) == Some(u) && TopTyped(e) && SectionValued(e)
    requires Stops(u, config, es, k, name, plugin)
    ensures Stops(t, [e] + config, es, k, name, plugin)
  {
    ConfigCons(e, config);
    FollowFront(t, TopToks(e), u, Toks(config), BlockToks(es, k, name, plugin));
  }

  lemma TopNullUnfolds(p: Parse)
    requires TopList(p).NullValues?
    ensures p.t.Token?
    ensures if TopItem(p).NullValues?
      then p.t.kind == Global && p.t.next.Token? && p.t.next.kind == LBrace
           && GlobalList(Parse(p.t.next.next, p.g)).NullValues?
      else TopItem(p).Parsed? && Want(TopItem(p).p, Semi).Parsed?
           && TopList(p) == TopList(Want(TopItem(p).p, Semi).p)
  {
  }

  lemma {:induction false} TopNull(p: Parse)
    returns (config: seq<TopEntry>, es: seq<GlobalEntry>, k: Kind, name: string, plugin: string)
    requires Fresh(p.g) && TopList(p).NullValues?
    ensures Stops(p.t, config, es, k, name, plugin)
    decreases p.t
  {
    TopNullUnfolds(p);
    if TopItem(p).NullValues? {
      config := [];
      es, k, name, plugin := GlobalNull(Parse(p.t.next.next, p.g));
      StopsHere(p.t, es, k, name, plugin);
    } else {
      var e, q := TopItemNext(p);
      config, es, k, name, plugin := TopNull(q);
      StopsLater(p.t, e, q.t, config, es, k, name, plugin);
      config := [e] + config;
    }
  }

  // ---------------------------------------------------------------- and the other way

  lemma {:induction false} GlobalListRuns(es: seq<GlobalEntry>, p: Parse) returns (q: Parse)
    requires Follow(p.t, GlobalToks(es)).Some? && Fresh(p.g)
    requires TopTyped(GlobalSection(es)) && SectionValued(GlobalSection(es))
    ensures GlobalList(p) == GlobalList(q) && Some(q.t) == Follow(p.t, GlobalToks(es)) && Fresh(q.g)
    decreases |es|
  {
    q := p;
    if es != [] {
      GlobalToksFront(es, p.t);
      var r := GlobalListStep(es[0], p);
      q := GlobalListRuns(es[1..], r);
    }
  }

  lemma {:induction false} TopListRuns(config: seq<TopEntry>, p: Parse) returns (q: Parse)
    requires Follow(p.t, Toks(config)).Some? && Fresh(p.g) && Typed(config) && AllValued(config)
    ensures TopList(p) == TopList(q) && Some(q.t) == Follow(p.t, Toks(config)) && Fresh(q.g)
    decreases |config|
  {
    q := p;
    if config != [] {
      ToksFront(config, p.t);
      assert TopTyped(config[0]) && SectionValued(config[0]);
      var r := TopListStep(config[0], p);
      q := TopListRuns(config[1..], r);
    }
  }

  lemma FollowOpen(t: Tokens, k: Kind, name: string, plugin: string)
    requires IsInstance(k) && Follow(t, OpenToks(k, name, plugin, [])).Some?
    ensures IsOpen(t, k) && Follow(t, OpenToks(k, name, plugin, [])) == Some(t.next.next.next.next.pushed)
  {
    var open := Tok(LBrace).(opens := true);
    var from2 := Cons(Tok(Type), Cons(ConfigText.Str(plugin), Cons(open, [])));
    FollowTwo(t, Tok(k), ConfigText.Str(name), from2);
    FollowTwo(t.next.next, Tok(Type), ConfigText.Str(plugin), Cons(open, []));
    FollowCons(t.next.next.next.next, open, []);
  }

  lemma OpenIsNull(p: Parse, k: Kind)
    requires IsInstance(k) && p.g.values == [] && IsOpen(p.t, k) && NoValue(p.t.next.next.next.next.pushed)
    ensures GlobalList(p).NullValues?
  {
    OpenBlockIsNull(p, k);
  }

  lemma OpenBlockIsNull(p: Parse, k: Kind)
    requires IsInstance(k) && p.g.values == [] && IsOpen(p.t, k) && NoValue(p.t.next.next.next.next.pushed)
    ensures InstanceBlock(p, k).NullValues?
  {
    var p5 := Parse(p.t.next.next.next.next.pushed, p.g);
    assert GenericList(p5) == Parsed(p5);
  }

  lemma StopsIsNull(p: Parse, config: seq<TopEntry>, es: seq<GlobalEntry>, k: Kind, name: string, plugin: string)
    requires Fresh(p.g) && Stops(p.t, config, es, k, name, plugin)
    ensures TopList(p).NullValues?
  {
    var open := OpenToks(k, name, plugin, []);
    var body := GlobalToks(es) + open;
    FollowConcat(p.t, Toks(config), BlockToks(es, k, name, plugin));
    var q := TopListRuns(config, p);
    FollowTwo(q.t, Tok(Global), Tok(LBrace), body);
    var q2 := Parse(q.t.next.next, q.g);
    FollowConcat(q2.t, GlobalToks(es), open);
    var r := GlobalListRuns(es, q2);
    FollowOpen(r.t, k, name, plugin);
    OpenIsNull(r, k);
    assert GlobalBlock(q).NullValues?;
  }

  // ---------------------------------------------------------------- what every text comes to

  /** The tokens are those of a configuration, to the end. */
  ghost predicate Spells(t: Tokens, config: seq<TopEntry>) {
    Typed(config) && AllValued(config) && Follow(t, Toks(config)).Some? && Follow(t, Toks(config)).value.End?
  }

  ghost predicate Accepted(text: string) {
    exists config :: Spells(Ahead(Start(text)), config)
  }

  ghost predicate MeetsNull(text: string) {
    exists config, es, k, name, plugin :: Stops(Ahead(Start(text)), config, es, k, name, plugin)
  }

  /** A text is accepted exactly if its tokens are those of a configuration, and then it makes the
  records of that configuration; it ends the process exactly if its tokens run into a storage or
  sensor without values; and it is a syntax error exactly if neither is so. */
  lemma EveryText(text: string)
    ensures ParseText(text).Parsed? <==> Accepted(text)
    ensures forall config :: Spells(Ahead(Start(text)), config) ==>
      ParseText(text).Parsed? && ParseText(text).p.g.added == Records(config)
    ensures ParseText(text).NullValues? <==> MeetsNull(text)
  {
    var p := Parse(Ahead(Start(text)), NEW_GLOBALS);
    if TopList(p).Parsed? {
      var config := TopListShape(p);
      assert Spells(p.t, config);
    }
    forall config | Spells(p.t, config)
      ensures ParseText(text).Parsed? && ParseText(text).p.g.added == Records(config)
    {
      TopListParses(config, p, Follow(p.t, Toks(config)).value);
      assert [] + Records(config) == Records(config);
    }
    if TopList(p).NullValues? {
      var config, es, k, name, plugin := TopNull(p);
    }
    if config, es, k, name, plugin :| Stops(p.t, config, es, k, name, plugin) {
      StopsIsNull(p, config, es, k, name, plugin);
    }
  }
}
