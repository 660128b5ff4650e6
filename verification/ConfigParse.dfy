/** The parser on the tokens of a configuration: it accepts them and makes the records they mean. */
module ConfigParse {
  import opened Wrappers
  import opened ConfigFile
  import opened L = Lexer
  import opened ConfigText
  import opened Parser

  predicate HasText(k: Kind) {
    k == Text || k == Word || k == Number || k == Yes || k == No
  }

  /** What is ahead after the expected token. */
  function Take(ts: Tokens, e: Expect): Option<Tokens> {
    if ts.End? || ts.kind != e.kind || (HasText(e.kind) && ts.val != e.text) then None
    else Some(if e.opens then ts.pushed else ts.next)
  }

  function Follow(ts: Tokens, es: seq<Expect>): Option<Tokens>
    decreases |es|
  {
    if es == [] then Some(ts)
    else
      match Take(ts, es[0])
      case None => None
      case Some(next) => Follow(next, es[1..])
  }

  lemma FollowCons(ts: Tokens, e: Expect, es: seq<Expect>)
    ensures Follow(ts, Cons(e, es)) == match Take(ts, e) case None => None case Some(next) => Follow(next, es)
  {
    assert Cons(e, es)[1..] == es;
  }

  lemma {:induction false} FollowConcat(ts: Tokens, a: seq<Expect>, b: seq<Expect>)
    ensures Follow(ts, a + b) == match Follow(ts, a) case None => None case Some(next) => Follow(next, b)
    decreases |a|
  {
    if a == [] {
      assert a + b == b;
    } else {
      assert (a + b)[1..] == a[1..] + b;
      if Take(ts, a[0]).Some? {
        FollowConcat(Take(ts, a[0]).value, a[1..], b);
      }
    }
  }

  /** Two tokens at the front. */
  lemma FollowTwo(ts: Tokens, a: Expect, b: Expect, es: seq<Expect>)
    requires Follow(ts, Cons(a, Cons(b, es))).Some?
    ensures Take(ts, a).Some? && Take(Take(ts, a).value, b).Some?
    ensures Follow(ts, Cons(a, Cons(b, es))) == Follow(Take(Take(ts, a).value, b).value, es)
  {
    FollowCons(ts, a, Cons(b, es));
    FollowCons(Take(ts, a).value, b, es);
  }

  /** A statement: a keyword, its argument and a semicolon. */
  lemma FollowStmt(ts: Tokens, k: Kind, arg: Expect)
    requires Follow(ts, Stmt(k, arg)).Some? && !arg.opens
    ensures ts.Token? && ts.kind == k && ts.next.Token? && ts.next.kind == arg.kind
    ensures HasText(arg.kind) ==> ts.next.val == arg.text
    ensures ts.next.next.Token? && ts.next.next.kind == Semi
    ensures Follow(ts, Stmt(k, arg)) == Some(ts.next.next.next)
  {
    FollowTwo(ts, Tok(k), arg, [Tok(Semi)]);
    FollowCons(ts.next.next, Tok(Semi), []);
  }

  /** A block: its head, the tokens inside, a right brace and a semicolon. */
  lemma FollowBlock(ts: Tokens, inside: seq<Expect>)
    requires Follow(ts, inside + Cons(Tok(RBrace), [Tok(Semi)])).Some?
    ensures Follow(ts, inside).Some?
    ensures var last := Follow(ts, inside).value;
      && last.Token? && last.kind == RBrace && last.next.Token? && last.next.kind == Semi
      && Follow(ts, inside + Cons(Tok(RBrace), [Tok(Semi)])) == Some(last.next.next)
  {
    FollowConcat(ts, inside, Cons(Tok(RBrace), [Tok(Semi)]));
    FollowBlockEnd(Follow(ts, inside).value);
  }

  lemma FollowBlockEnd(ts: Tokens)
    requires Follow(ts, Cons(Tok(RBrace), [Tok(Semi)])).Some?
    ensures ts.Token? && ts.kind == RBrace && ts.next.Token? && ts.next.kind == Semi
    ensures Follow(ts, Cons(Tok(RBrace), [Tok(Semi)])) == Some(ts.next.next)
  {
    FollowTwo(ts, Tok(RBrace), Tok(Semi), []);
  }

  // ---------------------------------------------------------------- plugins

  lemma PluginItemParses(st: PluginStmt, p: Parse)
    requires Follow(p.t, PluginStmtToks(st)).Some? && st != SetType(PNone)
    ensures Peek(p) == Type || Peek(p) == File
    ensures PluginItem(p).Parsed?
    ensures var q := PluginItem(p).p;
      && q.g == p.g.(plugin := PluginRecord(p.g.plugin, [st]))
      && Want(q, Semi) == Parsed(Parse(Follow(p.t, PluginStmtToks(st)).value, q.g))
  {
    assert [st][1..] == [];
    match st
    case SetType(k) => PluginTypeParses(k, p);
    case SetFile(f) => FollowStmt(p.t, File, ConfigText.Str(f));
  }

  lemma PluginTypeParses(k: PluginType, p: Parse)
    requires Follow(p.t, Stmt(Type, Tok(PluginTypeKind(k)))).Some? && k != PNone
    ensures p.t.Token? && p.t.kind == Type && p.t.next.Token? && p.t.next.next.Token?
    ensures p.t.next.next.kind == Semi && Follow(p.t, Stmt(Type, Tok(PluginTypeKind(k)))) == Some(p.t.next.next.next)
    ensures PluginItem(p) == Parsed(Parse(p.t.next.next, p.g.(plugin := p.g.plugin.(ptype := k))))
  {
    FollowStmt(p.t, Type, Tok(PluginTypeKind(k)));
  }

  predicate PluginStmtsOk(stmts: seq<PluginStmt>) {
    forall i :: 0 <= i < |stmts| ==> stmts[i] != SetType(PNone)
  }

  lemma {:induction false} PluginListParses(stmts: seq<PluginStmt>, p: Parse, t: Tokens)
    requires Follow(p.t, PluginToks(stmts)) == Some(t) && t.Token? && t.kind == RBrace
    requires PluginStmtsOk(stmts)
    ensures PluginList(p) == Parsed(Parse(t, p.g.(plugin := PluginRecord(p.g.plugin, stmts))))
    decreases |stmts|
  {
    if stmts != [] {
      FollowConcat(p.t, PluginStmtToks(stmts[0]), PluginToks(stmts[1..]));
      PluginItemParses(stmts[0], p);
      var q := PluginItem(p).p;
      assert [stmts[0]][1..] == [];
      PluginListParses(stmts[1..], Parse(Follow(p.t, PluginStmtToks(stmts[0])).value, q.g), t);
    }
  }

  /** The name of a plugin is set last, but no statement touches it. */
  lemma {:induction false} PluginNameLast(r: GlobalPlugin, stmts: seq<PluginStmt>, name: string)
    ensures PluginRecord(r, stmts).(name := name) == PluginRecord(r.(name := name), stmts)
    decreases |stmts|
  {
    if stmts != [] {
      var r1 := match stmts[0]
        case SetType(t) => r.(ptype := t)
        case SetFile(f) => r.(file := Some(f));
      PluginNameLast(r1, stmts[1..], name);
    }
  }

  lemma PluginBlockParses(name: string, stmts: seq<PluginStmt>, p: Parse)
    requires Follow(p.t, GlobalEntryToks(PluginEntry(name, stmts))).Some?
    requires p.g.plugin == NEW_PLUGIN && PluginStmtsOk(stmts)
    ensures PluginBlock(p).Parsed? && Peek(p) == Plugin
    ensures var q := PluginBlock(p).p;
      && q.g == p.g.(added := p.g.added + [GlobalRecord(PluginEntry(name, stmts))])
      && Want(q, Semi) == Parsed(Parse(Follow(p.t, GlobalEntryToks(PluginEntry(name, stmts))).value, q.g))
  {
    var body := PluginToks(stmts) + Cons(Tok(RBrace), [Tok(Semi)]);
    FollowTwo(p.t, Tok(Plugin), ConfigText.Str(name), Cons(Tok(LBrace), body));
    var t2 := p.t.next.next;
    FollowCons(t2, Tok(LBrace), body);
    FollowBlock(t2.next, PluginToks(stmts));
    PluginListParses(stmts, Parse(t2.next, p.g), Follow(t2.next, PluginToks(stmts)).value);
    PluginNameLast(NEW_PLUGIN, stmts, name);
  }

  // ---------------------------------------------------------------- storage and sensors

  function ValueStmtToks(value: (string, Value)): seq<Expect> {
    Cons(Expect(Word, value.0, false, false), Cons(ValueTok(value.1), [Tok(Semi)]))
  }

  lemma FollowValue(value: (string, Value), ts: Tokens)
    requires Follow(ts, ValueStmtToks(value)).Some?
    ensures ts.Token? && ts.kind == Word && ts.val == value.0 && ts.next.Token?
    ensures ts.next.kind in {Text, Number, Yes, No} && ts.next.val == ValueText(value.1)
    ensures ts.next.next.Token? && ts.next.next.kind == Semi
    ensures Follow(ts, ValueStmtToks(value)) == Some(ts.next.next.next)
  {
    FollowTwo(ts, Expect(Word, value.0, false, false), ValueTok(value.1), [Tok(Semi)]);
    FollowCons(ts.next.next, Tok(Semi), []);
  }

  lemma GenericListStep(value: (string, Value), p: Parse) returns (r: Parse)
    requires Follow(p.t, ValueStmtToks(value)).Some?
    ensures GenericList(p) == GenericList(r) && Some(r.t) == Follow(p.t, ValueStmtToks(value))
    ensures r.g == p.g.(values := p.g.values + [(value.0, ValueText(value.1))])
  {
    FollowValue(value, p.t);
    r := Parse(p.t.next.next.next, p.g.(values := p.g.values + [(value.0, ValueText(value.1))]));
  }

  lemma {:induction false} GenericListParses(values: seq<(string, Value)>, p: Parse, t: Tokens)
    requires Follow(p.t, ValueToks(values)) == Some(t) && t.Token? && t.kind == Semi
    ensures GenericList(p) == Parsed(Parse(t, p.g.(values := p.g.values + ValueRecords(values))))
    decreases |values|
  {
    if values == [] {
      assert p.g.values + [] == p.g.values;
    } else {
      FollowConcat(p.t, ValueStmtToks(values[0]), ValueToks(values[1..]));
      var r := GenericListStep(values[0], p);
      GenericListParses(values[1..], r, t);
      AppendCons(p.g.values, (values[0].0, ValueText(values[0].1)), ValueRecords(values[1..]));
    }
  }

  lemma AppendCons<T>(xs: seq<T>, y: T, zs: seq<T>)
    ensures (xs + [y]) + zs == xs + ([y] + zs)
  {
  }

  lemma ConcatAssociates<T>(xs: seq<T>, ys: seq<T>, zs: seq<T>)
    ensures (xs + ys) + zs == xs + (ys + zs)
  {
  }

  lemma InstanceBlockIs(k: Kind, p: Parse, type_: Parse, list: Parse, inst: Instance)
    requires (k == Storage || k == Sensor) && p.t.Token? && p.t.kind == k && p.t.next.Token? && p.t.next.kind == Text
    requires type_ == Parse(p.t.next.next, p.g)
    requires type_.t.Token? && type_.t.kind == Type && type_.t.next.Token? && type_.t.next.kind == Text
    requires type_.t.next.next.Token? && type_.t.next.next.kind == LBrace
    requires GenericList(Parse(type_.t.next.next.pushed, p.g)) == Parsed(list) && list.g.values != []
    requires inst == Instance(p.t.next.val, type_.t.next.val, list.g.values)
    ensures InstanceBlock(p, k) == Parsed(Parse(list.t, list.g.(values := [],
      added := list.g.added + [if k == Storage then AddStorage(inst) else AddSensor(inst)])))
  {
  }

  /** The five tokens of its head, its values, and the semicolon. */
  lemma FollowInstance(k: Kind, name: string, plugin: string, values: seq<(string, Value)>, ts: Tokens)
    returns (t4: Tokens, t6: Tokens)
    requires (k == Storage || k == Sensor) && Follow(ts, InstanceToks(k, name, plugin, values)).Some?
    ensures ts.Token? && ts.kind == k && ts.next.Token? && ts.next.kind == Text && ts.next.val == name
    ensures var t2 := ts.next.next;
      && t2.Token? && t2.kind == Type && t2.next.Token? && t2.next.kind == Text && t2.next.val == plugin
      && t4 == t2.next.next
    ensures t4.Token? && t4.kind == LBrace && Follow(t4.pushed, ValueToks(values)) == Some(t6)
    ensures t6.Token? && t6.kind == Semi && Follow(ts, InstanceToks(k, name, plugin, values)) == Some(t6.next)
  {
    var close := Tok(Semi).(closes := true);
    var body := ValueToks(values) + [close];
    var open := Tok(LBrace).(opens := true);
    FollowTwo(ts, Tok(k), ConfigText.Str(name), Cons(Tok(Type), Cons(ConfigText.Str(plugin), Cons(open, body))));
    var t2 := ts.next.next;
    FollowTwo(t2, Tok(Type), ConfigText.Str(plugin), Cons(open, body));
    t4 := t2.next.next;
    FollowCons(t4, open, body);
    FollowConcat(t4.pushed, ValueToks(values), [close]);
    t6 := Follow(t4.pushed, ValueToks(values)).value;
    FollowCons(t6, close, []);
  }

  lemma InstanceListParses(values: seq<(string, Value)>, p: Parse, t: Tokens)
    requires Follow(p.t, ValueToks(values)) == Some(t) && t.Token? && t.kind == Semi && p.g.values == []
    ensures GenericList(p) == Parsed(Parse(t, p.g.(values := ValueRecords(values))))
    ensures values != [] ==> ValueRecords(values) != []
  {
    GenericListParses(values, p, t);
    assert [] + ValueRecords(values) == ValueRecords(values);
  }

  function InstanceAdded(k: Kind, name: string, plugin: string, values: seq<(string, Value)>): Added {
    var inst := Instance(name, plugin, ValueRecords(values));
    if k == Storage then AddStorage(inst) else AddSensor(inst)
  }

  lemma InstanceBlockParses(k: Kind, name: string, plugin: string, values: seq<(string, Value)>, p: Parse)
    returns (q: Parse)
    requires (k == Storage || k == Sensor) && Follow(p.t, InstanceToks(k, name, plugin, values)).Some?
    requires values != [] && p.g.values == []
    ensures Peek(p) == k && InstanceBlock(p, k) == Parsed(q)
    ensures q.g == p.g.(added := p.g.added + [InstanceAdded(k, name, plugin, values)])
    ensures q.t.Token? && q.t.kind == Semi && Follow(p.t, InstanceToks(k, name, plugin, values)) == Some(q.t.next)
  {
    var t4, t6 := FollowInstance(k, name, plugin, values, p.t);
    InstanceListParses(values, Parse(t4.pushed, p.g), t6);
    var list := Parse(t6, p.g.(values := ValueRecords(values)));
    InstanceBlockIs(k, p, Parse(p.t.next.next, p.g), list, Instance(name, plugin, ValueRecords(values)));
    q := Parse(t6, p.g.(added := p.g.added + [InstanceAdded(k, name, plugin, values)]));
  }

  /** A storage or sensor without values ends the process instead. */
  lemma InstanceWithoutValues(k: Kind, name: string, plugin: string, p: Parse)
    requires (k == Storage || k == Sensor) && Follow(p.t, InstanceToks(k, name, plugin, [])).Some?
    requires p.g.values == []
    ensures InstanceBlock(p, k) == NullValues
  {
    var t4, t6 := FollowInstance(k, name, plugin, [], p.t);
    GenericListParses([], Parse(t4.pushed, p.g), t6);
  }

  // ---------------------------------------------------------------- the global block

  /** No structure is half filled. */
  predicate Fresh(g: Globals) {
    g.plugin == NEW_PLUGIN && g.values == [] && g.dset == NEW_DATA_SET && g.sys == NEW_SYSTEM
  }

  lemma GlobalItemParses(e: GlobalEntry, p: Parse)
    requires Follow(p.t, GlobalEntryToks(e)).Some? && GlobalTyped(e) && Valued(e) && Fresh(p.g)
    ensures Peek(p) in {Plugin, Storage, Sensor} && GlobalItem(p).Parsed?
    ensures var q := GlobalItem(p).p;
      && q.g == p.g.(added := p.g.added + [GlobalRecord(e)])
      && Want(q, Semi) == Parsed(Parse(Follow(p.t, GlobalEntryToks(e)).value, q.g))
  {
    match e
    case PluginEntry(name, stmts) =>
      assert PluginStmtsOk(stmts);
      PluginBlockParses(name, stmts, p);
    case StorageEntry(name, plugin, values) =>
      var q := InstanceBlockParses(Storage, name, plugin, values, p);
    case SensorEntry(name, plugin, values) =>
      var q := InstanceBlockParses(Sensor, name, plugin, values, p);
  }

  lemma GlobalListStep(e: GlobalEntry, p: Parse) returns (r: Parse)
    requires Follow(p.t, GlobalEntryToks(e)).Some? && GlobalTyped(e) && Valued(e) && Fresh(p.g)
    ensures GlobalList(p) == GlobalList(r) && Some(r.t) == Follow(p.t, GlobalEntryToks(e)) && Fresh(r.g)
    ensures r.g == p.g.(added := p.g.added + [GlobalRecord(e)])
  {
    GlobalItemParses(e, p);
    r := Parse(Follow(p.t, GlobalEntryToks(e)).value, GlobalItem(p).p.g);
  }

  lemma SectionRest(es: seq<GlobalEntry>)
    requires es != [] && TopTyped(GlobalSection(es)) && SectionValued(GlobalSection(es))
    ensures GlobalTyped(es[0]) && Valued(es[0])
    ensures TopTyped(GlobalSection(es[1..])) && SectionValued(GlobalSection(es[1..]))
  {
  }

  lemma {:induction false} GlobalListParses(es: seq<GlobalEntry>, p: Parse, t: Tokens)
    requires Follow(p.t, GlobalToks(es)) == Some(t) && t.Token? && t.kind == RBrace
    requires TopTyped(GlobalSection(es)) && SectionValued(GlobalSection(es)) && Fresh(p.g)
    ensures GlobalList(p) == Parsed(Parse(t, p.g.(added := p.g.added + GlobalRecords(es))))
    decreases |es|
  {
    if es == [] {
      assert p.g.added + [] == p.g.added;
    } else {
      GlobalToksFront(es, p.t);
      SectionRest(es);
      var r := GlobalListStep(es[0], p);
      GlobalListParses(es[1..], r, t);
      AppendCons(p.g.added, GlobalRecord(es[0]), GlobalRecords(es[1..]));
    }
  }

  lemma GlobalBlockParses(es: seq<GlobalEntry>, p: Parse)
    requires Follow(p.t, TopToks(GlobalSection(es))).Some? && TopTyped(GlobalSection(es))
    requires SectionValued(GlobalSection(es)) && Fresh(p.g)
    ensures GlobalBlock(p).Parsed? && Peek(p) == Global
    ensures var q := GlobalBlock(p).p;
      && q.g == p.g.(added := p.g.added + GlobalRecords(es))
      && Want(q, Semi) == Parsed(Parse(Follow(p.t, TopToks(GlobalSection(es))).value, q.g))
  {
    FollowTwo(p.t, Tok(Global), Tok(LBrace), GlobalToks(es) + Cons(Tok(RBrace), [Tok(Semi)]));
    var t2 := p.t.next.next;
    FollowBlock(t2, GlobalToks(es));
    GlobalListParses(es, Parse(t2, p.g), Follow(t2, GlobalToks(es)).value);
  }

  // ---------------------------------------------------------------- system blocks

  lemma DataItemParses(st: DataStmt, p: Parse)
    requires Follow(p.t, DataStmtToks(st)).Some? && DataTyped(st)
    ensures Peek(p) in {Type, Cf, Sensor, Storage, Desc} && DataItem(p).Parsed?
    ensures var q := DataItem(p).p;
      && q.g == p.g.(dset := DataRecord(p.g.dset, [st]))
      && Want(q, Semi) == Parsed(Parse(Follow(p.t, DataStmtToks(st)).value, q.g))
  {
    assert [st][1..] == [];
    if st.SetDataType? || st.SetCf? {
      DataKeywordParses(st, p);
    } else {
      DataTextParses(st, p);
    }
  }

  lemma DataKeywordParses(st: DataStmt, p: Parse)
    requires Follow(p.t, DataStmtToks(st)).Some? && DataTyped(st) && (st.SetDataType? || st.SetCf?)
    ensures p.t.Token? && p.t.kind in {Type, Cf} && p.t.next.Token? && p.t.next.next.Token?
    ensures p.t.next.next.kind == Semi && Follow(p.t, DataStmtToks(st)) == Some(p.t.next.next.next)
    ensures var d := if st.SetCf? then p.g.dset.(cf := st.cf) else p.g.dset.(dtype := st.dtype);
      DataItem(p) == Parsed(SetData(Parse(p.t.next.next, p.g), d))
  {
    match st
    case SetDataType(k) => DataTypeParses(k, p);
    case SetCf(c) => CfParses(c, p);
  }

  lemma DataTypeParses(k: DataType, p: Parse)
    requires Follow(p.t, Stmt(Type, Tok(DataTypeKind(k)))).Some? && k != DNone
    ensures p.t.Token? && p.t.kind == Type && p.t.next.Token? && p.t.next.next.Token?
    ensures p.t.next.next.kind == Semi && Follow(p.t, Stmt(Type, Tok(DataTypeKind(k)))) == Some(p.t.next.next.next)
    ensures DataItem(p) == Parsed(SetData(Parse(p.t.next.next, p.g), p.g.dset.(dtype := k)))
  {
    FollowStmt(p.t, Type, Tok(DataTypeKind(k)));
  }

  lemma CfParses(c: Consolidation, p: Parse)
    requires Follow(p.t, Stmt(Cf, Tok(CfKind(c)))).Some?
    ensures p.t.Token? && p.t.kind == Cf && p.t.next.Token? && p.t.next.next.Token?
    ensures p.t.next.next.kind == Semi && Follow(p.t, Stmt(Cf, Tok(CfKind(c)))) == Some(p.t.next.next.next)
    ensures DataItem(p) == Parsed(SetData(Parse(p.t.next.next, p.g), p.g.dset.(cf := c)))
  {
    FollowStmt(p.t, Cf, Tok(CfKind(c)));
  }

  lemma DataTextParses(st: DataStmt, p: Parse)
    requires Follow(p.t, DataStmtToks(st)).Some? && !st.SetDataType? && !st.SetCf?
    ensures p.t.Token? && p.t.kind in {Sensor, Storage, Desc} && p.t.next.Token? && p.t.next.next.Token?
    ensures p.t.next.next.kind == Semi && Follow(p.t, DataStmtToks(st)) == Some(p.t.next.next.next)
    ensures var d := p.g.dset;
      DataItem(p) == Parsed(SetData(Parse(p.t.next.next, p.g),
        match st
        case SetSensor(n) => d.(sensor := Some(n))
        case SetStorage(n) => d.(storage := Some(n))
        case SetDesc(text) => d.(desc := Some(text))))
  {
    match st
    case SetSensor(n) => DataWordParses(Sensor, n, p);
    case SetStorage(n) => DataWordParses(Storage, n, p);
    case SetDesc(d) => DataWordParses(Desc, d, p);
  }

  lemma DataWordParses(k: Kind, text: string, p: Parse)
    requires Follow(p.t, Stmt(k, ConfigText.Str(text))).Some? && k in {Sensor, Storage, Desc}
    ensures p.t.Token? && p.t.kind == k && p.t.next.Token? && p.t.next.next.Token?
    ensures p.t.next.next.kind == Semi && Follow(p.t, Stmt(k, ConfigText.Str(text))) == Some(p.t.next.next.next)
    ensures var d := p.g.dset;
      DataItem(p) == Parsed(SetData(Parse(p.t.next.next, p.g),
        if k == Sensor then d.(sensor := Some(text))
        else if k == Storage then d.(storage := Some(text))
        else d.(desc := Some(text))))
  {
    FollowStmt(p.t, k, ConfigText.Str(text));
  }

  lemma {:induction false} DataListParses(stmts: seq<DataStmt>, p: Parse, t: Tokens)
    requires Follow(p.t, DataToks(stmts)) == Some(t) && t.Token? && t.kind == RBrace
    requires forall i :: 0 <= i < |stmts| ==> DataTyped(stmts[i])
    ensures DataList(p) == Parsed(Parse(t, p.g.(dset := DataRecord(p.g.dset, stmts))))
    decreases |stmts|
  {
    if stmts != [] {
      FollowConcat(p.t, DataStmtToks(stmts[0]), DataToks(stmts[1..]));
      DataItemParses(stmts[0], p);
      var q := DataItem(p).p;
      assert [stmts[0]][1..] == [];
      DataListParses(stmts[1..], Parse(Follow(p.t, DataStmtToks(stmts[0])).value, q.g), t);
    }
  }

  /** The name and the system of a data set are set last, but no statement touches them. */
  lemma {:induction false} DataNameLast(r: ConfigFile.DataSet, stmts: seq<DataStmt>, name: string, system: string)
    ensures DataRecord(r, stmts).(name := name, system := system)
      == DataRecord(r.(name := name, system := system), stmts)
    decreases |stmts|
  {
    if stmts != [] {
      var r1 := match stmts[0]
        case SetDataType(t) => r.(dtype := t)
        case SetCf(c) => r.(cf := c)
        case SetSensor(s) => r.(sensor := Some(s))
        case SetStorage(s) => r.(storage := Some(s))
        case SetDesc(d) => r.(desc := Some(d));
      DataNameLast(r1, stmts[1..], name, system);
    }
  }

  lemma DataBlockIs(p: Parse, list: Parse, d: ConfigFile.DataSet)
    requires p.t.Token? && p.t.kind == Kind.DataSet && p.t.next.Token? && p.t.next.kind == Text
    requires p.t.next.next.Token? && p.t.next.next.kind == LBrace
    requires DataList(Parse(p.t.next.next.next, p.g)) == Parsed(list) && list.t.Token? && list.t.kind == RBrace
    requires d == list.g.dset.(name := p.t.next.val, system := list.g.sys.name)
    ensures DataBlock(p)
      == Parsed(Parse(list.t.next, list.g.(dset := NEW_DATA_SET, added := list.g.added + [AddDataSet(d)])))
  {
  }

  function DataAdded(name: string, stmts: seq<DataStmt>, g: Globals): Added {
    AddDataSet(DataRecord(NEW_DATA_SET.(name := name, system := g.sys.name), stmts))
  }

  lemma DataBlockParses(name: string, stmts: seq<DataStmt>, p: Parse) returns (q: Parse)
    requires Follow(p.t, SystemEntryToks(DataEntry(name, stmts))).Some?
    requires p.g.dset == NEW_DATA_SET && forall i :: 0 <= i < |stmts| ==> DataTyped(stmts[i])
    ensures Peek(p) == Kind.DataSet && DataBlock(p) == Parsed(q)
    ensures q.g == p.g.(added := p.g.added + [DataAdded(name, stmts, p.g)])
    ensures Want(q, Semi) == Parsed(Parse(Follow(p.t, SystemEntryToks(DataEntry(name, stmts))).value, q.g))
  {
    var body := DataToks(stmts) + Cons(Tok(RBrace), [Tok(Semi)]);
    FollowTwo(p.t, Tok(Kind.DataSet), ConfigText.Str(name), Cons(Tok(LBrace), body));
    var t2 := p.t.next.next;
    FollowCons(t2, Tok(LBrace), body);
    FollowBlock(t2.next, DataToks(stmts));
    var t4 := Follow(t2.next, DataToks(stmts)).value;
    DataListParses(stmts, Parse(t2.next, p.g), t4);
    DataNameLast(NEW_DATA_SET, stmts, name, p.g.sys.name);
    var list := Parse(t4, p.g.(dset := DataRecord(NEW_DATA_SET, stmts)));
    DataBlockIs(p, list, DataRecord(NEW_DATA_SET, stmts).(name := name, system := p.g.sys.name));
    q := DataBlock(p).p;
  }

  lemma SystemListStep(e: SystemEntry, p: Parse) returns (r: Parse)
    requires Follow(p.t, SystemEntryToks(e)).Some? && SystemTyped(e) && p.g.dset == NEW_DATA_SET
    ensures SystemList(p) == SystemList(r) && Some(r.t) == Follow(p.t, SystemEntryToks(e))
    ensures match e
      case DataEntry(name, stmts) => r.g == p.g.(added := p.g.added + [DataAdded(name, stmts, p.g)])
      case DescEntry(d) => r.g == p.g.(sys := p.g.sys.(desc := Some(d)))
  {
    match e
    case DataEntry(name, stmts) =>
      var q := DataBlockParses(name, stmts, p);
      r := Parse(Follow(p.t, SystemEntryToks(e)).value, q.g);
    case DescEntry(d) =>
      FollowStmt(p.t, Desc, ConfigText.Str(d));
      r := Parse(p.t.next.next.next, p.g.(sys := p.g.sys.(desc := Some(d))));
  }

  /** A system's data sets, and its name and last description. */
  lemma {:induction false} SystemListParses(es: seq<SystemEntry>, p: Parse, t: Tokens) returns (q: Parse)
    requires Follow(p.t, SystemToks(es)) == Some(t) && t.Token? && t.kind == RBrace
    requires (forall i :: 0 <= i < |es| ==> SystemTyped(es[i])) && p.g.dset == NEW_DATA_SET
    ensures SystemList(p) == Parsed(q) && q.t == t
    ensures q.g == p.g.(sys := q.g.sys, added := q.g.added)
    ensures q.g.added + [AddSystem(q.g.sys)] == p.g.added + SystemRecords(p.g.sys.name, p.g.sys.desc, es)
    decreases |es|
  {
    if es == [] {
      q := p;
    } else {
      FollowConcat(p.t, SystemEntryToks(es[0]), SystemToks(es[1..]));
      var r := SystemListStep(es[0], p);
      q := SystemListParses(es[1..], r, t);
      if es[0].DataEntry? {
        AppendCons(p.g.added, DataAdded(es[0].name, es[0].stmts, p.g),
          SystemRecords(p.g.sys.name, p.g.sys.desc, es[1..]));
      }
    }
  }

  lemma SystemBlockParses(name: string, es: seq<SystemEntry>, p: Parse)
    requires Follow(p.t, TopToks(SystemSection(name, es))).Some? && TopTyped(SystemSection(name, es)) && Fresh(p.g)
    ensures SystemBlock(p).Parsed? && Peek(p) == Kind.System
    ensures var q := SystemBlock(p).p;
      && q.g == p.g.(added := p.g.added + SystemRecords(name, None, es))
      && Want(q, Semi) == Parsed(Parse(Follow(p.t, TopToks(SystemSection(name, es))).value, q.g))
  {
    var body := SystemToks(es) + Cons(Tok(RBrace), [Tok(Semi)]);
    FollowTwo(p.t, Tok(Kind.System), ConfigText.Str(name), Cons(Tok(LBrace), body));
    var t2 := p.t.next.next;
    FollowCons(t2, Tok(LBrace), body);
    FollowBlock(t2.next, SystemToks(es));
    var g := p.g.(sys := p.g.sys.(name := name));
    var q := SystemListParses(es, Parse(t2.next, g), Follow(t2.next, SystemToks(es)).value);
  }

  // ---------------------------------------------------------------- the file

  lemma TopListStep(e: TopEntry, p: Parse) returns (r: Parse)
    requires Follow(p.t, TopToks(e)).Some? && TopTyped(e) && SectionValued(e) && Fresh(p.g)
    ensures TopList(p) == TopList(r) && Some(r.t) == Follow(p.t, TopToks(e)) && Fresh(r.g)
    ensures r.g == p.g.(added := p.g.added + TopRecords(e))
  {
    r := Parse(Follow(p.t, TopToks(e)).value, p.g.(added := p.g.added + TopRecords(e)));
    match e
    case GlobalSection(es) => GlobalBlockParses(es, p);
    case SystemSection(name, es) => SystemBlockParses(name, es, p);
  }

  /** The tokens of a configuration, read to the end, make the records it means. */
  lemma {:induction false} TopListParses(config: seq<TopEntry>, p: Parse, t: Tokens)
    requires Follow(p.t, Toks(config)) == Some(t) && t.End?
    requires Typed(config) && AllValued(config) && Fresh(p.g)
    ensures TopList(p) == Parsed(Parse(t, p.g.(added := p.g.added + Records(config))))
    decreases |config|
  {
    if config == [] {
      assert p.g.added + [] == p.g.added;
    } else {
      ToksFront(config, p.t);
      assert TopTyped(config[0]) && SectionValued(config[0]);
      var r := TopListStep(config[0], p);
      TopListParses(config[1..], r, t);
      ConcatAssociates(p.g.added, TopRecords(config[0]), Records(config[1..]));
    }
  }

  // ---------------------------------------------------------------- instances without values

  lemma EmptyInstance(e: GlobalEntry, p: Parse)
    requires Follow(p.t, GlobalEntryToks(e)).Some? && !Valued(e) && Fresh(p.g)
    ensures Peek(p) in {Plugin, Storage, Sensor} && GlobalItem(p) == NullValues
  {
    match e
    case StorageEntry(name, plugin, _) =>
      InstanceWithoutValues(Storage, name, plugin, p);
      var t4, t6 := FollowInstance(Storage, name, plugin, [], p.t);
    case SensorEntry(name, plugin, _) =>
      InstanceWithoutValues(Sensor, name, plugin, p);
      var t4, t6 := FollowInstance(Sensor, name, plugin, [], p.t);
  }

  lemma GlobalListStops(e: GlobalEntry, p: Parse)
    requires Follow(p.t, GlobalEntryToks(e)).Some? && !Valued(e) && Fresh(p.g)
    ensures GlobalList(p) == NullValues
  {
    EmptyInstance(e, p);
  }

  lemma RestUnvalued(es: seq<GlobalEntry>)
    requires TopTyped(GlobalSection(es)) && !SectionValued(GlobalSection(es))
    ensures es != [] && GlobalTyped(es[0]) && TopTyped(GlobalSection(es[1..]))
    ensures Valued(es[0]) ==> !SectionValued(GlobalSection(es[1..]))
  {
    var i :| 0 <= i < |es| && !Valued(es[i]);
    assert i > 0 ==> es[1..][i - 1] == es[i];
  }

  lemma {:induction false} GlobalListEnds(es: seq<GlobalEntry>, p: Parse)
    requires Follow(p.t, GlobalToks(es)).Some? && TopTyped(GlobalSection(es)) && !SectionValued(GlobalSection(es))
    requires Fresh(p.g)
    ensures GlobalList(p) == NullValues
    decreases |es|
  {
    RestUnvalued(es);
    GlobalToksFront(es, p.t);
    if Valued(es[0]) {
      var r := GlobalListStep(es[0], p);
      GlobalListEnds(es[1..], r);
    } else {
      GlobalListStops(es[0], p);
    }
  }

  lemma GlobalToksFront(es: seq<GlobalEntry>, ts: Tokens)
    requires Follow(ts, GlobalToks(es)).Some? && es != []
    ensures Follow(ts, GlobalEntryToks(es[0])).Some?
    ensures Follow(ts, GlobalToks(es)) == Follow(Follow(ts, GlobalEntryToks(es[0])).value, GlobalToks(es[1..]))
  {
    FollowConcat(ts, GlobalEntryToks(es[0]), GlobalToks(es[1..]));
  }

  lemma GlobalBlockEnds(es: seq<GlobalEntry>, p: Parse)
    requires Follow(p.t, TopToks(GlobalSection(es))).Some? && TopTyped(GlobalSection(es))
    requires !SectionValued(GlobalSection(es)) && Fresh(p.g)
    ensures GlobalBlock(p) == NullValues && Peek(p) == Global
  {
    FollowTwo(p.t, Tok(Global), Tok(LBrace), GlobalToks(es) + Cons(Tok(RBrace), [Tok(Semi)]));
    var t2 := p.t.next.next;
    FollowBlock(t2, GlobalToks(es));
    GlobalListEnds(es, Parse(t2, p.g));
  }

  lemma ToksFront(config: seq<TopEntry>, ts: Tokens)
    requires Follow(ts, Toks(config)).Some? && config != []
    ensures Follow(ts, TopToks(config[0])).Some?
    ensures Follow(ts, Toks(config)) == Follow(Follow(ts, TopToks(config[0])).value, Toks(config[1..]))
  {
    FollowConcat(ts, TopToks(config[0]), Toks(config[1..]));
  }

  lemma TopListStops(e: TopEntry, p: Parse)
    requires Follow(p.t, TopToks(e)).Some? && TopTyped(e) && !SectionValued(e) && Fresh(p.g)
    ensures TopList(p) == NullValues
  {
    GlobalBlockEnds(e.globals, p);
  }

  lemma RestUnvaluedSections(config: seq<TopEntry>)
    requires Typed(config) && !AllValued(config)
    ensures config != [] && TopTyped(config[0]) && Typed(config[1..])
    ensures SectionValued(config[0]) ==> !AllValued(config[1..])
  {
    var i :| 0 <= i < |config| && !SectionValued(config[i]);
    assert i > 0 ==> config[1..][i - 1] == config[i];
  }

  /** With an instance without values somewhere, the tokens end the process. */
  lemma {:induction false} TopListEnds(config: seq<TopEntry>, p: Parse)
    requires Follow(p.t, Toks(config)).Some? && Typed(config) && !AllValued(config) && Fresh(p.g)
    ensures TopList(p) == NullValues
    decreases |config|
  {
    RestUnvaluedSections(config);
    ToksFront(config, p.t);
    if SectionValued(config[0]) {
      var r := TopListStep(config[0], p);
      TopListEnds(config[1..], r);
    } else {
      TopListStops(config[0], p);
    }
  }
}
