/** The configuration parser, src/plugins/config/file_parser.y.

Each nonterminal is a function on the state of the parse: what the scanner will answer, and the
structures that the actions share.  A token is looked at before it is taken; push_generic runs
when the left brace has been taken and nothing after it has been looked at.
 */
module Parser {
  import opened Wrappers
  import opened ConfigFile
  import opened L = Lexer

  /** All that the scanner may still answer: no token, or a token and what follows it, without
  push_generic and, after a left brace, with it. */
  datatype Tokens = End(at: Scanner) | Token(kind: Kind, val: string, next: Tokens, pushed: Tokens)

  function Ahead(s: Scanner): Tokens
    decreases |s.rest|
  {
    var (kind, next) := Yylex(s);
    if kind == Eof then End(next)
    else
      var after := Ahead(next);
      Tokens.Token(kind, next.val, after, if kind == LBrace then Ahead(PushGeneric(next)) else after)
  }

  /** The structures of the actions, and the add_* calls made so far. */
  datatype Globals = Globals(plugin: GlobalPlugin, values: seq<(string, string)>, dset: ConfigFile.DataSet,
                             sys: ConfigFile.System, added: seq<Added>)

  datatype Parse = Parse(t: Tokens, g: Globals)

  /** yyparse fails on a syntax error.  Adding a storage or sensor that has no values follows a
  null pointer. */
  datatype Outcome =
    | Parsed(p: Parse)
    | SyntaxError
    | NullValues
  {
    predicate IsFailure() { !Parsed? }

    function PropagateFailure(): Outcome
      requires IsFailure()
    {
      this
    }

    function Extract(): Parse
      requires !IsFailure()
    {
      p
    }
  }

  function Peek(p: Parse): Kind {
    if p.t.End? then Eof else p.t.kind
  }

  /** The text of the token ahead. */
  function Val(p: Parse): string {
    if p.t.End? then "" else p.t.val
  }

  /** Take the token ahead if it is one of these. */
  function WantOf(p: Parse, ks: set<Kind>): (o: Outcome)
    ensures !o.NullValues?
    ensures o.Parsed? ==> p.t.Token? && p.t.kind in ks && o.p == Parse(p.t.next, p.g) && o.p.t < p.t
  {
    if p.t.Token? && p.t.kind in ks then Parsed(Parse(p.t.next, p.g)) else SyntaxError
  }

  function Want(p: Parse, k: Kind): (o: Outcome)
    ensures !o.NullValues?
    ensures o.Parsed? ==> p.t.Token? && p.t.kind == k && o.p == Parse(p.t.next, p.g) && o.p.t < p.t
  {
    WantOf(p, {k})
  }

  /** Take the left brace ahead and call push_generic. */
  function WantGeneric(p: Parse): (o: Outcome)
    ensures !o.NullValues?
    ensures o.Parsed? ==> p.t.Token? && p.t.kind == LBrace && o.p == Parse(p.t.pushed, p.g) && o.p.t < p.t
  {
    if p.t.Token? && p.t.kind == LBrace then Parsed(Parse(p.t.pushed, p.g)) else SyntaxError
  }

  // ---------------------------------------------------------------- the global block

  function PluginTypeOf(k: Kind): PluginType {
    if k == Storage then PStorage
    else if k == Sensor then PSensor
    else if k == Proto then PProto
    else PAuth
  }

  /** ptype_stmt and file_stmt. */
  function PluginItem(p: Parse): (o: Outcome)
    ensures !o.NullValues?
    ensures o.Parsed? ==> o.p.t < p.t
  {
    if Peek(p) == Type then
      var p1 :- Want(p, Type);
      var p2 :- WantOf(p1, {Storage, Sensor, Proto, Auth});
      Parsed(p2.(g := p2.g.(plugin := p2.g.plugin.(ptype := PluginTypeOf(Peek(p1))))))
    else
      var p1 :- Want(p, File);
      var p2 :- Want(p1, Text);
      Parsed(p2.(g := p2.g.(plugin := p2.g.plugin.(file := Some(Val(p1))))))
  }

  function PluginList(p: Parse): (o: Outcome)
    ensures !o.NullValues?
    ensures o.Parsed? ==> o.p.t == p.t || o.p.t < p.t
    decreases p.t
  {
    if Peek(p) == Type || Peek(p) == File then
      var p1 :- PluginItem(p);
      var p2 :- Want(p1, Semi);
      PluginList(p2)
    else Parsed(p)
  }

  function PluginBlock(p: Parse): (o: Outcome)
    ensures !o.NullValues?
    ensures o.Parsed? ==> o.p.t < p.t
  {
    var p1 :- Want(p, Plugin);
    var p2 :- Want(p1, Text);
    var name := Val(p1);
    var p3 :- Want(p2, LBrace);
    var p4 :- PluginList(p3);
    var p5 :- Want(p4, RBrace);
    Parsed(p5.(g := p5.g.(plugin := NEW_PLUGIN, added := p5.g.added + [AddPlugin(p5.g.plugin.(name := name))])))
  }

  /** generic_list: the values of a storage or sensor, up to the first token that is no word. */
  function GenericList(p: Parse): (o: Outcome)
    ensures !o.NullValues?
    ensures o.Parsed? ==> o.p.t == p.t || o.p.t < p.t
    decreases p.t
  {
    if Peek(p) == Word then
      var p1 :- Want(p, Word);
      var p2 :- WantOf(p1, {Text, Number, Yes, No});
      var p3 :- Want(p2, Semi);
      GenericList(p3.(g := p3.g.(values := p3.g.values + [(Val(p), Val(p1))])))
    else Parsed(p)
  }

  /** storage_block and sensor_block. */
  function InstanceBlock(p: Parse, k: Kind): (o: Outcome)
    requires k == Storage || k == Sensor
    ensures o.Parsed? ==> o.p.t < p.t
  {
    var p1 :- Want(p, k);
    var p2 :- Want(p1, Text);
    var p3 :- Want(p2, Type);
    var p4 :- Want(p3, Text);
    var p5 :- WantGeneric(p4);
    var p6 :- GenericList(p5);
    if p6.g.values == [] then NullValues
    else
      var inst := Instance(Val(p1), Val(p3), p6.g.values);
      var add := if k == Storage then AddStorage(inst) else AddSensor(inst);
      Parsed(p6.(g := p6.g.(values := [], added := p6.g.added + [add])))
  }

  function GlobalItem(p: Parse): (o: Outcome)
    ensures o.Parsed? ==> o.p.t < p.t
  {
    if Peek(p) == Plugin then PluginBlock(p)
    else if Peek(p) == Storage then InstanceBlock(p, Storage)
    else InstanceBlock(p, Sensor)
  }

  function GlobalList(p: Parse): (o: Outcome)
    ensures o.Parsed? ==> o.p.t == p.t || o.p.t < p.t
    decreases p.t
  {
    if Peek(p) in {Plugin, Storage, Sensor} then
      var p1 :- GlobalItem(p);
      var p2 :- Want(p1, Semi);
      GlobalList(p2)
    else Parsed(p)
  }

  function GlobalBlock(p: Parse): (o: Outcome)
    ensures o.Parsed? ==> o.p.t < p.t
  {
    var p1 :- Want(p, Global);
    var p2 :- Want(p1, LBrace);
    var p3 :- GlobalList(p2);
    Want(p3, RBrace)
  }

  // ---------------------------------------------------------------- system blocks

  function DataTypeOf(k: Kind): DataType {
    if k == Counter then DCounter
    else if k == Derive then DDerive
    else if k == Absolute then DAbsolute
    else DGauge
  }

  function ConsolidationOf(k: Kind): Consolidation {
    if k == Average then CAverage
    else if k == Min then CMin
    else if k == Max then CMax
    else CLast
  }

  function SetData(p: Parse, d: ConfigFile.DataSet): Parse {
    p.(g := p.g.(dset := d))
  }

  function DataItem(p: Parse): (o: Outcome)
    ensures !o.NullValues?
    ensures o.Parsed? ==> o.p.t < p.t
  {
    var d := p.g.dset;
    if Peek(p) == Type then
      var p1 :- Want(p, Type);
      var p2 :- WantOf(p1, {Counter, Derive, Absolute, Gauge});
      Parsed(SetData(p2, d.(dtype := DataTypeOf(Peek(p1)))))
    else if Peek(p) == Cf then
      var p1 :- Want(p, Cf);
      var p2 :- WantOf(p1, {Average, Min, Max, Last});
      Parsed(SetData(p2, d.(cf := ConsolidationOf(Peek(p1)))))
    else if Peek(p) == Sensor then
      var p1 :- Want(p, Sensor);
      var p2 :- Want(p1, Text);
      Parsed(SetData(p2, d.(sensor := Some(Val(p1)))))
    else if Peek(p) == Storage then
      var p1 :- Want(p, Storage);
      var p2 :- Want(p1, Text);
      Parsed(SetData(p2, d.(storage := Some(Val(p1)))))
    else
      var p1 :- Want(p, Desc);
      var p2 :- Want(p1, Text);
      Parsed(SetData(p2, d.(desc := Some(Val(p1)))))
  }

  function DataList(p: Parse): (o: Outcome)
    ensures !o.NullValues?
    ensures o.Parsed? ==> o.p.t == p.t || o.p.t < p.t
    decreases p.t
  {
    if Peek(p) in {Type, Cf, Sensor, Storage, Desc} then
      var p1 :- DataItem(p);
      var p2 :- Want(p1, Semi);
      DataList(p2)
    else Parsed(p)
  }

  function DataBlock(p: Parse): (o: Outcome)
    ensures !o.NullValues?
    ensures o.Parsed? ==> o.p.t < p.t
  {
    var p1 :- Want(p, Kind.DataSet);
    var p2 :- Want(p1, Text);
    var p3 :- Want(p2, LBrace);
    var p4 :- DataList(p3);
    var p5 :- Want(p4, RBrace);
    var d := p5.g.dset.(name := Val(p1), system := p5.g.sys.name);
    Parsed(p5.(g := p5.g.(dset := NEW_DATA_SET, added := p5.g.added + [AddDataSet(d)])))
  }

  function SystemItem(p: Parse): (o: Outcome)
    ensures !o.NullValues?
    ensures o.Parsed? ==> o.p.t < p.t
  {
    if Peek(p) == Kind.DataSet then DataBlock(p)
    else
      var p1 :- Want(p, Desc);
      var p2 :- Want(p1, Text);
      Parsed(p2.(g := p2.g.(sys := p2.g.sys.(desc := Some(Val(p1))))))
  }

  function SystemList(p: Parse): (o: Outcome)
    ensures !o.NullValues?
    ensures o.Parsed? ==> o.p.t == p.t || o.p.t < p.t
    decreases p.t
  {
    if Peek(p) == Kind.DataSet || Peek(p) == Desc then
      var p1 :- SystemItem(p);
      var p2 :- Want(p1, Semi);
      SystemList(p2)
    else Parsed(p)
  }

  function SystemBlock(p: Parse): (o: Outcome)
    ensures !o.NullValues?
    ensures o.Parsed? ==> o.p.t < p.t
  {
    var p1 :- Want(p, Kind.System);
    var p2 :- Want(p1, Text);
    var p3 :- Want(p2.(g := p2.g.(sys := p2.g.sys.(name := Val(p1)))), LBrace);
    var p4 :- SystemList(p3);
    var p5 :- Want(p4, RBrace);
    Parsed(p5.(g := p5.g.(sys := NEW_SYSTEM, added := p5.g.added + [AddSystem(p5.g.sys)])))
  }

  // ---------------------------------------------------------------- the file

  function TopItem(p: Parse): (o: Outcome)
    ensures o.Parsed? ==> o.p.t < p.t
  {
    if Peek(p) == Global then GlobalBlock(p) else SystemBlock(p)
  }

  function TopList(p: Parse): (o: Outcome)
    decreases p.t
  {
    if p.t.End? then Parsed(p)
    else
      var p1 :- TopItem(p);
      var p2 :- Want(p1, Semi);
      TopList(p2)
  }

  const NEW_GLOBALS := Globals(NEW_PLUGIN, [], NEW_DATA_SET, NEW_SYSTEM, [])

  /** begin_parse. */
  function ParseText(text: string): Outcome {
    TopList(Parse(Ahead(Start(text)), NEW_GLOBALS))
  }

  // ---------------------------------------------------------------- every accepted file

  /** The new calls since before, each of which is as wanted. */
  ghost predicate Grows(before: seq<Added>, after: seq<Added>, wanted: Added -> bool) {
    before <= after && forall i :: |before| <= i < |after| ==> wanted(after[i])
  }

  function NoDataSet(a: Added): bool {
    !a.AddDataSet?
  }

  lemma {:induction false} PluginListKeeps(p: Parse)
    ensures PluginList(p).Parsed? ==> PluginList(p).p.g == p.g.(plugin := PluginList(p).p.g.plugin)
    decreases p.t
  {
    if (Peek(p) == Type || Peek(p) == File) && PluginItem(p).Parsed? && Want(PluginItem(p).p, Semi).Parsed? {
      PluginListKeeps(Want(PluginItem(p).p, Semi).p);
    }
  }

  lemma {:induction false} GenericListKeeps(p: Parse)
    ensures GenericList(p).Parsed? ==> GenericList(p).p.g == p.g.(values := GenericList(p).p.g.values)
    decreases p.t
  {
    if GenericList(p).Parsed? && Peek(p) == Word {
      var p3 := Want(WantOf(Want(p, Word).p, {Text, Number, Yes, No}).p, Semi).p;
      GenericListKeeps(p3.(g := p3.g.(values := p3.g.values + [(Val(p), Val(Want(p, Word).p))])));
    }
  }

  lemma DataItemKeeps(p: Parse)
    ensures DataItem(p).Parsed? ==> DataItem(p).p.g == p.g.(dset := DataItem(p).p.g.dset)
  {
  }

  lemma DataListUnfolds(p: Parse, q: Parse)
    requires Peek(p) in {Type, Cf, Sensor, Storage, Desc}
    requires DataItem(p).Parsed? && Want(DataItem(p).p, Semi) == Parsed(q)
    ensures DataList(p) == DataList(q)
  {
  }

  lemma {:induction false} DataListKeeps(p: Parse)
    ensures DataList(p).Parsed? ==> DataList(p).p.g == p.g.(dset := DataList(p).p.g.dset)
    decreases p.t
  {
    if Peek(p) in {Type, Cf, Sensor, Storage, Desc} && DataItem(p).Parsed? && Want(DataItem(p).p, Semi).Parsed? {
      var q := Want(DataItem(p).p, Semi).p;
      DataItemKeeps(p);
      DataListUnfolds(p, q);
      DataListKeeps(q);
    }
  }

  /** The list inside a block, and what is left after its brace. */
  lemma PluginBlockUnfolds(p: Parse) returns (list: Parse)
    requires PluginBlock(p).Parsed?
    ensures PluginList(Parse(list.t, p.g)).Parsed?
    ensures var g := PluginList(Parse(list.t, p.g)).p.g;
      exists x :: PluginBlock(p).p.g == g.(plugin := NEW_PLUGIN, added := g.added + [AddPlugin(x)])
  {
    list := Want(Want(Want(p, Plugin).p, Text).p, LBrace).p;
    var g := PluginList(list).p.g;
    var x := g.plugin.(name := Val(Want(p, Plugin).p));
    assert PluginBlock(p).p.g == g.(plugin := NEW_PLUGIN, added := g.added + [AddPlugin(x)]);
  }

  lemma PluginBlockGrows(p: Parse)
    requires PluginBlock(p).Parsed?
    ensures Grows(p.g.added, PluginBlock(p).p.g.added, NoDataSet) && PluginBlock(p).p.g.sys == p.g.sys
  {
    var list := PluginBlockUnfolds(p);
    PluginListKeeps(Parse(list.t, p.g));
  }

  lemma InstanceBlockGrows(p: Parse, k: Kind)
    requires (k == Storage || k == Sensor) && InstanceBlock(p, k).Parsed?
    ensures Grows(p.g.added, InstanceBlock(p, k).p.g.added, NoDataSet) && InstanceBlock(p, k).p.g.sys == p.g.sys
  {
    GenericListKeeps(WantGeneric(Want(Want(Want(Want(p, k).p, Text).p, Type).p, Text).p).p);
  }

  lemma GlobalItemGrows(p: Parse)
    requires GlobalItem(p).Parsed?
    ensures Grows(p.g.added, GlobalItem(p).p.g.added, NoDataSet) && GlobalItem(p).p.g.sys == p.g.sys
  {
    if Peek(p) == Plugin {
      PluginBlockGrows(p);
    } else {
      InstanceBlockGrows(p, if Peek(p) == Storage then Storage else Sensor);
    }
  }

  lemma {:induction false} GlobalListGrows(p: Parse)
    ensures GlobalList(p).Parsed? ==>
      Grows(p.g.added, GlobalList(p).p.g.added, NoDataSet) && GlobalList(p).p.g.sys == p.g.sys
    decreases p.t
  {
    if GlobalList(p).Parsed? && Peek(p) in {Plugin, Storage, Sensor} {
      GlobalItemGrows(p);
      GlobalListGrows(Want(GlobalItem(p).p, Semi).p);
    }
  }

  predicate DataSetOf(name: string, a: Added) {
    a.AddDataSet? && a.dset.system == name
  }

  /** An item of a system block adds nothing but data sets of that system. */
  ghost predicate KeepsSystem(p: Parse, o: Outcome) {
    o.Parsed? ==>
      && o.p.g.sys.name == p.g.sys.name && p.g.added <= o.p.g.added
      && forall i :: |p.g.added| <= i < |o.p.g.added| ==> DataSetOf(p.g.sys.name, o.p.g.added[i])
  }

  lemma DataBlockKeeps(p: Parse)
    ensures KeepsSystem(p, DataBlock(p))
  {
    if DataBlock(p).Parsed? {
      var p3 := Want(Want(Want(p, Kind.DataSet).p, Text).p, LBrace).p;
      DataListKeeps(p3);
      assert DataList(p3).p.g.sys == p.g.sys && DataList(p3).p.g.added == p.g.added;
    }
  }

  lemma SystemItemKeeps(p: Parse)
    ensures KeepsSystem(p, SystemItem(p))
  {
    if Peek(p) == Kind.DataSet {
      DataBlockKeeps(p);
    }
  }

  lemma {:induction false} SystemListKeeps(p: Parse)
    ensures KeepsSystem(p, SystemList(p))
    decreases p.t
  {
    if SystemList(p).Parsed? && (Peek(p) == Kind.DataSet || Peek(p) == Desc) {
      SystemItemKeeps(p);
      SystemListKeeps(Want(SystemItem(p).p, Semi).p);
    }
  }

  /** Every data set carries the name of a system that is added after it. */
  ghost predicate Enclosed(added: seq<Added>) {
    forall i :: 0 <= i < |added| && added[i].AddDataSet? ==>
      exists j :: i < j < |added| && added[j].AddSystem? && added[j].system.name == added[i].dset.system
  }

  /** The list inside a system block, read with the system's name set. */
  lemma SystemBlockUnfolds(p: Parse) returns (list: Parse)
    requires SystemBlock(p).Parsed?
    ensures list.g.added == p.g.added && SystemList(list).Parsed?
    ensures SystemBlock(p).p.g.added == SystemList(list).p.g.added + [AddSystem(SystemList(list).p.g.sys)]
  {
    var p2 := Want(Want(p, Kind.System).p, Text).p;
    list := Want(p2.(g := p2.g.(sys := p2.g.sys.(name := Val(Want(p, Kind.System).p)))), LBrace).p;
  }

  lemma SystemBlockEncloses(p: Parse)
    requires SystemBlock(p).Parsed? && Enclosed(p.g.added)
    ensures Enclosed(SystemBlock(p).p.g.added)
  {
    var list := SystemBlockUnfolds(p);
    SystemListKeeps(list);
    EnclosedBySystem(p.g.added, SystemList(list).p.g.added, SystemList(list).p.g.sys);
  }

  lemma EnclosedBySystem(before: seq<Added>, list: seq<Added>, sys: ConfigFile.System)
    requires Enclosed(before) && before <= list
    requires forall i :: |before| <= i < |list| ==> DataSetOf(sys.name, list[i])
    ensures Enclosed(list + [AddSystem(sys)])
  {
    var all := list + [AddSystem(sys)];
    forall i | 0 <= i < |all| && all[i].AddDataSet?
      ensures exists j :: i < j < |all| && all[j].AddSystem? && all[j].system.name == all[i].dset.system
    {
      if i < |before| {
        assert all[i] == before[i];
        var j :| i < j < |before| && before[j].AddSystem? && before[j].system.name == before[i].dset.system;
        assert all[j] == before[j];
      } else {
        assert DataSetOf(sys.name, list[i]) && all[|list|] == AddSystem(sys);
      }
    }
  }

  lemma EnclosedGrows(before: seq<Added>, after: seq<Added>)
    requires Enclosed(before) && Grows(before, after, NoDataSet)
    ensures Enclosed(after)
  {
    forall i | 0 <= i < |after| && after[i].AddDataSet?
      ensures exists j :: i < j < |after| && after[j].AddSystem? && after[j].system.name == after[i].dset.system
    {
      assert i < |before| && after[i] == before[i];
      var j :| i < j < |before| && before[j].AddSystem? && before[j].system.name == before[i].dset.system;
      assert after[j] == before[j];
    }
  }

  lemma GlobalBlockEncloses(p: Parse)
    requires GlobalBlock(p).Parsed? && Enclosed(p.g.added)
    ensures Enclosed(GlobalBlock(p).p.g.added)
  {
    GlobalListGrows(Want(Want(p, Global).p, LBrace).p);
    EnclosedGrows(p.g.added, GlobalBlock(p).p.g.added);
  }

  lemma {:induction false} TopListEncloses(p: Parse)
    requires TopList(p).Parsed? && Enclosed(p.g.added)
    ensures Enclosed(TopList(p).p.g.added)
    decreases p.t
  {
    if p.t.Token? {
      if Peek(p) == Global {
        GlobalBlockEncloses(p);
      } else {
        SystemBlockEncloses(p);
      }
      TopListEncloses(Want(TopItem(p).p, Semi).p);
    }
  }

  /** Whatever the text, if it is accepted, every data set carries the name of a system that
  was added after it. */
  lemma DataSetsAreEnclosed(text: string)
    requires ParseText(text).Parsed?
    ensures Enclosed(ParseText(text).p.g.added)
  {
    TopListEncloses(Parse(Ahead(Start(text)), NEW_GLOBALS));
  }
}
