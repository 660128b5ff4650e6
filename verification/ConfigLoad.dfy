/** config_init of src/plugins/config/file.c: from the text of the configuration file to the
objects of the running configuration and the status that is returned.
 */
module ConfigLoad {
  import opened Wrappers
  import opened ConfigFile
  import opened Linker
  import opened ConfGraph
  import ConfigAccept
  import ConfigLayout
  import ConfigRoundTrip
  import ConfigText
  import L = Lexer
  import Parser

  // ---------------------------------------------------------------- the five lists

  /** What one kind of add_* call appends to its list. */
  function Picked<T>(added: seq<Added>, pick: Added -> Option<T>): seq<T> {
    if added == [] then []
    else
      var n := |added| - 1;
      Picked(added[..n], pick) + match pick(added[n]) case Some(x) => [x] case None => []
  }

  function PluginOf(a: Added): Option<GlobalPlugin> {
    if a.AddPlugin? then Some(a.plugin) else None
  }

  function StorageOf(a: Added): Option<Instance> {
    if a.AddStorage? then Some(a.storage) else None
  }

  function SensorOf(a: Added): Option<Instance> {
    if a.AddSensor? then Some(a.sensor) else None
  }

  function SystemOf(a: Added): Option<System> {
    if a.AddSystem? then Some(a.system) else None
  }

  function DataSetOf(a: Added): Option<DataSet> {
    if a.AddDataSet? then Some(a.dset) else None
  }

  /** The five lists that the calls of the parser fill. */
  function InputOf(added: seq<Added>): Input {
    Input(Picked(added, PluginOf), Picked(added, StorageOf), Picked(added, SensorOf), Picked(added, SystemOf),
          Picked(added, DataSetOf))
  }

  lemma {:induction false} PickedFrom<T>(added: seq<Added>, pick: Added -> Option<T>, x: T)
    requires x in Picked(added, pick)
    ensures exists i :: 0 <= i < |added| && pick(added[i]) == Some(x)
  {
    var n := |added| - 1;
    if pick(added[n]) != Some(x) {
      PickedFrom(added[..n], pick, x);
      var i :| 0 <= i < n && pick(added[..n][i]) == Some(x);
      assert added[i] == added[..n][i];
    }
  }

  lemma {:induction false} PickedAt<T>(added: seq<Added>, pick: Added -> Option<T>, i: nat)
    requires i < |added| && pick(added[i]).Some?
    ensures pick(added[i]).value in Picked(added, pick)
  {
    var n := |added| - 1;
    if i < n {
      assert added[..n][i] == added[i];
      PickedAt(added[..n], pick, i);
    }
  }

  lemma PickedMember<T>(added: seq<Added>, pick: Added -> Option<T>, x: T)
    ensures x in Picked(added, pick) <==> exists i :: 0 <= i < |added| && pick(added[i]) == Some(x)
  {
    if x in Picked(added, pick) { PickedFrom(added, pick, x); }
    if i :| 0 <= i < |added| && pick(added[i]) == Some(x) { PickedAt(added, pick, i); }
  }

  /** Where the calls of a kind stand. */
  function Places<T>(added: seq<Added>, pick: Added -> Option<T>): (at: seq<nat>)
    ensures forall k :: k in at ==> k < |added|
  {
    if added == [] then []
    else
      var n := |added| - 1;
      Places(added[..n], pick) + if pick(added[n]).Some? then [n] else []
  }

  lemma {:induction false} PlacesIncrease<T>(added: seq<Added>, pick: Added -> Option<T>)
    ensures forall a, b :: 0 <= a < b < |Places(added, pick)| ==> Places(added, pick)[a] < Places(added, pick)[b]
    ensures forall k: nat :: k in Places(added, pick) <==> k < |added| && pick(added[k]).Some?
  {
    if added != [] {
      var n := |added| - 1;
      PlacesIncrease(added[..n], pick);
      assert forall k :: 0 <= k < n ==> added[..n][k] == added[k];
      var at := Places(added[..n], pick);
      forall a | 0 <= a < |at|
        ensures at[a] < n
      {
        assert at[a] in at;
      }
    }
  }

  /** Each list holds what the calls of its kind were given, in the order of the calls. */
  lemma {:induction false} PickedInOrder<T>(added: seq<Added>, pick: Added -> Option<T>)
    ensures |Places(added, pick)| == |Picked(added, pick)|
    ensures forall a :: 0 <= a < |Places(added, pick)| ==>
      Places(added, pick)[a] in Places(added, pick) && pick(added[Places(added, pick)[a]]) == Some(Picked(added, pick)[a])
  {
    if added != [] {
      var n := |added| - 1;
      var at := Places(added[..n], pick);
      PickedInOrder(added[..n], pick);
      forall a | 0 <= a < |at|
        ensures at[a] < n && added[at[a]] == added[..n][at[a]]
      {
        assert at[a] in at;
      }
    }
  }

  lemma PickedNext<T>(added: seq<Added>, a: Added, pick: Added -> Option<T>)
    ensures Picked(added + [a], pick) == Picked(added, pick) + match pick(a) case Some(x) => [x] case None => []
  {
    assert (added + [a])[..|added|] == added;
  }

  /** Each list holds what its calls were given. */
  lemma Members(added: seq<Added>)
    ensures var input := InputOf(added);
      && (forall p :: p in input.plugins <==> AddPlugin(p) in added)
      && (forall s :: s in input.storages <==> AddStorage(s) in added)
      && (forall s :: s in input.sensors <==> AddSensor(s) in added)
      && (forall s :: s in input.systems <==> AddSystem(s) in added)
      && (forall d :: d in input.dsets <==> Added.AddDataSet(d) in added)
  {
    forall p: GlobalPlugin { PickedMember(added, PluginOf, p); }
    forall s: Instance { PickedMember(added, StorageOf, s); }
    forall s: Instance { PickedMember(added, SensorOf, s); }
    forall s: System { PickedMember(added, SystemOf, s); }
    forall d: DataSet { PickedMember(added, DataSetOf, d); }
  }

  // ---------------------------------------------------------------- what the status says of the file

  /** A data set or system without a description ends the process. */
  ghost predicate AllDescribed(added: seq<Added>) {
    forall a :: a in added ==> (a.AddSystem? ==> a.system.desc.Some?) && (a.AddDataSet? ==> a.dset.desc.Some?)
  }

  ghost predicate PluginNamed(added: seq<Added>, t: PluginType, ref: string) {
    exists p: GlobalPlugin :: AddPlugin(p) in added && p.ptype == t && NameCopy(p.name) == ref
  }

  ghost predicate StorageNamed(added: seq<Added>, ref: string) {
    exists s: Instance :: AddStorage(s) in added && NameCopy(s.name) == ref
  }

  ghost predicate SensorNamed(added: seq<Added>, ref: string) {
    exists s: Instance :: AddSensor(s) in added && NameCopy(s.name) == ref
  }

  /** One definition of a file is complete, and what it refers to is defined somewhere in it. */
  ghost predicate Complete(added: seq<Added>, a: Added) {
    match a
    case AddPlugin(p) => p.file.Some? && p.ptype != PNone
    case AddStorage(s) => PluginNamed(added, PStorage, s.plugin)
    case AddSensor(s) => PluginNamed(added, PSensor, s.plugin)
    case AddSystem(_) => true
    case AddDataSet(d) =>
      && d.dtype != DNone && |d.system| < NAME_LEN
      && (d.sensor.Some? ==> SensorNamed(added, d.sensor.value))
      && d.storage.Some? && StorageNamed(added, d.storage.value)
  }

  ghost predicate AllComplete(added: seq<Added>) {
    forall a :: a in added ==> Complete(added, a)
  }

  lemma PluginNamedHas(added: seq<Added>, t: PluginType, ref: string)
    ensures PluginNamed(added, t, ref) <==> HasPlugin(InputOf(added).plugins, t, ref)
  {
    Members(added);
    var ps := InputOf(added).plugins;
    if p: GlobalPlugin :| AddPlugin(p) in added && p.ptype == t && NameCopy(p.name) == ref {
      var i :| 0 <= i < |ps| && ps[i] == p;
    }
    if i :| 0 <= i < |ps| && ps[i].ptype == t && NameCopy(ps[i].name) == ref {
      assert ps[i] in ps;
    }
  }

  lemma StorageNamedHas(added: seq<Added>, ref: string)
    ensures StorageNamed(added, ref) <==> HasRecord(InputOf(added).storages, ref)
  {
    Members(added);
    var fs := InputOf(added).storages;
    if s: Instance :| AddStorage(s) in added && NameCopy(s.name) == ref {
      var i :| 0 <= i < |fs| && fs[i] == s;
    }
    if i :| 0 <= i < |fs| && NameCopy(fs[i].name) == ref {
      assert fs[i] in fs;
    }
  }

  lemma SensorNamedHas(added: seq<Added>, ref: string)
    ensures SensorNamed(added, ref) <==> HasRecord(InputOf(added).sensors, ref)
  {
    Members(added);
    var fs := InputOf(added).sensors;
    if s: Instance :| AddSensor(s) in added && NameCopy(s.name) == ref {
      var i :| 0 <= i < |fs| && fs[i] == s;
    }
    if i :| 0 <= i < |fs| && NameCopy(fs[i].name) == ref {
      assert fs[i] in fs;
    }
  }

  /** A data set of an accepted file finds its system exactly if the name is not too long. */
  lemma SystemRecorded(added: seq<Added>, f: DataSet)
    requires Parser.Enclosed(added) && Added.AddDataSet(f) in added
    ensures HasSystemRecord(InputOf(added).systems, f.system) <==> |f.system| < NAME_LEN
  {
    Members(added);
    var i :| 0 <= i < |added| && added[i] == Added.AddDataSet(f);
    var j :| i < j < |added| && added[j].AddSystem? && added[j].system.name == f.system;
    var systems := InputOf(added).systems;
    assert added[j] == AddSystem(added[j].system);
    var k :| 0 <= k < |systems| && systems[k] == added[j].system;
    assert |f.system| < NAME_LEN ==> NameCopy(systems[k].name) == f.system;
  }

  lemma CompleteMeans(added: seq<Added>, a: Added)
    requires Parser.Enclosed(added) && a in added
    ensures var input := InputOf(added);
      Complete(added, a) <==>
      match a
      case AddPlugin(p) => PluginOk(p)
      case AddStorage(s) => HasPlugin(input.plugins, PStorage, s.plugin)
      case AddSensor(s) => HasPlugin(input.plugins, PSensor, s.plugin)
      case AddSystem(_) => true
      case AddDataSet(d) => DataSetResolvable(input, d)
  {
    match a
    case AddPlugin(p) =>
    case AddStorage(s) => PluginNamedHas(added, PStorage, s.plugin);
    case AddSensor(s) => PluginNamedHas(added, PSensor, s.plugin);
    case AddSystem(_) =>
    case AddDataSet(d) =>
      SystemRecorded(added, d);
      if d.sensor.Some? { SensorNamedHas(added, d.sensor.value); }
      if d.storage.Some? { StorageNamedHas(added, d.storage.value); }
  }

  lemma ResolvesAll(added: seq<Added>)
    requires Parser.Enclosed(added) && AllComplete(added)
    ensures Resolvable(InputOf(added))
  {
    Members(added);
    var input := InputOf(added);
    forall i | 0 <= i < |input.plugins|
      ensures PluginOk(input.plugins[i])
    {
      assert input.plugins[i] in input.plugins && AddPlugin(input.plugins[i]) in added;
    }
    forall i | 0 <= i < |input.storages|
      ensures HasPlugin(input.plugins, PStorage, input.storages[i].plugin)
    {
      assert input.storages[i] in input.storages;
      CompleteMeans(added, AddStorage(input.storages[i]));
    }
    forall i | 0 <= i < |input.sensors|
      ensures HasPlugin(input.plugins, PSensor, input.sensors[i].plugin)
    {
      assert input.sensors[i] in input.sensors;
      CompleteMeans(added, AddSensor(input.sensors[i]));
    }
    forall i | 0 <= i < |input.dsets|
      ensures DataSetResolvable(input, input.dsets[i])
    {
      assert input.dsets[i] in input.dsets;
      CompleteMeans(added, Added.AddDataSet(input.dsets[i]));
    }
  }

  lemma ResolvesOne(added: seq<Added>, a: Added)
    requires Parser.Enclosed(added) && a in added && Resolvable(InputOf(added))
    ensures Complete(added, a)
  {
    Members(added);
    var input := InputOf(added);
    CompleteMeans(added, a);
    match a
    case AddPlugin(p) => var i :| 0 <= i < |input.plugins| && input.plugins[i] == p;
    case AddStorage(s) => var i :| 0 <= i < |input.storages| && input.storages[i] == s;
    case AddSensor(s) => var i :| 0 <= i < |input.sensors| && input.sensors[i] == s;
    case AddSystem(_) =>
    case AddDataSet(d) => var i :| 0 <= i < |input.dsets| && input.dsets[i] == d;
  }

  /** What create_conf can resolve, in terms of the definitions in the file, in whatever order. */
  lemma ResolvableMeans(added: seq<Added>)
    requires Parser.Enclosed(added)
    ensures Resolvable(InputOf(added)) <==> AllComplete(added)
  {
    if AllComplete(added) {
      ResolvesAll(added);
    }
    if Resolvable(InputOf(added)) {
      forall a | a in added
        ensures Complete(added, a)
      {
        ResolvesOne(added, a);
      }
    }
  }

  lemma DescribedMeans(added: seq<Added>)
    ensures SystemsDescribed(InputOf(added).systems) && Described(InputOf(added).dsets) <==> AllDescribed(added)
  {
    Members(added);
    var input := InputOf(added);
    if AllDescribed(added) {
      forall i | 0 <= i < |input.systems|
        ensures input.systems[i].desc.Some?
      {
        assert input.systems[i] in input.systems && AddSystem(input.systems[i]) in added;
      }
      forall i | 0 <= i < |input.dsets|
        ensures input.dsets[i].desc.Some?
      {
        assert input.dsets[i] in input.dsets && Added.AddDataSet(input.dsets[i]) in added;
      }
    }
    if SystemsDescribed(input.systems) && Described(input.dsets) {
      forall a | a in added
        ensures (a.AddSystem? ==> a.system.desc.Some?) && (a.AddDataSet? ==> a.dset.desc.Some?)
      {
        if a.AddSystem? { var i :| 0 <= i < |input.systems| && input.systems[i] == a.system; }
        if a.AddDataSet? { var i :| 0 <= i < |input.dsets| && input.dsets[i] == a.dset; }
      }
    }
  }

  // ---------------------------------------------------------------- config_init

  /** Either the process ends on a null pointer, or config_init returns a status. */
  datatype Loaded = Ended | Returned(code: int)

  /** What the text of a configuration file comes to. */
  ghost function Load(text: string): Loaded {
    match Parser.ParseText(text)
    case SyntaxError => Returned(-1)
    case NullValues => Ended
    case Parsed(p) =>
      if !AllDescribed(p.g.added) then Ended else Returned(if AllComplete(p.g.added) then 0 else -1)
  }

  /** config_init, from the opened file on. */
  method ConfigInit(text: string) returns (r: Loaded, c: Conf)
    ensures r == Load(text)
    ensures var o := Parser.ParseText(text);
      o.Parsed? && r.Returned? ==> Built(c, InputOf(o.p.g.added))
  {
    c := Conf([], [], [], [], [], [], [], []);
    var o := Parser.ParseText(text);
    match o
    case SyntaxError => r := Returned(-1);
    case NullValues => r := Ended;
    case Parsed(p) =>
      Parser.DataSetsAreEnclosed(text);
      ResolvableMeans(p.g.added);
      DescribedMeans(p.g.added);
      var status;
      status, c := CreateConf(InputOf(p.g.added));
      r := if status.NullDescription? then Ended else Returned(if status.code != 0 then -1 else 0);
  }

  /** Every configuration, printed with any layout, is loaded with the status 0 exactly if all its
  definitions are complete and refer to each other, and ends the process exactly if a storage or
  sensor has no values or something has no description. */
  lemma PrintedConfigLoads(config: seq<ConfigText.TopEntry>, layout: ConfigLayout.Layout, end: ConfigLayout.Ending)
    requires ConfigText.WellFormed(config) && ConfigLayout.LayoutOk(ConfigText.Toks(config), layout, end)
    ensures var all := ConfigText.Records(config);
      Load(ConfigLayout.TextOf(ConfigText.Toks(config), layout, end)) ==
      if !ConfigText.AllValued(config) || !AllDescribed(all) then Ended
      else Returned(if AllComplete(all) then 0 else -1)
  {
    ConfigRoundTrip.PrintedConfigEnds(config, layout, end);
    if ConfigText.AllValued(config) {
      ConfigRoundTrip.PrintedConfigParses(config, layout, end);
    }
  }

  /** What every text comes to.  It is loaded with the status 0 exactly if its tokens are those of a
  configuration whose definitions are described and complete; it ends the process exactly if they
  run into a storage or sensor without values, or are those of a configuration that lacks a
  description; and the status is -1 for every other text. */
  lemma EveryTextLoads(text: string)
    ensures Load(text) == Returned(0) <==>
      exists config :: ConfigAccept.Spells(Parser.Ahead(L.Start(text)), config)
                       && AllDescribed(ConfigText.Records(config)) && AllComplete(ConfigText.Records(config))
    ensures Load(text) == Ended <==>
      || ConfigAccept.MeetsNull(text)
      || exists config :: ConfigAccept.Spells(Parser.Ahead(L.Start(text)), config)
                          && !AllDescribed(ConfigText.Records(config))
    ensures Load(text) == Returned(0) || Load(text) == Ended || Load(text) == Returned(-1)
  {
    ConfigAccept.EveryText(text);
    if Parser.ParseText(text).Parsed? {
      var config :| ConfigAccept.Spells(Parser.Ahead(L.Start(text)), config);
      assert Parser.ParseText(text).p.g.added == ConfigText.Records(config);
    }
  }

  // ---------------------------------------------------------------- systems of an accepted file

  /** For a data set of any accepted file, the branch of create_conf that finds no system is
  taken exactly when the name of its system is too long. */
  lemma NoSystemOnlyForLongNames(text: string, f: DataSet)
    requires Parser.ParseText(text).Parsed? && f in InputOf(Parser.ParseText(text).p.g.added).dsets
    ensures HasSystemRecord(InputOf(Parser.ParseText(text).p.g.added).systems, f.system) <==> |f.system| < NAME_LEN
  {
    Parser.DataSetsAreEnclosed(text);
    Members(Parser.ParseText(text).p.g.added);
    SystemRecorded(Parser.ParseText(text).p.g.added, f);
  }

  /** What create_conf makes of an accepted file: a data set is without a system exactly when the
  name of the system it stands in is too long. */
  lemma SystemMissingIffLong(text: string, c: Conf, k: nat)
    requires Parser.ParseText(text).Parsed? && k < |c.dsets|
    requires Built(c, InputOf(Parser.ParseText(text).p.g.added))
    ensures var fs := InputOf(Parser.ParseText(text).p.g.added).dsets;
      k < |fs| && (c.dsets[k].sys == null <==> |fs[k].system| >= NAME_LEN)
  {
    var input := InputOf(Parser.ParseText(text).p.g.added);
    var f := input.dsets[k];
    assert DataSetBuilt(c.dsets[k], f, c.sensors, c.storages, c.systems);
    NoSystemOnlyForLongNames(text, f);
    SystemMeans(c.systems, input.systems, f.system);
    assert SystemMeant(c.systems, f.system) != null <==> HasSystem(c.systems, f.system);
  }

  // ---------------------------------------------------------------- two files

  /** A file for any such configuration, one token a line. */
  lemma Printed(config: seq<ConfigText.TopEntry>) returns (text: string)
    requires ConfigText.WellFormed(config) && ConfigText.AllValued(config)
    ensures var o := Parser.ParseText(text); o.Parsed? && o.p.g.added == ConfigText.Records(config)
  {
    var toks := ConfigText.Toks(config);
    var layout: ConfigLayout.Layout := seq(|toks|, _ => ([ConfigLayout.LineEnd], []));
    var end := ConfigLayout.Ending([], None);
    text := ConfigLayout.TextOf(toks, layout, end);
    ConfigRoundTrip.PrintedConfigParses(config, layout, end);
  }

  /** A storage plugin "p", n storages of it that are all called "s" and have one value, and a
  system of this name with one data set in "s". */
  function Example(n: nat, system: string): seq<ConfigText.TopEntry> {
    [ConfigText.GlobalSection([PLUGIN_ENTRY] + seq(n, _ => STORE_ENTRY)),
     ConfigText.SystemSection(system, EXAMPLE_ENTRIES)]
  }

  const PLUGIN_ENTRY := ConfigText.PluginEntry("p", [ConfigText.SetType(PStorage), ConfigText.SetFile("f")])

  const STORE_ENTRY := ConfigText.StorageEntry("s", "p", [("v", ConfigText.YesValue)])

  const EXAMPLE_ENTRIES := [
    ConfigText.DataEntry("d", [ConfigText.SetDataType(DGauge), ConfigText.SetStorage("s"), ConfigText.SetDesc("x")]),
    ConfigText.DescEntry("y")]

  const PLUGIN_RECORD := GlobalPlugin("p", PStorage, Some("f"))

  const STORE_RECORD := Instance("s", "p", [("v", "yes")])

  function DataSetRecord(system: string): DataSet {
    NEW_DATA_SET.(name := "d", dtype := DGauge, storage := Some("s"), desc := Some("x"), system := system)
  }

  lemma ExampleSystemRecords(system: string)
    ensures ConfigText.SystemRecords(system, None, EXAMPLE_ENTRIES) ==
      [Added.AddDataSet(DataSetRecord(system)), AddSystem(System(system, Some("y")))]
  {
    var stmts := [ConfigText.SetDataType(DGauge), ConfigText.SetStorage("s"), ConfigText.SetDesc("x")];
    var r := NEW_DATA_SET.(name := "d", system := system);
    assert stmts[1..] == [ConfigText.SetStorage("s"), ConfigText.SetDesc("x")];
    assert stmts[1..][1..] == [ConfigText.SetDesc("x")] && stmts[1..][1..][1..] == [];
    assert ConfigText.DataRecord(r, stmts) == DataSetRecord(system);
    var last := [ConfigText.DescEntry("y")];
    assert EXAMPLE_ENTRIES[1..] == last && last[1..] == [];
    assert ConfigText.SystemRecords(system, None, last) == [AddSystem(System(system, Some("y")))];
  }

  /** The records of the plugin and n storages. */
  function ExampleGlobals(n: nat): seq<Added> {
    [AddPlugin(PLUGIN_RECORD)] + seq(n, _ => AddStorage(STORE_RECORD))
  }

  lemma {:induction false} StoreRecords(n: nat)
    ensures ConfigText.GlobalRecords(seq(n, _ => STORE_ENTRY)) == seq(n, _ => AddStorage(STORE_RECORD))
  {
    var entries := seq(n, _ => STORE_ENTRY);
    if n > 0 {
      assert entries[1..] == seq(n - 1, _ => STORE_ENTRY);
      StoreRecords(n - 1);
      assert STORE_ENTRY.values[1..] == [];
      assert ConfigText.GlobalRecord(STORE_ENTRY) == AddStorage(STORE_RECORD);
    }
  }

  lemma ExampleGlobalRecords(n: nat)
    ensures ConfigText.GlobalRecords([PLUGIN_ENTRY] + seq(n, _ => STORE_ENTRY)) == ExampleGlobals(n)
  {
    StoreRecords(n);
    var stmts := [ConfigText.SetType(PStorage), ConfigText.SetFile("f")];
    assert stmts[1..] == [ConfigText.SetFile("f")] && stmts[1..][1..] == [];
    assert ConfigText.GlobalRecord(PLUGIN_ENTRY) == AddPlugin(PLUGIN_RECORD);
    assert ([PLUGIN_ENTRY] + seq(n, _ => STORE_ENTRY))[1..] == seq(n, _ => STORE_ENTRY);
  }

  /** All the records. */
  function ExampleAdded(n: nat, system: string): seq<Added> {
    ExampleGlobals(n) + [Added.AddDataSet(DataSetRecord(system))] + [AddSystem(System(system, Some("y")))]
  }

  lemma ExampleWellFormed(n: nat, system: string)
    requires ConfigText.IsQuoted(system)
    ensures ConfigText.WellFormed(Example(n, system)) && ConfigText.AllValued(Example(n, system))
  {
    assert ConfigText.GlobalOk(STORE_ENTRY) && ConfigText.GlobalOk(PLUGIN_ENTRY);
    assert ConfigText.TopOk(Example(n, system)[0]) && ConfigText.TopOk(Example(n, system)[1]);
  }

  lemma ExampleRecords(n: nat, system: string)
    ensures ConfigText.Records(Example(n, system)) == ExampleAdded(n, system)
  {
    var config := Example(n, system);
    ExampleGlobalRecords(n);
    ExampleSystemRecords(system);
    assert config[1..] == [config[1]] && config[1..][1..] == [];
    assert ConfigText.Records(config[1..]) == ConfigText.TopRecords(config[1]);
  }

  lemma {:induction false} PickedGlobals(n: nat)
    ensures Picked(ExampleGlobals(n), StorageOf) == seq(n, _ => STORE_RECORD)
    ensures Picked(ExampleGlobals(n), DataSetOf) == []
  {
    if n == 0 {
      assert ExampleGlobals(0) == [] + [AddPlugin(PLUGIN_RECORD)];
      PickedNext([], AddPlugin(PLUGIN_RECORD), StorageOf);
      PickedNext([], AddPlugin(PLUGIN_RECORD), DataSetOf);
    } else {
      PickedGlobals(n - 1);
      assert ExampleGlobals(n) == ExampleGlobals(n - 1) + [AddStorage(STORE_RECORD)];
      PickedNext(ExampleGlobals(n - 1), AddStorage(STORE_RECORD), StorageOf);
      PickedNext(ExampleGlobals(n - 1), AddStorage(STORE_RECORD), DataSetOf);
    }
  }

  lemma ExampleInput(n: nat, system: string)
    ensures var input := InputOf(ExampleAdded(n, system));
      input.storages == seq(n, _ => STORE_RECORD) && input.dsets == [DataSetRecord(system)]
  {
    PickedGlobals(n);
    var d, s := Added.AddDataSet(DataSetRecord(system)), AddSystem(System(system, Some("y")));
    PickedNext(ExampleGlobals(n), d, StorageOf);
    PickedNext(ExampleGlobals(n), d, DataSetOf);
    PickedNext(ExampleGlobals(n) + [d], s, StorageOf);
    PickedNext(ExampleGlobals(n) + [d], s, DataSetOf);
  }

  lemma ExampleMembers(n: nat, system: string, a: Added)
    requires n >= 1
    ensures a in ExampleAdded(n, system) <==>
      || a == AddPlugin(PLUGIN_RECORD) || a == AddStorage(STORE_RECORD)
      || a == Added.AddDataSet(DataSetRecord(system)) || a == AddSystem(System(system, Some("y")))
  {
    var all := ExampleAdded(n, system);
    assert all[0] == AddPlugin(PLUGIN_RECORD) && all[1] == AddStorage(STORE_RECORD);
    assert all[n + 1] == Added.AddDataSet(DataSetRecord(system)) && all[n + 2] == AddSystem(System(system, Some("y")));
  }

  lemma ExampleStatus(n: nat, system: string)
    requires n >= 1
    ensures AllDescribed(ExampleAdded(n, system))
    ensures AllComplete(ExampleAdded(n, system)) <==> |system| < NAME_LEN
  {
    var all := ExampleAdded(n, system);
    forall a: Added { ExampleMembers(n, system, a); }
    assert NameCopy("p") == "p" && NameCopy("s") == "s";
    assert PluginNamed(all, PStorage, "p") && StorageNamed(all, "s");
    assert Complete(all, Added.AddDataSet(DataSetRecord(system))) <==> |system| < NAME_LEN;
  }

  /** For every name that a string can hold there is a file that lacks nothing, with a system of
  that name and one data set in it.  It is loaded, and the data set gets its system, exactly if
  the name is not too long. */
  lemma LongNameLosesSystem(name: string, c: Conf) returns (text: string)
    requires ConfigText.IsQuoted(name)
    ensures Parser.ParseText(text).Parsed? && Load(text) == Returned(if |name| < NAME_LEN then 0 else -1)
    ensures Built(c, InputOf(Parser.ParseText(text).p.g.added)) ==>
      |c.dsets| == 1 && (c.dsets[0].sys == null <==> |name| >= NAME_LEN)
  {
    ExampleWellFormed(1, name);
    ExampleRecords(1, name);
    ExampleStatus(1, name);
    ExampleInput(1, name);
    text := Printed(Example(1, name));
    if Built(c, InputOf(Parser.ParseText(text).p.g.added)) {
      SystemMissingIffLong(text, c, 0);
    }
  }

  lemma StorageMeantIsLast(xs: seq<NvInstance>, ref: string)
    requires xs != [] && xs[|xs| - 1].name == ref
    ensures InstanceMeant(xs, Some(ref)) == xs[|xs| - 1]
  {
    assert InstanceNames(xs)[|xs| - 1] == ref;
  }

  /** Every storage lists the only data set, which points to the last of them. */
  ghost predicate LastIsMeant(c: Conf)
    reads (set x | x in c.storages)`dsets, (set d | d in c.dsets)
  {
    && c.storages != [] && |c.dsets| == 1 && c.dsets[0].stor == c.storages[|c.storages| - 1]
    && forall i :: 0 <= i < |c.storages| ==> c.storages[i].dsets == c.dsets
  }

  ghost predicate StoragesAgree(c: Conf)
    reads (set x | x in c.storages)`dsets, (set d | d in c.dsets)
  {
    forall i :: 0 <= i < |c.storages| ==> c.storages[i].dsets == PointingAt(c.dsets, c.storages[i], ToStorage)
  }

  /** For every n there is a file, loaded with the status 0, in which n storages share a name:
  all of them list the one data set, which points to the last.  So the links of this file agree
  exactly if n is 1. */
  lemma SharedNameDisagrees(n: nat, c: Conf) returns (text: string)
    requires n >= 1
    ensures Load(text) == Returned(0) && Parser.ParseText(text).Parsed?
    ensures Built(c, InputOf(Parser.ParseText(text).p.g.added)) ==>
      |c.storages| == n && LastIsMeant(c) && (StoragesAgree(c) <==> n == 1)
  {
    ExampleWellFormed(n, "a");
    ExampleRecords(n, "a");
    ExampleStatus(n, "a");
    ExampleInput(n, "a");
    text := Printed(Example(n, "a"));
    if Built(c, InputOf(Parser.ParseText(text).p.g.added)) {
      SharedLinks(n, c, InputOf(Parser.ParseText(text).p.g.added), "a");
    }
  }

  ghost predicate AllNamed(xs: seq<NvInstance>, name: string) {
    forall i :: 0 <= i < |xs| ==> xs[i].name == name
  }

  lemma SharedNames(xs: seq<NvInstance>, n: nat, ps: seq<NvPlugin>)
    requires InstancesBuilt(xs, seq(n, _ => STORE_RECORD), ps)
    ensures |xs| == n && AllNamed(xs, "s")
  {
    forall i | 0 <= i < |xs|
      ensures xs[i].name == "s"
    {
      assert InstanceBuilt(xs[i], seq(n, _ => STORE_RECORD)[i], ps);
    }
  }

  lemma SharedIsAmbiguous(xs: seq<NvInstance>, f: DataSet, name: string)
    requires AllNamed(xs, name) && f.storage == Some(name)
    ensures Unambiguous(xs, [f], ToStorage) <==> |xs| <= 1
  {
    if |xs| > 1 {
      assert Ref([f][0], ToStorage) == Some(xs[0].name) && xs[1].name == xs[0].name;
    }
  }

  lemma ReferringOne(d: NvDataSet, f: DataSet, name: string)
    requires f.storage == Some(name)
    ensures Referring([d], [f], ToStorage, name) == [d]
  {
    assert [d][..0] == [] && [f][..0] == [];
  }

  lemma SharedLists(xs: seq<NvInstance>, ds: seq<NvDataSet>, f: DataSet, name: string,
                    sens: seq<NvInstance>, syss: seq<NvSystem>)
    requires xs != [] && AllNamed(xs, name) && f.storage == Some(name)
    requires DataSetsBuilt(ds, [f], sens, xs, syss) && LinkedBack(xs, ds, [f], ToStorage)
    ensures |ds| == 1 && ds[0].stor == xs[|xs| - 1] && forall i :: 0 <= i < |xs| ==> xs[i].dsets == ds
  {
    assert DataSetBuilt(ds[0], [f][0], sens, xs, syss);
    StorageMeantIsLast(xs, name);
    assert ds == [ds[0]];
    ReferringOne(ds[0], f, name);
  }

  lemma SharedAgreement(c: Conf, input: Input, f: DataSet, name: string)
    requires Built(c, input) && AllNamed(c.storages, name) && input.dsets == [f] && f.storage == Some(name)
    ensures StoragesAgree(c) <==> |c.storages| <= 1
  {
    LinksAgree(c, input);
    SharedIsAmbiguous(c.storages, f, name);
  }

  lemma SharedLast(c: Conf, input: Input, f: DataSet, name: string)
    requires Built(c, input) && AllNamed(c.storages, name) && input.dsets == [f] && f.storage == Some(name)
    requires c.storages != []
    ensures LastIsMeant(c)
  {
    SharedLists(c.storages, c.dsets, f, name, c.sensors, c.systems);
  }

  lemma SharedLinks(n: nat, c: Conf, input: Input, system: string)
    requires n >= 1 && Built(c, input)
    requires input.storages == seq(n, _ => STORE_RECORD) && input.dsets == [DataSetRecord(system)]
    ensures |c.storages| == n && LastIsMeant(c) && (StoragesAgree(c) <==> n == 1)
  {
    SharedNames(c.storages, n, c.storPlugins);
    SharedLast(c, input, DataSetRecord(system), "s");
    SharedAgreement(c, input, DataSetRecord(system), "s");
  }
}
