/** create_conf of src/plugins/config/file.c: it turns the parser's records into the objects of
src/nvconfig.h and links them by name.
 */
module Linker {
  import opened Wrappers
  import opened ConfigFile

  const NAME_LEN: nat := 256

  // ---------------------------------------------------------------- names

  /** name_copy: at most NAME_LEN - 1 characters survive. */
  function NameCopy(s: string): (r: string)
    ensures r <= s && |r| == if |s| < 256 then |s| else 255
  {
    if |s| < NAME_LEN then s else s[..NAME_LEN - 1]
  }

  /** strncmp(a, b, NAME_LEN) == 0, for C strings. */
  predicate SameName(a: string, b: string) {
    if |a| < NAME_LEN || |b| < NAME_LEN then a == b else a[..NAME_LEN] == b[..NAME_LEN]
  }

  /** What strncmp finds at position i. */
  function ByteAt(s: string, i: nat): char {
    if i < |s| then s[i] else '\0'
  }

  /** Strings without NULs are the same name if they do not differ within 256 bytes. */
  lemma SameNameIsBytewise(a: string, b: string)
    requires (forall i :: 0 <= i < |a| ==> a[i] != '\0') && (forall i :: 0 <= i < |b| ==> b[i] != '\0')
    ensures SameName(a, b) <==> forall i :: 0 <= i < 256 ==> ByteAt(a, i) == ByteAt(b, i)
  {
    if forall i :: 0 <= i < 256 ==> ByteAt(a, i) == ByteAt(b, i) {
      assert |a| < 256 ==> ByteAt(a, |a|) == ByteAt(b, |a|);
      assert |b| < 256 ==> ByteAt(a, |b|) == ByteAt(b, |b|);
      forall i | 0 <= i < |a| && i < |b| && i < 256
        ensures a[i] == b[i]
      {
        assert ByteAt(a, i) == ByteAt(b, i);
      }
    } else {
      var i :| 0 <= i < 256 && ByteAt(a, i) != ByteAt(b, i);
      assert |a| >= 256 && |b| >= 256 ==> a[..256][i] == a[i] && b[..256][i] == b[i];
    }
  }

  /** A name can be referred to by itself exactly if it is short enough. */
  lemma LongNamesNeverMatch(name: string)
    ensures SameName(name, NameCopy(name)) <==> |name| < 256
  {
  }

  // ---------------------------------------------------------------- the objects

  class NvPlugin {
    const name: string
    const file: string

    constructor (name: string, file: string)
      ensures this.name == name && this.file == file
    {
      this.name, this.file := name, file;
    }
  }

  /** struct nv_stor and struct nv_sens. */
  class NvInstance {
    const name: string
    const conf: seq<(string, string)>
    var plug: NvPlugin?
    var dsets: seq<NvDataSet>

    constructor (name: string, conf: seq<(string, string)>)
      ensures this.name == name && this.conf == conf && plug == null && dsets == []
    {
      this.name, this.conf, plug, dsets := name, conf, null, [];
    }
  }

  class NvSystem {
    const name: string
    const desc: string

    constructor (name: string, desc: string)
      ensures this.name == name && this.desc == desc
    {
      this.name, this.desc := name, desc;
    }
  }

  class NvDataSet {
    const name: string
    const desc: string
    const dtype: DataType
    const cf: Consolidation
    var sens: NvInstance?
    var stor: NvInstance?
    var sys: NvSystem?

    constructor (name: string, desc: string, dtype: DataType, cf: Consolidation)
      ensures this.name == name && this.desc == desc && this.dtype == dtype && this.cf == cf
      ensures sens == null && stor == null && sys == null
    {
      this.name, this.desc, this.dtype, this.cf := name, desc, dtype, cf;
      sens, stor, sys := null, null, null;
    }
  }

  lemma DistinctSnoc<T>(xs: seq<T>, x: T)
    requires Distinct(xs) && x !in xs
    ensures Distinct(xs + [x])
  {
  }

  // ---------------------------------------------------------------- which object a name means

  /** The last of the names that equals ref, or -1. */
  function LastIndex(names: seq<string>, ref: string): (i: int)
    ensures -1 <= i < |names| && (i >= 0 ==> names[i] == ref)
    ensures forall j :: i < j < |names| ==> names[j] != ref
    ensures i >= 0 <==> ref in names
  {
    if names == [] then -1
    else if names[|names| - 1] == ref then |names| - 1
    else LastIndex(names[..|names| - 1], ref)
  }

  function PluginNames(ps: seq<NvPlugin>): (names: seq<string>)
    ensures |names| == |ps| && forall i :: 0 <= i < |ps| ==> names[i] == ps[i].name
  {
    if ps == [] then [] else PluginNames(ps[..|ps| - 1]) + [ps[|ps| - 1].name]
  }

  function InstanceNames(xs: seq<NvInstance>): (names: seq<string>)
    ensures |names| == |xs| && forall i :: 0 <= i < |xs| ==> names[i] == xs[i].name
  {
    if xs == [] then [] else InstanceNames(xs[..|xs| - 1]) + [xs[|xs| - 1].name]
  }

  function SystemNames(xs: seq<NvSystem>): (names: seq<string>)
    ensures |names| == |xs| && forall i :: 0 <= i < |xs| ==> names[i] == xs[i].name
  {
    if xs == [] then [] else SystemNames(xs[..|xs| - 1]) + [xs[|xs| - 1].name]
  }

  function PluginMeant(ps: seq<NvPlugin>, ref: string): NvPlugin? {
    var i := LastIndex(PluginNames(ps), ref);
    if i < 0 then null else ps[i]
  }

  function InstanceMeant(xs: seq<NvInstance>, ref: Option<string>): NvInstance? {
    if ref.None? then null
    else
      var i := LastIndex(InstanceNames(xs), ref.value);
      if i < 0 then null else xs[i]
  }

  function SystemMeant(xs: seq<NvSystem>, ref: string): NvSystem? {
    var i := LastIndex(SystemNames(xs), ref);
    if i < 0 then null else xs[i]
  }

  /** The search for a plugin does not stop at a match, so it finds the last of the name. */
  lemma PluginMeantIsLast(ps: seq<NvPlugin>, ref: string) returns (i: int)
    ensures -1 <= i < |ps| && PluginMeant(ps, ref) == if i < 0 then null else ps[i]
    ensures i >= 0 ==> ps[i].name == ref
    ensures forall k :: i < k < |ps| ==> ps[k].name != ref
  {
    i := LastIndex(PluginNames(ps), ref);
    assert forall k :: 0 <= k < |ps| ==> PluginNames(ps)[k] == ps[k].name;
  }

  /** Nor do the searches for a storage or a sensor. */
  lemma InstanceMeantIsLast(xs: seq<NvInstance>, ref: string) returns (i: int)
    ensures -1 <= i < |xs| && InstanceMeant(xs, Some(ref)) == if i < 0 then null else xs[i]
    ensures i >= 0 ==> xs[i].name == ref
    ensures forall k :: i < k < |xs| ==> xs[k].name != ref
  {
    i := LastIndex(InstanceNames(xs), ref);
    assert forall k :: 0 <= k < |xs| ==> InstanceNames(xs)[k] == xs[k].name;
  }

  /** Nor does the one for a system. */
  lemma SystemMeantIsLast(xs: seq<NvSystem>, ref: string) returns (i: int)
    ensures -1 <= i < |xs| && SystemMeant(xs, ref) == if i < 0 then null else xs[i]
    ensures i >= 0 ==> xs[i].name == ref
    ensures forall k :: i < k < |xs| ==> xs[k].name != ref
  {
    i := LastIndex(SystemNames(xs), ref);
    assert forall k :: 0 <= k < |xs| ==> SystemNames(xs)[k] == xs[k].name;
  }

  predicate HasInstance(xs: seq<NvInstance>, ref: string) {
    ref in InstanceNames(xs)
  }

  predicate HasSystem(xs: seq<NvSystem>, ref: string) {
    ref in SystemNames(xs)
  }

  /** Which of its two references a data set is followed by. */
  datatype Link = ToSensor | ToStorage

  function Ref(f: DataSet, link: Link): Option<string> {
    if link == ToSensor then f.sensor else f.storage
  }

  /** The data sets made from the records, in order, whose reference is this name. */
  function Referring(ds: seq<NvDataSet>, fs: seq<DataSet>, link: Link, name: string): seq<NvDataSet>
    requires |ds| == |fs|
  {
    if ds == [] then []
    else
      var n := |ds| - 1;
      var rest := Referring(ds[..n], fs[..n], link, name);
      if Ref(fs[n], link) == Some(name) then rest + [ds[n]] else rest
  }

  /** Exactly the data sets whose reference is the name, in their order. */
  lemma {:induction false} ReferringInOrder(ds: seq<NvDataSet>, fs: seq<DataSet>, link: Link, name: string)
    returns (at: seq<nat>)
    requires |ds| == |fs|
    ensures |at| == |Referring(ds, fs, link, name)|
    ensures forall a :: 0 <= a < |at| ==> at[a] < |ds| && ds[at[a]] == Referring(ds, fs, link, name)[a]
    ensures forall a, b :: 0 <= a < b < |at| ==> at[a] < at[b]
    ensures forall k :: 0 <= k < |ds| ==> (k in at <==> Ref(fs[k], link) == Some(name))
  {
    at := [];
    if ds != [] {
      var n := |ds| - 1;
      at := ReferringInOrder(ds[..n], fs[..n], link, name);
      if Ref(fs[n], link) == Some(name) {
        at := at + [n];
      }
    }
  }

  // ---------------------------------------------------------------- plugins

  function OfType(ps: seq<GlobalPlugin>, t: PluginType): seq<GlobalPlugin> {
    if ps == [] then []
    else
      var n := |ps| - 1;
      OfType(ps[..n], t) + (if ps[n].ptype == t then [ps[n]] else [])
  }

  /** Exactly the plugins of the type, in their order. */
  lemma {:induction false} OfTypeInOrder(ps: seq<GlobalPlugin>, t: PluginType) returns (at: seq<nat>)
    ensures |at| == |OfType(ps, t)|
    ensures forall a :: 0 <= a < |at| ==> at[a] < |ps| && ps[at[a]] == OfType(ps, t)[a]
    ensures forall a, b :: 0 <= a < b < |at| ==> at[a] < at[b]
    ensures forall k :: 0 <= k < |ps| ==> (k in at <==> ps[k].ptype == t)
  {
    at := [];
    if ps != [] {
      var n := |ps| - 1;
      at := OfTypeInOrder(ps[..n], t);
      if ps[n].ptype == t {
        at := at + [n];
      }
    }
  }

  /** The name of a file that was not given is empty. */
  function FileName(file: Option<string>): string {
    if file.None? then "" else NameCopy(file.value)
  }

  ghost predicate PluginBuilt(x: NvPlugin, p: GlobalPlugin) {
    && x.name == NameCopy(p.name)
    && (p.file.Some? ==> x.file == NameCopy(p.file.value)) && (p.file.None? ==> x.file == "")
  }

  ghost predicate PluginsBuilt(xs: seq<NvPlugin>, ps: seq<GlobalPlugin>) {
    |xs| == |ps| && forall i :: 0 <= i < |xs| ==> PluginBuilt(xs[i], ps[i])
  }

  predicate PluginOk(p: GlobalPlugin) {
    p.file.Some? && p.ptype != PNone
  }

  predicate PluginsOk(ps: seq<GlobalPlugin>) {
    forall i :: 0 <= i < |ps| ==> PluginOk(ps[i])
  }

  lemma OfTypeNext(ps: seq<GlobalPlugin>, i: nat, t: PluginType)
    requires i < |ps|
    ensures OfType(ps[..i + 1], t) == OfType(ps[..i], t) + if ps[i].ptype == t then [ps[i]] else []
  {
    assert ps[..i + 1][..i] == ps[..i];
  }

  /** The lists of the four types so far. */
  datatype PluginLists = PluginLists(stor: seq<NvPlugin>, sens: seq<NvPlugin>,
                                     proto: seq<NvPlugin>, auth: seq<NvPlugin>)
  {
    function Get(t: PluginType): seq<NvPlugin> {
      match t
      case PStorage => stor
      case PSensor => sens
      case PProto => proto
      case PAuth => auth
      case PNone => []
    }

    function Add(t: PluginType, x: NvPlugin): (r: PluginLists)
      ensures forall u: PluginType :: u != PNone ==> r.Get(u) == Get(u) + if u == t then [x] else []
    {
      match t
      case PStorage => this.(stor := stor + [x])
      case PSensor => this.(sens := sens + [x])
      case PProto => this.(proto := proto + [x])
      case PAuth => this.(auth := auth + [x])
      case PNone => this
    }
  }

  ghost predicate Filed(ls: PluginLists, ps: seq<GlobalPlugin>) {
    forall t: PluginType :: t != PNone ==> PluginsBuilt(ls.Get(t), OfType(ps, t))
  }

  lemma FiledNext(ls: PluginLists, ls': PluginLists, ps: seq<GlobalPlugin>, i: nat, x: NvPlugin)
    requires i < |ps| && Filed(ls, ps[..i]) && PluginBuilt(x, ps[i])
    requires ls' == ls.Add(ps[i].ptype, x)
    ensures Filed(ls', ps[..i + 1])
  {
    forall t: PluginType | t != PNone
      ensures PluginsBuilt(ls'.Get(t), OfType(ps[..i + 1], t))
    {
      OfTypeNext(ps, i, t);
      assert PluginsBuilt(ls.Get(t), OfType(ps[..i], t));
    }
  }

  lemma FiledSkips(ls: PluginLists, ps: seq<GlobalPlugin>, i: nat)
    requires i < |ps| && Filed(ls, ps[..i]) && ps[i].ptype == PNone
    ensures Filed(ls, ps[..i + 1])
  {
    forall t: PluginType | t != PNone
      ensures PluginsBuilt(ls.Get(t), OfType(ps[..i + 1], t))
    {
      OfTypeNext(ps, i, t);
      assert PluginsBuilt(ls.Get(t), OfType(ps[..i], t));
    }
  }

  lemma FiledAll(ls: PluginLists, ps: seq<GlobalPlugin>)
    requires Filed(ls, ps)
    ensures PluginsBuilt(ls.stor, OfType(ps, PStorage)) && PluginsBuilt(ls.sens, OfType(ps, PSensor))
    ensures PluginsBuilt(ls.proto, OfType(ps, PProto)) && PluginsBuilt(ls.auth, OfType(ps, PAuth))
  {
    assert ls.stor == ls.Get(PStorage) && ls.sens == ls.Get(PSensor);
    assert ls.proto == ls.Get(PProto) && ls.auth == ls.Get(PAuth);
  }

  /** The loop over the plugins. */
  method BuildPlugins(ps: seq<GlobalPlugin>) returns (ok: bool, ls: PluginLists)
    ensures ok <==> PluginsOk(ps)
    ensures Filed(ls, ps)
  {
    ok, ls := true, PluginLists([], [], [], []);
    for i := 0 to |ps|
      invariant ok <==> PluginsOk(ps[..i])
      invariant Filed(ls, ps[..i])
    {
      var f := ps[i];
      if f.file.None? {
        ok := false;
      }
      if f.ptype == PNone {
        ok := false;
        FiledSkips(ls, ps, i);
      } else {
        var p := new NvPlugin(NameCopy(f.name), FileName(f.file));
        FiledNext(ls, ls.Add(f.ptype, p), ps, i, p);
        ls := ls.Add(f.ptype, p);
      }
    }
    assert ps[..|ps|] == ps;
  }

  // ---------------------------------------------------------------- storage and sensor instances

  /** Each word becomes the key, and each value the value, of one setting, in order. */
  predicate Copied(conf: seq<(string, string)>, values: seq<(string, string)>) {
    && |conf| == |values|
    && forall i :: 0 <= i < |conf| ==> conf[i].0 == NameCopy(values[i].0) && conf[i].1 == NameCopy(values[i].1)
  }

  method CopyValues(values: seq<(string, string)>) returns (conf: seq<(string, string)>)
    ensures Copied(conf, values)
  {
    conf := [];
    for i := 0 to |values|
      invariant Copied(conf, values[..i])
    {
      conf := conf + [(NameCopy(values[i].0), NameCopy(values[i].1))];
    }
  }

  /** Names that name_copy has shortened. */
  predicate Short(names: seq<string>) {
    forall i :: 0 <= i < |names| ==> |names[i]| < NAME_LEN
  }

  /** The search for a plugin: there is no break, so the last match counts. */
  method FindPlugin(ps: seq<NvPlugin>, ref: string) returns (found: NvPlugin?)
    requires Short(PluginNames(ps))
    ensures found == PluginMeant(ps, ref)
  {
    found := null;
    for j := 0 to |ps|
      invariant found == PluginMeant(ps[..j], ref)
    {
      var c := ps[j];
      assert ps[..j + 1][..j] == ps[..j];
      assert PluginNames(ps[..j + 1])[..j] == PluginNames(ps[..j]);
      assert |PluginNames(ps)[j]| < NAME_LEN;
      if SameName(ref, c.name) {
        found := c;
      }
    }
    assert ps[..|ps|] == ps;
  }

  predicate NamesPlugin(f: Instance, ps: seq<NvPlugin>) {
    f.plugin in PluginNames(ps)
  }

  ghost predicate InstanceBuilt(x: NvInstance, f: Instance, ps: seq<NvPlugin>)
    reads x`plug
  {
    x.name == NameCopy(f.name) && Copied(x.conf, f.values) && x.plug == PluginMeant(ps, f.plugin)
  }

  method BuildInstance(f: Instance, ps: seq<NvPlugin>) returns (x: NvInstance)
    requires Short(PluginNames(ps))
    ensures fresh(x) && InstanceBuilt(x, f, ps) && x.dsets == []
    ensures x.plug != null <==> NamesPlugin(f, ps)
  {
    var conf := CopyValues(f.values);
    x := new NvInstance(NameCopy(f.name), conf);
    x.plug := FindPlugin(ps, f.plugin);
  }

  /** The instances made from the records, in order. */
  ghost predicate InstancesBuilt(xs: seq<NvInstance>, fs: seq<Instance>, ps: seq<NvPlugin>)
    reads (set x | x in xs)`plug
  {
    |xs| == |fs| && forall i :: 0 <= i < |xs| ==> InstanceBuilt(xs[i], fs[i], ps)
  }

  /** No data set has been linked yet. */
  ghost predicate Unlinked(xs: seq<NvInstance>)
    reads (set x | x in xs)`dsets
  {
    forall i :: 0 <= i < |xs| ==> xs[i].dsets == []
  }

  ghost predicate AllNamePlugins(fs: seq<Instance>, ps: seq<NvPlugin>) {
    forall i :: 0 <= i < |fs| ==> NamesPlugin(fs[i], ps)
  }

  method AddInstance(f: Instance, ps: seq<NvPlugin>, xs: seq<NvInstance>, ghost fs: seq<Instance>)
      returns (ok: bool, x: NvInstance)
    requires Short(PluginNames(ps)) && Distinct(xs) && InstancesBuilt(xs, fs, ps) && Unlinked(xs)
    ensures fresh(x) && Distinct(xs + [x]) && InstancesBuilt(xs + [x], fs + [f], ps) && Unlinked(xs + [x])
    ensures AllNamePlugins(fs + [f], ps) <==> AllNamePlugins(fs, ps) && ok
  {
    x := BuildInstance(f, ps);
    ok := x.plug != null;
    DistinctSnoc(xs, x);
    assert (fs + [f])[|fs|] == f;
    assert forall i :: 0 <= i < |fs| ==> (fs + [f])[i] == fs[i];
  }

  /** The loop over the storage instances, and the one over the sensors. */
  method BuildInstances(fs: seq<Instance>, ps: seq<NvPlugin>) returns (ok: bool, xs: seq<NvInstance>)
    requires Short(PluginNames(ps))
    ensures ok <==> AllNamePlugins(fs, ps)
    ensures Distinct(xs) && fresh(xs) && InstancesBuilt(xs, fs, ps) && Unlinked(xs)
  {
    ok, xs := true, [];
    ghost var done := [];
    for i := 0 to |fs|
      invariant done == fs[..i] && (ok <==> AllNamePlugins(done, ps))
      invariant Distinct(xs) && fresh(xs) && InstancesBuilt(xs, done, ps) && Unlinked(xs)
    {
      TakeNext(fs, i);
      var good, x := AddInstance(fs[i], ps, xs, done);
      ok := ok && good;
      done, xs := done + [fs[i]], xs + [x];
    }
    assert fs[..|fs|] == fs;
  }

  // ---------------------------------------------------------------- systems

  ghost predicate SystemBuilt(x: NvSystem, f: System) {
    x.name == NameCopy(f.name) && f.desc.Some? && x.desc == NameCopy(f.desc.value)
  }

  ghost predicate SystemsBuilt(xs: seq<NvSystem>, fs: seq<System>) {
    |xs| == |fs| && forall i :: 0 <= i < |xs| ==> SystemBuilt(xs[i], fs[i])
  }

  predicate SystemsDescribed(fs: seq<System>) {
    forall i :: 0 <= i < |fs| ==> fs[i].desc.Some?
  }

  /** The loop over the systems; copying a missing description follows a null pointer. */
  method BuildSystems(fs: seq<System>) returns (crashed: bool, xs: seq<NvSystem>)
    ensures crashed <==> !SystemsDescribed(fs)
    ensures !crashed ==> Distinct(xs) && SystemsBuilt(xs, fs)
  {
    xs := [];
    for i := 0 to |fs|
      invariant forall k :: 0 <= k < i ==> fs[k].desc.Some?
      invariant Distinct(xs) && SystemsBuilt(xs, fs[..i])
    {
      if fs[i].desc.None? {
        return true, xs;
      }
      var x := new NvSystem(NameCopy(fs[i].name), NameCopy(fs[i].desc.value));
      xs := xs + [x];
    }
    assert fs[..|fs|] == fs;
    crashed := false;
  }

  // ---------------------------------------------------------------- data sets

  ghost predicate ShortNamed(xs: seq<NvInstance>) {
    forall i :: 0 <= i < |xs| ==> |xs[i].name| < NAME_LEN
  }

  /** One more data set on the lists of the instances with this name. */
  twostate predicate Listed(xs: seq<NvInstance>, ref: Option<string>, new d: NvDataSet)
    reads (set x | x in xs)`dsets
  {
    forall i :: 0 <= i < |xs| ==>
      xs[i].dsets == if ref == Some(xs[i].name) then old(xs[i].dsets) + [d] else old(xs[i].dsets)
  }

  lemma InstanceMeantNext(xs: seq<NvInstance>, j: nat, ref: string)
    requires j < |xs|
    ensures InstanceMeant(xs[..j + 1], Some(ref))
      == if xs[j].name == ref then xs[j] else InstanceMeant(xs[..j], Some(ref))
  {
    assert xs[..j + 1][..j] == xs[..j];
    assert InstanceNames(xs[..j + 1])[..j] == InstanceNames(xs[..j]);
  }

  /** The search for an instance.  Every match gets the data set on its list; the last one is
  what the data set points to. */
  method LinkInstance(d: NvDataSet, ref: string, xs: seq<NvInstance>) returns (found: NvInstance?)
    requires ShortNamed(xs) && Distinct(xs)
    modifies (set x | x in xs)`dsets
    ensures found == InstanceMeant(xs, Some(ref)) && (found != null <==> HasInstance(xs, ref))
    ensures Listed(xs, Some(ref), d)
  {
    found := null;
    for j := 0 to |xs|
      invariant found == InstanceMeant(xs[..j], Some(ref))
      invariant forall i :: 0 <= i < j ==>
        xs[i].dsets == if xs[i].name == ref then old(xs[i].dsets) + [d] else old(xs[i].dsets)
      invariant forall i :: j <= i < |xs| ==> xs[i].dsets == old(xs[i].dsets)
    {
      var c := xs[j];
      InstanceMeantNext(xs, j, ref);
      if SameName(ref, c.name) {
        found := c;
        c.dsets := c.dsets + [d];
      }
    }
    assert xs[..|xs|] == xs;
  }

  method FindSystem(xs: seq<NvSystem>, ref: string) returns (found: NvSystem?)
    requires Short(SystemNames(xs))
    ensures found == SystemMeant(xs, ref) && (found != null <==> HasSystem(xs, ref))
  {
    found := null;
    for j := 0 to |xs|
      invariant found == SystemMeant(xs[..j], ref)
    {
      var c := xs[j];
      assert xs[..j + 1][..j] == xs[..j];
      assert SystemNames(xs[..j + 1])[..j] == SystemNames(xs[..j]);
      assert |SystemNames(xs)[j]| < NAME_LEN;
      if SameName(ref, c.name) {
        found := c;
      }
    }
    assert xs[..|xs|] == xs;
  }

  ghost predicate Apart(xs: seq<NvInstance>, ys: seq<NvInstance>) {
    forall i, j :: 0 <= i < |xs| && 0 <= j < |ys| ==> xs[i] != ys[j]
  }

  /** What a data set must say to be linked. */
  ghost predicate DataSetOk(f: DataSet, sens: seq<NvInstance>, stors: seq<NvInstance>, syss: seq<NvSystem>) {
    && f.dtype != DNone
    && (f.sensor.Some? ==> HasInstance(sens, f.sensor.value))
    && f.storage.Some? && HasInstance(stors, f.storage.value)
    && HasSystem(syss, f.system)
  }

  ghost predicate DataSetBuilt(d: NvDataSet, f: DataSet, sens: seq<NvInstance>, stors: seq<NvInstance>,
                               syss: seq<NvSystem>)
    reads d
  {
    && d.name == NameCopy(f.name) && f.desc.Some? && d.desc == NameCopy(f.desc.value)
    && d.dtype == f.dtype && d.cf == f.cf
    && d.sens == InstanceMeant(sens, f.sensor) && d.stor == InstanceMeant(stors, f.storage)
    && d.sys == SystemMeant(syss, f.system)
  }

  /** Each instance lists the data sets that refer to its name, in file order. */
  ghost predicate LinkedBack(xs: seq<NvInstance>, ds: seq<NvDataSet>, fs: seq<DataSet>, link: Link)
    reads (set x | x in xs)`dsets
  {
    |ds| == |fs| && forall i :: 0 <= i < |xs| ==> xs[i].dsets == Referring(ds, fs, link, xs[i].name)
  }

  lemma ReferringNext(ds: seq<NvDataSet>, d: NvDataSet, fs: seq<DataSet>, f: DataSet, link: Link, name: string)
    requires |ds| == |fs|
    ensures Referring(ds + [d], fs + [f], link, name)
      == if Ref(f, link) == Some(name) then Referring(ds, fs, link, name) + [d] else Referring(ds, fs, link, name)
  {
    assert (ds + [d])[..|ds|] == ds && (fs + [f])[..|fs|] == fs;
  }

  /** A data set need not name a sensor, but one that it names must exist. */
  method LinkSensor(d: NvDataSet, f: DataSet, sens: seq<NvInstance>, ghost ds: seq<NvDataSet>, ghost fs: seq<DataSet>)
      returns (ok: bool)
    requires ShortNamed(sens) && Distinct(sens) && d.sens == null && LinkedBack(sens, ds, fs, ToSensor)
    modifies d`sens, (set x | x in sens)`dsets
    ensures ok <==> (f.sensor.Some? ==> HasInstance(sens, f.sensor.value))
    ensures d.sens == InstanceMeant(sens, f.sensor) && LinkedBack(sens, ds + [d], fs + [f], ToSensor)
  {
    ok := true;
    if f.sensor.Some? {
      d.sens := LinkInstance(d, f.sensor.value, sens);
      ok := d.sens != null;
    }
    forall i | 0 <= i < |sens|
      ensures sens[i].dsets == Referring(ds + [d], fs + [f], ToSensor, sens[i].name)
    {
      ReferringNext(ds, d, fs, f, ToSensor, sens[i].name);
    }
  }

  method LinkStorage(d: NvDataSet, f: DataSet, stors: seq<NvInstance>, ghost ds: seq<NvDataSet>, ghost fs: seq<DataSet>)
      returns (ok: bool)
    requires ShortNamed(stors) && Distinct(stors) && d.stor == null && LinkedBack(stors, ds, fs, ToStorage)
    modifies d`stor, (set x | x in stors)`dsets
    ensures ok <==> f.storage.Some? && HasInstance(stors, f.storage.value)
    ensures d.stor == InstanceMeant(stors, f.storage) && LinkedBack(stors, ds + [d], fs + [f], ToStorage)
  {
    ok := false;
    if f.storage.Some? {
      d.stor := LinkInstance(d, f.storage.value, stors);
      ok := d.stor != null;
    }
    forall i | 0 <= i < |stors|
      ensures stors[i].dsets == Referring(ds + [d], fs + [f], ToStorage, stors[i].name)
    {
      ReferringNext(ds, d, fs, f, ToStorage, stors[i].name);
    }
  }

  ghost predicate DataSetsBuilt(ds: seq<NvDataSet>, fs: seq<DataSet>, sens: seq<NvInstance>, stors: seq<NvInstance>,
                                syss: seq<NvSystem>)
    reads (set d | d in ds)
  {
    |ds| == |fs| && forall i :: 0 <= i < |ds| ==> DataSetBuilt(ds[i], fs[i], sens, stors, syss)
  }

  lemma BuiltNext(ds: seq<NvDataSet>, d: NvDataSet, fs: seq<DataSet>, f: DataSet,
                  sens: seq<NvInstance>, stors: seq<NvInstance>, syss: seq<NvSystem>)
    requires DataSetsBuilt(ds, fs, sens, stors, syss) && DataSetBuilt(d, f, sens, stors, syss)
    ensures DataSetsBuilt(ds + [d], fs + [f], sens, stors, syss)
  {
  }

  /** The data sets made from the records, each linked both ways. */
  ghost predicate AllLinked(ds: seq<NvDataSet>, fs: seq<DataSet>, sens: seq<NvInstance>, stors: seq<NvInstance>,
                            syss: seq<NvSystem>)
    reads (set d | d in ds), (set x | x in sens)`dsets, (set x | x in stors)`dsets
  {
    && Distinct(ds) && DataSetsBuilt(ds, fs, sens, stors, syss)
    && LinkedBack(sens, ds, fs, ToSensor) && LinkedBack(stors, ds, fs, ToStorage)
  }

  ghost predicate AllOk(fs: seq<DataSet>, sens: seq<NvInstance>, stors: seq<NvInstance>, syss: seq<NvSystem>) {
    forall i :: 0 <= i < |fs| ==> DataSetOk(fs[i], sens, stors, syss)
  }

  predicate Described(fs: seq<DataSet>) {
    forall i :: 0 <= i < |fs| ==> fs[i].desc.Some?
  }

  lemma AllOkNext(fs: seq<DataSet>, f: DataSet, sens: seq<NvInstance>, stors: seq<NvInstance>, syss: seq<NvSystem>)
    ensures AllOk(fs + [f], sens, stors, syss) <==> AllOk(fs, sens, stors, syss) && DataSetOk(f, sens, stors, syss)
  {
    var all := fs + [f];
    assert forall i :: 0 <= i < |fs| ==> all[i] == fs[i];
    assert all[|fs|] == f;
  }

  /** The lists that the data sets are linked to. */
  ghost predicate Targets(sens: seq<NvInstance>, stors: seq<NvInstance>, syss: seq<NvSystem>) {
    && ShortNamed(sens) && Distinct(sens) && ShortNamed(stors) && Distinct(stors) && Apart(sens, stors)
    && Short(SystemNames(syss))
  }

  /** The body of the loop over the data sets. */
  method BuildDataSet(f: DataSet, sens: seq<NvInstance>, stors: seq<NvInstance>, syss: seq<NvSystem>,
                      ghost ds: seq<NvDataSet>, ghost fs: seq<DataSet>)
      returns (ok: bool, d: NvDataSet)
    requires f.desc.Some? && Targets(sens, stors, syss)
    requires LinkedBack(sens, ds, fs, ToSensor) && LinkedBack(stors, ds, fs, ToStorage)
    modifies (set x | x in sens)`dsets, (set x | x in stors)`dsets
    ensures ok <==> DataSetOk(f, sens, stors, syss)
    ensures fresh(d) && DataSetBuilt(d, f, sens, stors, syss)
    ensures LinkedBack(sens, ds + [d], fs + [f], ToSensor) && LinkedBack(stors, ds + [d], fs + [f], ToStorage)
  {
    d := new NvDataSet(NameCopy(f.name), NameCopy(f.desc.value), f.dtype, f.cf);
    var senOk := LinkSensor(d, f, sens, ds, fs);
    var storOk := LinkStorage(d, f, stors, ds, fs);
    d.sys := FindSystem(syss, f.system);
    ok := f.dtype != DNone && senOk && storOk && d.sys != null;
  }

  method AddDataSet(f: DataSet, sens: seq<NvInstance>, stors: seq<NvInstance>, syss: seq<NvSystem>,
                    ds: seq<NvDataSet>, ghost fs: seq<DataSet>)
      returns (ok: bool, d: NvDataSet)
    requires f.desc.Some? && Targets(sens, stors, syss) && AllLinked(ds, fs, sens, stors, syss)
    modifies (set x | x in sens)`dsets, (set x | x in stors)`dsets
    ensures fresh(d) && AllLinked(ds + [d], fs + [f], sens, stors, syss)
    ensures AllOk(fs + [f], sens, stors, syss) <==> AllOk(fs, sens, stors, syss) && ok
  {
    ok, d := BuildDataSet(f, sens, stors, syss, ds, fs);
    assert DataSetsBuilt(ds, fs, sens, stors, syss);
    DistinctSnoc(ds, d);
    BuiltNext(ds, d, fs, f, sens, stors, syss);
    AllOkNext(fs, f, sens, stors, syss);
  }

  /** The loop over the data sets; copying a missing description follows a null pointer. */
  method BuildDataSets(fs: seq<DataSet>, sens: seq<NvInstance>, stors: seq<NvInstance>, syss: seq<NvSystem>)
      returns (crashed: bool, ok: bool, ds: seq<NvDataSet>)
    requires Targets(sens, stors, syss) && AllLinked([], [], sens, stors, syss)
    modifies (set x | x in sens)`dsets, (set x | x in stors)`dsets
    ensures crashed <==> !Described(fs)
    ensures !crashed ==> (ok <==> AllOk(fs, sens, stors, syss))
    ensures !crashed ==> AllLinked(ds, fs, sens, stors, syss)
  {
    crashed, ok, ds := false, true, [];
    ghost var done := [];
    for i := 0 to |fs|
      invariant !crashed && Described(done) && done == fs[..i]
      invariant ok <==> AllOk(done, sens, stors, syss)
      invariant AllLinked(ds, done, sens, stors, syss)
    {
      var f := fs[i];
      if f.desc.None? {
        return true, ok, ds;
      }
      DescribedNext(fs, i);
      var good, d := AddDataSet(f, sens, stors, syss, ds, done);
      done := done + [f];
      ok := ok && good;
      ds := ds + [d];
    }
    assert done == fs;
  }

  lemma TakeNext<T>(xs: seq<T>, i: nat)
    requires i < |xs|
    ensures xs[..i + 1] == xs[..i] + [xs[i]]
  {
  }

  lemma DescribedNext(fs: seq<DataSet>, i: nat)
    requires i < |fs| && Described(fs[..i]) && fs[i].desc.Some?
    ensures fs[..i] + [fs[i]] == fs[..i + 1] && Described(fs[..i + 1])
  {
  }

  // ---------------------------------------------------------------- the whole configuration

  /** The parser's five lists. */
  datatype Input = Input(plugins: seq<GlobalPlugin>, storages: seq<Instance>, sensors: seq<Instance>,
                         systems: seq<System>, dsets: seq<DataSet>)

  ghost predicate HasPlugin(ps: seq<GlobalPlugin>, t: PluginType, ref: string) {
    exists i :: 0 <= i < |ps| && ps[i].ptype == t && NameCopy(ps[i].name) == ref
  }

  ghost predicate HasRecord(fs: seq<Instance>, ref: string) {
    exists i :: 0 <= i < |fs| && NameCopy(fs[i].name) == ref
  }

  ghost predicate HasSystemRecord(fs: seq<System>, ref: string) {
    exists i :: 0 <= i < |fs| && NameCopy(fs[i].name) == ref
  }

  /** Everything is specified, and every reference names something. */
  ghost predicate Resolvable(input: Input) {
    && PluginsOk(input.plugins)
    && (forall i :: 0 <= i < |input.storages| ==> HasPlugin(input.plugins, PStorage, input.storages[i].plugin))
    && (forall i :: 0 <= i < |input.sensors| ==> HasPlugin(input.plugins, PSensor, input.sensors[i].plugin))
    && (forall i :: 0 <= i < |input.dsets| ==> DataSetResolvable(input, input.dsets[i]))
  }

  ghost predicate DataSetResolvable(input: Input, f: DataSet) {
    && f.dtype != DNone
    && (f.sensor.Some? ==> HasRecord(input.sensors, f.sensor.value))
    && f.storage.Some? && HasRecord(input.storages, f.storage.value)
    && HasSystemRecord(input.systems, f.system)
  }

  datatype Result = NullDescription | Status(code: int)

  /** The lists of the running configuration. */
  datatype Conf = Conf(storPlugins: seq<NvPlugin>, sensPlugins: seq<NvPlugin>,
                       protoPlugins: seq<NvPlugin>, authPlugins: seq<NvPlugin>,
                       storages: seq<NvInstance>, sensors: seq<NvInstance>,
                       systems: seq<NvSystem>, dsets: seq<NvDataSet>)

  ghost predicate PluginListsBuilt(c: Conf, ps: seq<GlobalPlugin>) {
    && PluginsBuilt(c.storPlugins, OfType(ps, PStorage)) && PluginsBuilt(c.sensPlugins, OfType(ps, PSensor))
    && PluginsBuilt(c.protoPlugins, OfType(ps, PProto)) && PluginsBuilt(c.authPlugins, OfType(ps, PAuth))
  }

  /** The lists before any data set is linked. */
  ghost predicate ListsBuilt(c: Conf, input: Input)
    reads (set x | x in c.storages)`plug, (set x | x in c.sensors)`plug
  {
    && PluginListsBuilt(c, input.plugins)
    && InstancesBuilt(c.storages, input.storages, c.storPlugins)
    && InstancesBuilt(c.sensors, input.sensors, c.sensPlugins)
    && SystemsBuilt(c.systems, input.systems) && Distinct(c.systems)
  }

  /** The objects made from the input, linked by name. */
  ghost predicate Built(c: Conf, input: Input)
    reads (set x | x in c.storages), (set x | x in c.sensors), (set d | d in c.dsets)
  {
    && ListsBuilt(c, input) && Targets(c.sensors, c.storages, c.systems)
    && AllLinked(c.dsets, input.dsets, c.sensors, c.storages, c.systems)
  }

  ghost predicate ListsOk(c: Conf, input: Input) {
    && PluginsOk(input.plugins)
    && AllNamePlugins(input.storages, c.storPlugins) && AllNamePlugins(input.sensors, c.sensPlugins)
  }

  /** The loops over the plugins, the instances and the systems. */
  method BuildLists(input: Input) returns (crashed: bool, ok: bool, c: Conf)
    ensures crashed <==> !SystemsDescribed(input.systems)
    ensures !crashed ==> ListsBuilt(c, input) && Targets(c.sensors, c.storages, c.systems)
    ensures !crashed ==> c.dsets == [] && fresh(c.sensors) && fresh(c.storages)
    ensures !crashed ==> Unlinked(c.sensors) && Unlinked(c.storages)
    ensures ok <==> ListsOk(c, input)
  {
    var ls: PluginLists;
    ok, ls := BuildPlugins(input.plugins);
    FiledAll(ls, input.plugins);
    var stor, sens := ls.stor, ls.sens;
    PluginsShort(stor, OfType(input.plugins, PStorage));
    PluginsShort(sens, OfType(input.plugins, PSensor));
    var storOk, stors := BuildInstances(input.storages, stor);
    InstancesShort(stors, input.storages, stor);
    var senOk, senss := BuildInstances(input.sensors, sens);
    InstancesShort(senss, input.sensors, sens);
    var syss: seq<NvSystem>;
    crashed, syss := BuildSystems(input.systems);
    if !crashed {
      SystemsShort(syss, input.systems);
    }
    ok := ok && storOk && senOk;
    c := Conf(stor, sens, ls.proto, ls.auth, stors, senss, syss, []);
  }

  /** create_conf, up to the clean-up of the input. */
  method CreateConf(input: Input) returns (r: Result, c: Conf)
    ensures r.NullDescription? <==> !(SystemsDescribed(input.systems) && Described(input.dsets))
    ensures r.Status? ==> Built(c, input)
    ensures r.Status? ==> r.code == if Resolvable(input) then 0 else -1
  {
    var crashed, ok: bool;
    crashed, ok, c := BuildLists(input);
    if crashed {
      return NullDescription, c;
    }
    ReferencesMean(input, c);
    var dsOk, dsets;
    crashed, dsOk, dsets := BuildDataSets(input.dsets, c.sensors, c.storages, c.systems);
    if crashed {
      return NullDescription, c;
    }
    c := c.(dsets := dsets);
    r := Status(if ok && dsOk then 0 else -1);
  }

  lemma PluginsShort(xs: seq<NvPlugin>, ps: seq<GlobalPlugin>)
    requires PluginsBuilt(xs, ps)
    ensures Short(PluginNames(xs))
  {
  }

  lemma SystemsShort(xs: seq<NvSystem>, fs: seq<System>)
    requires SystemsBuilt(xs, fs)
    ensures Short(SystemNames(xs))
  {
  }

  lemma InstancesShort(xs: seq<NvInstance>, fs: seq<Instance>, ps: seq<NvPlugin>)
    requires InstancesBuilt(xs, fs, ps)
    ensures ShortNamed(xs)
  {
  }

  // ---------------------------------------------------------------- what a status of 0 means

  ghost predicate HasName(ps: seq<GlobalPlugin>, ref: string) {
    exists i :: 0 <= i < |ps| && NameCopy(ps[i].name) == ref
  }

  lemma HasNameNext(ps: seq<GlobalPlugin>, p: GlobalPlugin, ref: string)
    ensures HasName(ps + [p], ref) <==> HasName(ps, ref) || NameCopy(p.name) == ref
  {
    var all := ps + [p];
    assert all[|ps|] == p;
    if i :| 0 <= i < |ps| && NameCopy(ps[i].name) == ref {
      assert all[i] == ps[i];
    }
  }

  lemma HasPluginNext(ps: seq<GlobalPlugin>, p: GlobalPlugin, t: PluginType, ref: string)
    ensures HasPlugin(ps + [p], t, ref) <==> HasPlugin(ps, t, ref) || (p.ptype == t && NameCopy(p.name) == ref)
  {
    var all := ps + [p];
    assert all[|ps|] == p;
    if i :| 0 <= i < |ps| && ps[i].ptype == t && NameCopy(ps[i].name) == ref {
      assert all[i] == ps[i];
    }
  }

  lemma {:induction false} OfTypeNames(ps: seq<GlobalPlugin>, t: PluginType, ref: string)
    ensures HasName(OfType(ps, t), ref) <==> HasPlugin(ps, t, ref)
  {
    if ps != [] {
      var n := |ps| - 1;
      assert ps == ps[..n] + [ps[n]];
      OfTypeNames(ps[..n], t, ref);
      HasPluginNext(ps[..n], ps[n], t, ref);
      HasNameNext(OfType(ps[..n], t), ps[n], ref);
      assert OfType(ps[..n], t) + [] == OfType(ps[..n], t);
    }
  }

  lemma PluginMeans(xs: seq<NvPlugin>, ps: seq<GlobalPlugin>, t: PluginType, ref: string)
    requires PluginsBuilt(xs, OfType(ps, t))
    ensures ref in PluginNames(xs) <==> HasPlugin(ps, t, ref)
  {
    var typed := OfType(ps, t);
    OfTypeNames(ps, t, ref);
    if ref in PluginNames(xs) {
      var i :| 0 <= i < |xs| && PluginNames(xs)[i] == ref;
      assert NameCopy(typed[i].name) == ref;
    }
    if i :| 0 <= i < |typed| && NameCopy(typed[i].name) == ref {
      assert PluginNames(xs)[i] == ref;
    }
  }

  lemma InstanceMeans(xs: seq<NvInstance>, fs: seq<Instance>, ps: seq<NvPlugin>, ref: string)
    requires InstancesBuilt(xs, fs, ps)
    ensures HasInstance(xs, ref) <==> HasRecord(fs, ref)
  {
    if HasInstance(xs, ref) {
      var i :| 0 <= i < |xs| && InstanceNames(xs)[i] == ref;
      assert InstanceBuilt(xs[i], fs[i], ps);
      assert NameCopy(fs[i].name) == ref;
    }
    if i :| 0 <= i < |fs| && NameCopy(fs[i].name) == ref {
      assert InstanceBuilt(xs[i], fs[i], ps);
      assert InstanceNames(xs)[i] == ref;
    }
  }

  lemma SystemMeans(xs: seq<NvSystem>, fs: seq<System>, ref: string)
    requires SystemsBuilt(xs, fs)
    ensures HasSystem(xs, ref) <==> HasSystemRecord(fs, ref)
  {
    if HasSystem(xs, ref) {
      var i :| 0 <= i < |xs| && SystemNames(xs)[i] == ref;
      assert SystemBuilt(xs[i], fs[i]);
      assert NameCopy(fs[i].name) == ref;
    }
    if i :| 0 <= i < |fs| && NameCopy(fs[i].name) == ref {
      assert SystemBuilt(xs[i], fs[i]);
      assert SystemNames(xs)[i] == ref;
    }
  }

  /** The searches among the objects succeed exactly when the file has what they look for. */
  lemma ReferencesMean(input: Input, c: Conf)
    requires ListsBuilt(c, input)
    ensures ListsOk(c, input) && AllOk(input.dsets, c.sensors, c.storages, c.systems) <==> Resolvable(input)
  {
    forall i | 0 <= i < |input.storages|
      ensures NamesPlugin(input.storages[i], c.storPlugins)
        <==> HasPlugin(input.plugins, PStorage, input.storages[i].plugin)
    {
      PluginMeans(c.storPlugins, input.plugins, PStorage, input.storages[i].plugin);
    }
    forall i | 0 <= i < |input.sensors|
      ensures NamesPlugin(input.sensors[i], c.sensPlugins)
        <==> HasPlugin(input.plugins, PSensor, input.sensors[i].plugin)
    {
      PluginMeans(c.sensPlugins, input.plugins, PSensor, input.sensors[i].plugin);
    }
    forall i | 0 <= i < |input.dsets|
      ensures DataSetOk(input.dsets[i], c.sensors, c.storages, c.systems) <==> DataSetResolvable(input, input.dsets[i])
    {
      DataSetMeans(input, input.dsets[i], c.storPlugins, c.sensPlugins, c.storages, c.sensors, c.systems);
    }
  }

  lemma DataSetMeans(input: Input, f: DataSet, stor: seq<NvPlugin>, sens: seq<NvPlugin>,
                     storages: seq<NvInstance>, sensors: seq<NvInstance>, systems: seq<NvSystem>)
    requires InstancesBuilt(storages, input.storages, stor) && InstancesBuilt(sensors, input.sensors, sens)
    requires SystemsBuilt(systems, input.systems)
    ensures DataSetOk(f, sensors, storages, systems) <==> DataSetResolvable(input, f)
  {
    if f.sensor.Some? {
      InstanceMeans(sensors, input.sensors, sens, f.sensor.value);
    }
    if f.storage.Some? {
      InstanceMeans(storages, input.storages, stor, f.storage.value);
    }
    SystemMeans(systems, input.systems, f.system);
  }
}
