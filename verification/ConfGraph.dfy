/** What the linked configuration is good for: the two directions of its links agree, and ENUM lists
every data set under its own system.
 */
module ConfGraph {
  import opened Wrappers
  import opened ConfigFile
  import opened Linker

  // ---------------------------------------------------------------- forward and back links

  function Pointer(d: NvDataSet, link: Link): NvInstance?
    reads d
  {
    if link == ToSensor then d.sens else d.stor
  }

  /** The data sets, in order, that point to x. */
  function PointingAt(ds: seq<NvDataSet>, x: NvInstance, link: Link): seq<NvDataSet>
    reads (set d | d in ds)
  {
    if ds == [] then []
    else
      var n := |ds| - 1;
      var rest := PointingAt(ds[..n], x, link);
      if Pointer(ds[n], link) == x then rest + [ds[n]] else rest
  }

  lemma {:induction false} PointingMembers(ds: seq<NvDataSet>, x: NvInstance, link: Link)
    ensures forall d :: d in PointingAt(ds, x, link) <==> d in ds && Pointer(d, link) == x
    ensures Distinct(ds) ==> Distinct(PointingAt(ds, x, link))
  {
    if ds != [] {
      var n := |ds| - 1;
      PointingMembers(ds[..n], x, link);
      assert ds == ds[..n] + [ds[n]];
      if Distinct(ds) {
        assert ds[n] !in ds[..n];
      }
    }
  }

  lemma {:induction false} ReferringMember(ds: seq<NvDataSet>, fs: seq<DataSet>, link: Link, name: string, k: nat)
    requires k < |ds| == |fs| && Ref(fs[k], link) == Some(name)
    ensures ds[k] in Referring(ds, fs, link, name)
  {
    var n := |ds| - 1;
    if k < n {
      assert ds[..n][k] == ds[k] && fs[..n][k] == fs[k];
      ReferringMember(ds[..n], fs[..n], link, name, k);
    }
  }

  /** Each data set points to what its reference means. */
  ghost predicate LinkedForward(xs: seq<NvInstance>, ds: seq<NvDataSet>, fs: seq<DataSet>, link: Link)
    reads (set d | d in ds)
  {
    |ds| == |fs| && forall k :: 0 <= k < |ds| ==> Pointer(ds[k], link) == InstanceMeant(xs, Ref(fs[k], link))
  }

  /** No data set refers to a name that two instances share. */
  ghost predicate Unambiguous(xs: seq<NvInstance>, fs: seq<DataSet>, link: Link) {
    forall k, i, j :: 0 <= k < |fs| && 0 <= i < j < |xs| && Ref(fs[k], link) == Some(xs[i].name) ==>
      xs[j].name != xs[i].name
  }

  /** An unambiguous reference is to x exactly when it is x's name. */
  lemma MeansByName(xs: seq<NvInstance>, fs: seq<DataSet>, link: Link, k: nat, i: nat)
    requires k < |fs| && i < |xs| && Distinct(xs) && Unambiguous(xs, fs, link)
    ensures InstanceMeant(xs, Ref(fs[k], link)) == xs[i] <==> Ref(fs[k], link) == Some(xs[i].name)
  {
    var ref := Ref(fs[k], link);
    if ref.Some? {
      var names := InstanceNames(xs);
      var l := LastIndex(names, ref.value);
      if ref.value == xs[i].name {
        assert names[i] == ref.value;
        assert l >= i && xs[l].name == xs[i].name;
      }
    }
  }

  lemma {:induction false} ReferringIsPointing(xs: seq<NvInstance>, ds: seq<NvDataSet>, fs: seq<DataSet>, link: Link,
                                             i: nat)
    requires i < |xs| && Distinct(xs) && LinkedForward(xs, ds, fs, link) && Unambiguous(xs, fs, link)
    ensures Referring(ds, fs, link, xs[i].name) == PointingAt(ds, xs[i], link)
    decreases |ds|
  {
    if ds != [] {
      var n := |ds| - 1;
      assert forall k :: 0 <= k < n ==> ds[..n][k] == ds[k] && fs[..n][k] == fs[k];
      ReferringIsPointing(xs, ds[..n], fs[..n], link, i);
      MeansByName(xs, fs, link, n, i);
    }
  }

  /** Every instance lists exactly the data sets that point to it, in file order, if and only
  if no data set refers to a name that two instances share. */
  lemma BackLinksAreForwardLinks(xs: seq<NvInstance>, ds: seq<NvDataSet>, fs: seq<DataSet>, link: Link)
    requires Distinct(xs) && LinkedBack(xs, ds, fs, link) && LinkedForward(xs, ds, fs, link)
    ensures (forall i :: 0 <= i < |xs| ==> xs[i].dsets == PointingAt(ds, xs[i], link)) <==> Unambiguous(xs, fs, link)
  {
    if Unambiguous(xs, fs, link) {
      forall i | 0 <= i < |xs|
        ensures xs[i].dsets == PointingAt(ds, xs[i], link)
      {
        ReferringIsPointing(xs, ds, fs, link, i);
      }
    } else {
      var k, i, j :| 0 <= k < |fs| && 0 <= i < j < |xs|
        && Ref(fs[k], link) == Some(xs[i].name) && xs[j].name == xs[i].name;
      ReferringMember(ds, fs, link, xs[i].name, k);
      PointingMembers(ds, xs[i], link);
      assert InstanceNames(xs)[j] == xs[i].name;
    }
  }

  /** The same for the configuration that create_conf builds. */
  lemma LinksAgree(c: Conf, input: Input)
    requires Built(c, input)
    ensures (forall i :: 0 <= i < |c.storages| ==> c.storages[i].dsets == PointingAt(c.dsets, c.storages[i], ToStorage))
      <==> Unambiguous(c.storages, input.dsets, ToStorage)
    ensures (forall i :: 0 <= i < |c.sensors| ==> c.sensors[i].dsets == PointingAt(c.dsets, c.sensors[i], ToSensor))
      <==> Unambiguous(c.sensors, input.dsets, ToSensor)
  {
    BackLinksAreForwardLinks(c.storages, c.dsets, input.dsets, ToStorage);
    BackLinksAreForwardLinks(c.sensors, c.dsets, input.dsets, ToSensor);
  }

  predicate DistinctShortNames(fs: seq<Instance>) {
    && (forall i :: 0 <= i < |fs| ==> |fs[i].name| < NAME_LEN)
    && (forall i, j :: 0 <= i < j < |fs| ==> fs[i].name != fs[j].name)
  }

  lemma DistinctNamesAreUnambiguous(xs: seq<NvInstance>, fs: seq<Instance>, ps: seq<NvPlugin>, ds: seq<DataSet>,
                                    link: Link)
    requires InstancesBuilt(xs, fs, ps) && DistinctShortNames(fs)
    ensures Unambiguous(xs, ds, link)
  {
    assert forall i :: 0 <= i < |xs| ==> InstanceBuilt(xs[i], fs[i], ps) && xs[i].name == fs[i].name;
  }

  /** With distinct names of at most 255 characters, a data set is on the list of a storage, and
  of a sensor, exactly once if it points to it, and not otherwise. */
  lemma ListedOnceIffPointing(c: Conf, input: Input, d: NvDataSet, link: Link, i: nat)
    requires Built(c, input) && d in c.dsets
    requires DistinctShortNames(if link == ToSensor then input.sensors else input.storages)
    requires i < if link == ToSensor then |c.sensors| else |c.storages|
    ensures var x := if link == ToSensor then c.sensors[i] else c.storages[i];
      Distinct(x.dsets) && (d in x.dsets <==> Pointer(d, link) == x)
  {
    LinksAgree(c, input);
    if link == ToSensor {
      DistinctNamesAreUnambiguous(c.sensors, input.sensors, c.sensPlugins, input.dsets, ToSensor);
      PointingMembers(c.dsets, c.sensors[i], ToSensor);
    } else {
      DistinctNamesAreUnambiguous(c.storages, input.storages, c.storPlugins, input.dsets, ToStorage);
      PointingMembers(c.dsets, c.storages[i], ToStorage);
    }
  }

  // ---------------------------------------------------------------- ENUM

  datatype Line = SystemLine(sys: NvSystem) | DataLine(d: NvDataSet)

  /** The lines for one system's data sets. */
  function DataLines(ds: seq<NvDataSet>, sys: NvSystem): seq<Line>
    reads (set d | d in ds)
  {
    if ds == [] then []
    else
      var n := |ds| - 1;
      var rest := DataLines(ds[..n], sys);
      if ds[n].sys == sys then rest + [DataLine(ds[n])] else rest
  }

  function EnumLines(syss: seq<NvSystem>, ds: seq<NvDataSet>): seq<Line>
    reads (set d | d in ds)
  {
    if syss == [] then []
    else
      var n := |syss| - 1;
      EnumLines(syss[..n], ds) + ([SystemLine(syss[n])] + DataLines(ds, syss[n]))
  }

  /** The ENUM command: each system followed by its data sets. */
  method Enum(syss: seq<NvSystem>, ds: seq<NvDataSet>) returns (lines: seq<Line>)
    ensures lines == EnumLines(syss, ds)
  {
    lines := [];
    for i := 0 to |syss|
      invariant lines == EnumLines(syss[..i], ds)
    {
      assert syss[..i + 1][..i] == syss[..i];
      ghost var before := lines;
      lines := lines + [SystemLine(syss[i])];
      for j := 0 to |ds|
        invariant lines == before + ([SystemLine(syss[i])] + DataLines(ds[..j], syss[i]))
      {
        assert ds[..j + 1][..j] == ds[..j];
        if ds[j].sys == syss[i] {
          lines := lines + [DataLine(ds[j])];
        }
      }
      assert ds[..|ds|] == ds;
    }
    assert syss[..|syss|] == syss;
  }

  /** The systems listed, and the data sets listed. */
  function SystemsIn(lines: seq<Line>): seq<NvSystem> {
    if lines == [] then []
    else
      var n := |lines| - 1;
      var rest := SystemsIn(lines[..n]);
      if lines[n].SystemLine? then rest + [lines[n].sys] else rest
  }

  function DataIn(lines: seq<Line>): seq<NvDataSet> {
    if lines == [] then []
    else
      var n := |lines| - 1;
      var rest := DataIn(lines[..n]);
      if lines[n].DataLine? then rest + [lines[n].d] else rest
  }

  lemma InSnoc(a: seq<Line>, line: Line)
    ensures SystemsIn(a + [line]) == SystemsIn(a) + if line.SystemLine? then [line.sys] else []
    ensures DataIn(a + [line]) == DataIn(a) + if line.DataLine? then [line.d] else []
  {
    assert (a + [line])[..|a|] == a;
  }

  lemma {:induction false} InConcat(a: seq<Line>, b: seq<Line>)
    ensures SystemsIn(a + b) == SystemsIn(a) + SystemsIn(b) && DataIn(a + b) == DataIn(a) + DataIn(b)
    decreases |b|
  {
    if b == [] {
      assert a + b == a;
    } else {
      var front, line := b[..|b| - 1], b[|b| - 1];
      assert a + b == (a + front) + [line] && b == front + [line];
      InConcat(a, front);
      InSnoc(a + front, line);
      InSnoc(front, line);
    }
  }

  /** The data sets of one system. */
  function OfSystem(ds: seq<NvDataSet>, sys: NvSystem): seq<NvDataSet>
    reads (set d | d in ds)
  {
    if ds == [] then []
    else
      var n := |ds| - 1;
      var rest := OfSystem(ds[..n], sys);
      if ds[n].sys == sys then rest + [ds[n]] else rest
  }

  lemma {:induction false} DataLinesList(ds: seq<NvDataSet>, sys: NvSystem)
    ensures SystemsIn(DataLines(ds, sys)) == [] && DataIn(DataLines(ds, sys)) == OfSystem(ds, sys)
  {
    if ds != [] {
      var n := |ds| - 1;
      DataLinesList(ds[..n], sys);
      if ds[n].sys == sys {
        InConcat(DataLines(ds[..n], sys), [DataLine(ds[n])]);
        assert [DataLine(ds[n])][..0] == [];
      }
    }
  }

  /** The data sets whose system is one of these. */
  function FromSystems(ds: seq<NvDataSet>, syss: seq<NvSystem>): seq<NvDataSet>
    reads (set d | d in ds)
  {
    if ds == [] then []
    else
      var n := |ds| - 1;
      var rest := FromSystems(ds[..n], syss);
      if ds[n].sys in syss then rest + [ds[n]] else rest
  }

  lemma {:induction false} OneMoreSystem(ds: seq<NvDataSet>, syss: seq<NvSystem>, sys: NvSystem)
    requires sys !in syss
    ensures multiset(FromSystems(ds, syss + [sys])) == multiset(FromSystems(ds, syss)) + multiset(OfSystem(ds, sys))
  {
    if ds != [] {
      var n := |ds| - 1;
      OneMoreSystem(ds[..n], syss, sys);
    }
  }

  lemma {:induction false} FromAll(ds: seq<NvDataSet>, syss: seq<NvSystem>)
    requires forall k :: 0 <= k < |ds| ==> ds[k].sys in syss
    ensures FromSystems(ds, syss) == ds
  {
    if ds != [] {
      var n := |ds| - 1;
      assert forall k :: 0 <= k < n ==> ds[..n][k] == ds[k];
      FromAll(ds[..n], syss);
      assert ds == ds[..n] + [ds[n]];
    }
  }

  lemma {:induction false} FromNone(ds: seq<NvDataSet>)
    ensures FromSystems(ds, []) == []
  {
    if ds != [] {
      FromNone(ds[..|ds| - 1]);
    }
  }

  /** What ENUM lists, for any systems. */
  lemma {:induction false} EnumLists(syss: seq<NvSystem>, ds: seq<NvDataSet>)
    requires Distinct(syss)
    ensures SystemsIn(EnumLines(syss, ds)) == syss
    ensures multiset(DataIn(EnumLines(syss, ds))) == multiset(FromSystems(ds, syss))
    decreases |syss|
  {
    if syss == [] {
      FromNone(ds);
    } else {
      var n := |syss| - 1;
      var sys := syss[n];
      assert syss == syss[..n] + [sys] && sys !in syss[..n];
      EnumLists(syss[..n], ds);
      SystemLines(sys, ds);
      InConcat(EnumLines(syss[..n], ds), [SystemLine(sys)] + DataLines(ds, sys));
      OneMoreSystem(ds, syss[..n], sys);
    }
  }

  lemma SystemLines(sys: NvSystem, ds: seq<NvDataSet>)
    ensures SystemsIn([SystemLine(sys)] + DataLines(ds, sys)) == [sys]
    ensures DataIn([SystemLine(sys)] + DataLines(ds, sys)) == OfSystem(ds, sys)
  {
    InConcat([SystemLine(sys)], DataLines(ds, sys));
    DataLinesList(ds, sys);
    assert [SystemLine(sys)][..0] == [];
  }

  lemma {:induction false} DataLinesAre(ds: seq<NvDataSet>, sys: NvSystem)
    ensures forall k :: 0 <= k < |DataLines(ds, sys)| ==>
      DataLines(ds, sys)[k].DataLine? && DataLines(ds, sys)[k].d.sys == sys
  {
    if ds != [] {
      DataLinesAre(ds[..|ds| - 1], sys);
    }
  }

  /** Line k stands under line i: only data sets come between. */
  ghost predicate Under(lines: seq<Line>, i: nat, k: nat)
    requires k < |lines|
  {
    i < k && lines[i].SystemLine? && forall m :: i < m <= k ==> lines[m].DataLine?
  }

  /** Every data set stands under its own system. */
  lemma {:induction false} EnumIsGrouped(syss: seq<NvSystem>, ds: seq<NvDataSet>, k: nat) returns (i: nat)
    requires k < |EnumLines(syss, ds)| && EnumLines(syss, ds)[k].DataLine?
    ensures Under(EnumLines(syss, ds), i, k)
    ensures EnumLines(syss, ds)[k].d.sys == EnumLines(syss, ds)[i].sys
    decreases |syss|
  {
    var n := |syss| - 1;
    var before, mine := EnumLines(syss[..n], ds), DataLines(ds, syss[n]);
    var lines := EnumLines(syss, ds);
    if k < |before| {
      assert forall m :: 0 <= m < |before| ==> lines[m] == before[m];
      i := EnumIsGrouped(syss[..n], ds, k);
    } else {
      i := |before|;
      DataLinesAre(ds, syss[n]);
      assert forall m :: i < m < |lines| ==> lines[m] == mine[m - i - 1];
    }
  }

  /** The data sets of a system are in list order, and none of them is missing. */
  lemma {:induction false} OfSystemInOrder(ds: seq<NvDataSet>, sys: NvSystem) returns (at: seq<nat>)
    ensures |at| == |OfSystem(ds, sys)|
    ensures forall a :: 0 <= a < |at| ==> at[a] < |ds| && ds[at[a]] == OfSystem(ds, sys)[a]
    ensures forall a, b :: 0 <= a < b < |at| ==> at[a] < at[b]
    ensures forall k :: 0 <= k < |ds| ==> (k in at <==> ds[k].sys == sys)
  {
    if ds == [] {
      at := [];
    } else {
      var n := |ds| - 1;
      at := OfSystemInOrder(ds[..n], sys);
      if ds[n].sys == sys {
        at := at + [n];
      }
    }
  }

  lemma {:induction false} DataLinesAt(ds: seq<NvDataSet>, sys: NvSystem)
    ensures |DataLines(ds, sys)| == |OfSystem(ds, sys)|
    ensures forall k :: 0 <= k < |DataLines(ds, sys)| ==> DataLines(ds, sys)[k] == DataLine(OfSystem(ds, sys)[k])
  {
    if ds != [] {
      DataLinesAt(ds[..|ds| - 1], sys);
    }
  }

  lemma {:induction false} EnumPrefix(syss: seq<NvSystem>, ds: seq<NvDataSet>, i: nat)
    requires i <= |syss|
    ensures EnumLines(syss[..i], ds) <= EnumLines(syss, ds)
    decreases |syss|
  {
    if i == |syss| {
      assert syss[..i] == syss;
    } else {
      var n := |syss| - 1;
      assert syss[..n][..i] == syss[..i];
      EnumPrefix(syss[..n], ds, i);
    }
  }

  /** What ENUM prints for one system. */
  function Block(ds: seq<NvDataSet>, sys: NvSystem): seq<Line>
    reads (set d | d in ds)
  {
    [SystemLine(sys)] + DataLines(ds, sys)
  }

  lemma BlockIs(ds: seq<NvDataSet>, sys: NvSystem)
    ensures var block, mine := Block(ds, sys), OfSystem(ds, sys);
      && |block| == 1 + |mine| && block[0] == SystemLine(sys)
      && forall k :: 0 <= k < |mine| ==> block[1 + k] == DataLine(mine[k])
  {
    DataLinesAt(ds, sys);
  }

  lemma BlockFollows(syss: seq<NvSystem>, ds: seq<NvDataSet>, i: nat)
    requires i < |syss|
    ensures EnumLines(syss[..i], ds) + Block(ds, syss[i]) == EnumLines(syss[..i + 1], ds)
    ensures EnumLines(syss[..i], ds) + Block(ds, syss[i]) <= EnumLines(syss, ds)
  {
    assert syss[..i + 1][..i] == syss[..i];
    EnumPrefix(syss, ds, i + 1);
  }

  lemma InPrefix(before: seq<Line>, block: seq<Line>, lines: seq<Line>)
    requires before + block <= lines
    ensures |before| + |block| <= |lines|
    ensures forall k :: 0 <= k < |block| ==> lines[|before| + k] == block[k]
  {
    forall k | 0 <= k < |block|
      ensures lines[|before| + k] == block[k]
    {
      assert (before + block)[|before| + k] == block[k];
    }
  }

  lemma BlockAt(before: seq<Line>, block: seq<Line>, lines: seq<Line>, mine: seq<NvDataSet>)
    requires before + block <= lines && |block| == 1 + |mine|
    requires forall k :: 0 <= k < |mine| ==> block[1 + k] == DataLine(mine[k])
    ensures |before| + 1 + |mine| <= |lines| && lines[|before|] == block[0]
    ensures forall k :: 0 <= k < |mine| ==> lines[|before| + 1 + k] == DataLine(mine[k])
  {
    InPrefix(before, block, lines);
    forall k | 0 <= k < |mine|
      ensures lines[|before| + 1 + k] == DataLine(mine[k])
    {
      assert lines[|before| + (1 + k)] == block[1 + k];
    }
  }

  /** The i-th block of the lines: a system's line at position at, and its data sets up to next. */
  ghost predicate BlockStands(lines: seq<Line>, at: nat, next: nat, sys: NvSystem, mine: seq<NvDataSet>) {
    && next == at + 1 + |mine| <= |lines| && lines[at] == SystemLine(sys)
    && (forall k :: 0 <= k < |mine| ==> lines[at + 1 + k] == DataLine(mine[k]))
  }

  lemma BlockStandsAt(syss: seq<NvSystem>, ds: seq<NvDataSet>, i: nat)
    requires i < |syss|
    ensures BlockStands(EnumLines(syss, ds), |EnumLines(syss[..i], ds)|, |EnumLines(syss[..i + 1], ds)|,
                        syss[i], OfSystem(ds, syss[i]))
  {
    BlockFollows(syss, ds, i);
    BlockIs(ds, syss[i]);
    BlockAt(EnumLines(syss[..i], ds), Block(ds, syss[i]), EnumLines(syss, ds), OfSystem(ds, syss[i]));
  }

  /** Under the line of each system stand its own data sets, in list order, up to the line of the
  next system or the end. */
  lemma EnumBlock(syss: seq<NvSystem>, ds: seq<NvDataSet>, i: nat) returns (at: nat, next: nat)
    requires i < |syss|
    ensures BlockStands(EnumLines(syss, ds), at, next, syss[i], OfSystem(ds, syss[i]))
    ensures at == |EnumLines(syss[..i], ds)| && next == |EnumLines(syss[..i + 1], ds)|
    ensures if i + 1 == |syss| then next == |EnumLines(syss, ds)|
            else next < |EnumLines(syss, ds)| && EnumLines(syss, ds)[next] == SystemLine(syss[i + 1])
  {
    BlockStandsAt(syss, ds, i);
    at, next := |EnumLines(syss[..i], ds)|, |EnumLines(syss[..i + 1], ds)|;
    if i + 1 == |syss| {
      assert syss[..i + 1] == syss;
    } else {
      BlockStandsAt(syss, ds, i + 1);
    }
  }

  /** After a successful create_conf every data set has one of the listed systems. */
  lemma SystemsResolved(c: Conf, input: Input)
    requires Built(c, input) && Resolvable(input)
    ensures forall k :: 0 <= k < |c.dsets| ==> c.dsets[k].sys != null && c.dsets[k].sys in c.systems
  {
    forall k | 0 <= k < |c.dsets|
      ensures c.dsets[k].sys != null && c.dsets[k].sys in c.systems
    {
      assert DataSetBuilt(c.dsets[k], input.dsets[k], c.sensors, c.storages, c.systems);
      assert DataSetResolvable(input, input.dsets[k]);
      SystemMeans(c.systems, input.systems, input.dsets[k].system);
    }
  }

  /** Then ENUM emits every system once, in order, and every data set once, even when system
  names repeat. */
  lemma EnumIsComplete(c: Conf, input: Input)
    requires Built(c, input) && Resolvable(input)
    ensures SystemsIn(EnumLines(c.systems, c.dsets)) == c.systems
    ensures multiset(DataIn(EnumLines(c.systems, c.dsets))) == multiset(c.dsets)
  {
    SystemsResolved(c, input);
    EnumLists(c.systems, c.dsets);
    FromAll(c.dsets, c.systems);
  }
}
