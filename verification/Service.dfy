/** FETCH from the wire to the data set: client_thread of src/plugins/proto/net.c looks the
requested names up in the configuration that create_conf built.
 */
module Service {
  import opened LineReader
  import opened Request
  import opened Linker

  predicate Named(d: NvDataSet, system: string, dset: string)
    reads d
    requires d.sys != null
  {
    d.name == dset && d.sys.name == system
  }

  /** Data set k has both names, and none before it has. */
  ghost predicate IsFirst(ds: seq<NvDataSet>, k: nat, system: string, dset: string)
    requires k < |ds| && forall j :: 0 <= j < |ds| ==> ds[j].sys != null
    reads (set d | d in ds)
  {
    Named(ds[k], system, dset) && forall j :: 0 <= j < k ==> !Named(ds[j], system, dset)
  }

  /** The search of FETCH: the first data set with both names. */
  method FindDataSet(ds: seq<NvDataSet>, system: string, dset: string) returns (found: NvDataSet?)
    requires forall k :: 0 <= k < |ds| ==> ds[k].sys != null
    ensures found == null <==> forall k :: 0 <= k < |ds| ==> !Named(ds[k], system, dset)
    ensures found != null ==>
      exists k :: 0 <= k < |ds| && ds[k] == found && IsFirst(ds, k, system, dset)
  {
    for i := 0 to |ds|
      invariant forall k :: 0 <= k < i ==> !Named(ds[k], system, dset)
    {
      var d := ds[i];
      if d.name == dset && d.sys.name == system {
        return d;
      }
    }
    return null;
  }

  /** A line asks for these names. */
  ghost predicate AskedFor(line: string, system: string, dset: string) {
    Serve(line).Fetch? && Serve(line).system == system && Serve(line).dset == dset
  }

  /** A data set of the configuration can be asked for exactly when its name and its system's
  name are single words in lower case: one with an upper-case letter never can. */
  lemma FetchableNames(system: string, dset: string)
    requires |system| < NAME_LEN && |dset| < NAME_LEN
    ensures (exists stream: string :: AskedFor(Piece(stream, ROOM), system, dset)) <==> IsWord(system) && IsWord(dset)
  {
    if stream: string :| AskedFor(Piece(stream, ROOM), system, dset) {
      ServedIsReadable(Piece(stream, ROOM));
    }
    if IsWord(system) && IsWord(dset) {
      var stream := Format(system, dset, 0, 0, 0);
      assert Dec(0) == "0";
      JoinLength(system, dset);
      RequestRoundTrip(system, dset, 0, 0, 0, "");
      assert stream + "" == stream;
      assert AskedFor(Piece(stream, ROOM), system, dset);
    }
  }

  lemma JoinCons(word: string, words: seq<string>)
    ensures |Join([word] + words)| == |word| + 1 + |Join(words)|
  {
    assert ([word] + words)[1..] == words;
  }

  lemma JoinLength(system: string, dset: string)
    ensures |Format(system, dset, 0, 0, 0)| == |system| + |dset| + 15
  {
    var zero := Dec(0);
    assert |zero| == 1;
    JoinCons(zero, []);
    JoinCons(zero, [zero]);
    JoinCons(dset, [zero] + [zero]);
    JoinCons(system, [dset] + ([zero] + [zero]));
    JoinCons("FETCH", [system] + ([dset] + ([zero] + [zero])));
    assert ["FETCH", system, dset, zero, zero] == ["FETCH"] + ([system] + ([dset] + ([zero] + [zero])));
  }
}
