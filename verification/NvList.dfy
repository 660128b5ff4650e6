/** The intrusive circular list of src/nvlist.h, on the heap.

A list is its sentinel node, the one node whose data is absent.  An empty list
has null links in the sentinel; a non-empty one is a ring through it.

Freeing leaves nothing behind in a node: a program that reads or writes a node after freeing
it does not verify.
 */
module NvList {
  import opened Wrappers

  /** struct _nv_node. */
  datatype Cell<T> = Cell(next: Node?<T>, prev: Node?<T>, data: Option<T>)

  class Node<T> {
    /** None once the node has been given back to the allocator. */
    var cell: Option<Cell<T>>

    // What contracts say of a node.

    ghost predicate Freed()
      reads this
    {
      cell.None?
    }

    ghost function Succ(): Node?<T>
      reads this
    {
      if cell.Some? then cell.value.next else null
    }

    ghost function Pred(): Node?<T>
      reads this
    {
      if cell.Some? then cell.value.prev else null
    }

    ghost function Value(): Option<T>
      reads this
    {
      if cell.Some? then cell.value.data else None
    }

    constructor (data: Option<T>)
      ensures cell == Some(Cell(null, null, data))
    {
      cell := Some(Cell(null, null, data));
    }

    // What programs do with one.

    function Next(): (n: Node?<T>)
      requires cell.Some?
      reads this
      ensures n == Succ()
    {
      cell.value.next
    }

    function Prev(): (n: Node?<T>)
      requires cell.Some?
      reads this
      ensures n == Pred()
    {
      cell.value.prev
    }

    function Data(): (x: Option<T>)
      requires cell.Some?
      reads this
      ensures x == Value()
    {
      cell.value.data
    }

    method SetNext(n: Node?<T>)
      requires cell.Some?
      modifies this
      ensures cell == Some(old(cell.value).(next := n))
    {
      cell := Some(cell.value.(next := n));
    }

    method SetPrev(n: Node?<T>)
      requires cell.Some?
      modifies this
      ensures cell == Some(old(cell.value).(prev := n))
    {
      cell := Some(cell.value.(prev := n));
    }

    /** free: once only, and whatever the node held is gone. */
    method Free()
      requires cell.Some?
      modifies this
      ensures cell == None
    {
      cell := None;
    }
  }

  /** nv_free of a variable: what it points at is freed, if anything, and it points at nothing. */
  method NvFree<T>(stale: Node?<T>) returns (cleared: Node?<T>)
    requires stale != null ==> !stale.Freed()
    modifies stale
    ensures cleared == null && (stale != null ==> stale.Freed())
  {
    if stale != null {
      stale.Free();
    }
    cleared := null;
  }

  /** Position i on the way round the ring: the sentinel is met at both ends. */
  ghost function At<T>(head: Node<T>, ns: seq<Node<T>>, i: int): Node<T> {
    if 0 <= i < |ns| then ns[i] else head
  }

  /** The sentinel carries no data; the elements do, are distinct, and none is freed. */
  ghost predicate Elements<T>(head: Node<T>, ns: seq<Node<T>>)
    reads head, ns
  {
    && head.Value().None? && !head.Freed() && head !in ns
    && (forall m :: m in ns ==> m.Value().Some?)
    && Distinct(ns)
  }

  /** Neighbouring positions point at each other. */
  ghost predicate Linked<T>(head: Node<T>, ns: seq<Node<T>>)
    reads head, ns
  {
    forall i, j {:trigger At(head, ns, i), At(head, ns, j)} :: -1 <= i && j == i + 1 <= |ns| ==>
      At(head, ns, i).Succ() == At(head, ns, j) && At(head, ns, j).Pred() == At(head, ns, i)
  }

  /** As Linked, but nothing is said of positions k - 1 and k. */
  ghost predicate LinkedBut<T>(head: Node<T>, ns: seq<Node<T>>, k: int)
    reads head, ns
  {
    forall i, j {:trigger At(head, ns, i), At(head, ns, j)} :: -1 <= i && j == i + 1 <= |ns| && j != k ==>
      At(head, ns, i).Succ() == At(head, ns, j) && At(head, ns, j).Pred() == At(head, ns, i)
  }

  ghost predicate Ring<T>(head: Node<T>, ns: seq<Node<T>>)
    reads head, ns
  {
    && Elements(head, ns)
    && if ns == [] then head.Succ() == null && head.Pred() == null else Linked(head, ns)
  }

  ghost predicate Carries<T>(ns: seq<Node<T>>, xs: seq<T>)
    reads ns
  {
    && |xs| == |ns|
    && (forall i {:trigger ns[i].Value()} {:trigger xs[i]} :: 0 <= i < |ns| ==> ns[i].Value() == Some(xs[i]))
  }

  /** The ring through head visits exactly ns and holds exactly the data xs. */
  ghost predicate Lists<T>(head: Node<T>, ns: seq<Node<T>>, xs: seq<T>)
    reads head, ns
  {
    Ring(head, ns) && Carries(ns, xs)
  }

  /** Every node of the ring, the sentinel included. */
  ghost function Cells<T>(head: Node<T>, ns: seq<Node<T>>): set<Node<T>> {
    {head} + set m | m in ns
  }

  ghost function InsertAt<X>(s: seq<X>, k: nat, x: X): (r: seq<X>)
    requires k <= |s|
    ensures |r| == |s| + 1
    ensures x in r && (forall y :: y in s ==> y in r) && (forall y :: y in r ==> y == x || y in s)
    ensures Distinct(s) && x !in s ==> Distinct(r)
  {
    var r := s[..k] + [x] + s[k..];
    assert forall i {:trigger r[i]} :: 0 <= i < |r| ==> r[i] == if i < k then s[i] else if i == k then x else s[i - 1];
    assert forall i {:trigger s[i]} :: 0 <= i < |s| ==> s[i] == r[if i < k then i else i + 1];
    assert r[k] == x;
    r
  }

  ghost function RemoveAt<X>(s: seq<X>, k: nat): (r: seq<X>)
    requires k < |s|
    ensures |r| == |s| - 1
    ensures forall y :: y in r ==> y in s
    ensures Distinct(s) ==> Distinct(r) && s[k] !in r
  {
    var r := s[..k] + s[k + 1..];
    assert forall i {:trigger r[i]} :: 0 <= i < |r| ==> r[i] == if i < k then s[i] else s[i + 1];
    r
  }

  /** Going once round, no node is met twice. */
  lemma AtInjective<T>(head: Node<T>, ns: seq<Node<T>>, i: int, j: int)
    requires Distinct(ns) && head !in ns && i != j
    requires (-1 <= i < |ns| && -1 <= j < |ns|) || (0 <= i <= |ns| && 0 <= j <= |ns|)
    ensures At(head, ns, i) != At(head, ns, j)
  {
  }

  lemma AtInsert<T>(head: Node<T>, ns: seq<Node<T>>, k: nat, n: Node<T>, i: int)
    requires k <= |ns| && -1 <= i <= |ns| + 1
    ensures At(head, InsertAt(ns, k, n), i) ==
            if i < k then At(head, ns, i) else if i == k then n else At(head, ns, i - 1)
  {
  }

  lemma AtRemove<T>(head: Node<T>, ns: seq<Node<T>>, k: nat, i: int)
    requires k < |ns| && -1 <= i <= |ns| - 1
    ensures At(head, RemoveAt(ns, k), i) == if i < k then At(head, ns, i) else At(head, ns, i + 1)
  {
  }

  /** The ring is never empty with links, nor non-empty without. */
  lemma NullLinksExactlyWhenEmpty<T>(head: Node<T>, ns: seq<Node<T>>)
    requires Ring(head, ns)
    ensures head.Succ() == null <==> ns == []
    ensures head.Pred() == null <==> ns == []
  {
    assert ns != [] ==> At(head, ns, -1).Succ() == At(head, ns, 0);
    assert ns != [] ==> At(head, ns, |ns|).Pred() == At(head, ns, |ns| - 1);
  }

  /** Following next and then prev, or prev and then next, comes back to the start. */
  lemma NextPrevInverse<T>(head: Node<T>, ns: seq<Node<T>>, n: Node<T>)
    requires Ring(head, ns) && ns != [] && (n == head || n in ns)
    ensures n.Succ() != null && n.Succ().Pred() == n
    ensures n.Pred() != null && n.Pred().Succ() == n
  {
    var i := if n == head then -1 else var p :| 0 <= p < |ns| && ns[p] == n; p;
    assert At(head, ns, i) == n;
    var j := if i == -1 then |ns| else i;
    assert n.Succ() == At(head, ns, i + 1);
    assert At(head, ns, j) == n && n.Pred() == At(head, ns, j - 1);
  }

  /** list_del's neighbour test recognises the last element, and nothing else. */
  lemma NeighbourTestMeansLast<T>(head: Node<T>, ns: seq<Node<T>>, k: nat)
    requires Ring(head, ns) && k < |ns|
    ensures ns[k].Pred() == At(head, ns, k - 1) && ns[k].Succ() == At(head, ns, k + 1)
    ensures ns[k].Pred().Value().None? && ns[k].Succ().Value().None? <==> |ns| == 1
  {
    assert At(head, ns, k) == ns[k];
  }

  /** Two splices meet: n fits between positions k - 1 and k. */
  lemma Spliced<T>(head: Node<T>, ns: seq<Node<T>>, k: nat, n: Node<T>)
    requires k <= |ns| && LinkedBut(head, ns, k)
    requires At(head, ns, k - 1).Succ() == n && n.Pred() == At(head, ns, k - 1)
    requires n.Succ() == At(head, ns, k) && At(head, ns, k).Pred() == n
    requires Elements(head, ns) && n.Value().Some? && n !in ns
    ensures Ring(head, InsertAt(ns, k, n))
  {
    var ms := InsertAt(ns, k, n);
    forall i, j | -1 <= i && j == i + 1 <= |ms|
      ensures At(head, ms, i).Succ() == At(head, ms, j) && At(head, ms, j).Pred() == At(head, ms, i)
    {
      AtInsert(head, ns, k, n, i);
      AtInsert(head, ns, k, n, j);
    }
  }

  /** The four pointer assignments of list_insert, for either form of the list. */
  method LinkAfter<T>(p: Node<T>, n: Node<T>, ghost head: Node<T>, ghost ns: seq<Node<T>>, ghost k: int)
    requires Ring(head, ns) && -1 <= k < |ns| && p == At(head, ns, k)
    requires n.Value().Some? && n !in ns
    modifies n, Cells(head, ns)
    ensures Elements(head, ns) && LinkedBut(head, ns, k + 1)
    ensures At(head, ns, k).Succ() == n && n.Pred() == At(head, ns, k)
    ensures n.Succ() == At(head, ns, k + 1) && At(head, ns, k + 1).Pred() == n
    ensures n.Value() == old(n.Value()) && forall m :: m in ns ==> m.Value() == old(m.Value())
  {
    assert p != head ==> p in ns && p.Value().Some?;
    assert ns != [] ==> p.Succ() == At(head, ns, k + 1) && At(head, ns, k + 1).Pred() == p;
    if p.Next() == null {
      p.SetNext(n);
      p.SetPrev(n);
      n.SetNext(p);
      n.SetPrev(p);
    } else {
      var t := p.Next();
      assert !t.Freed();
      n.SetNext(t);
      n.SetPrev(p);
      p.SetNext(n);
      t.SetPrev(n);
      forall i, j | -1 <= i && j == i + 1 <= |ns| && j != k + 1
        ensures At(head, ns, i).Succ() == At(head, ns, j) && At(head, ns, j).Pred() == At(head, ns, i)
      {
        AtInjective(head, ns, i, k);
        AtInjective(head, ns, j, k + 1);
      }
    }
  }

  /** list_insert: put n after the node at position k of the ring ns. */
  method ListInsert<T>(p: Node?<T>, n: Node?<T>, ghost head: Node<T>, ghost ns: seq<Node<T>>, ghost k: int)
    requires p != null && n != null ==>
      && Ring(head, ns) && -1 <= k < |ns| && p == At(head, ns, k)
      && n.Value().Some? && n !in ns
    modifies if p == null || n == null then {} else {n} + Cells(head, ns)
    ensures p != null && n != null ==>
      && Ring(head, InsertAt<Node<T>>(ns, k + 1, n))
      && n.Value() == old(n.Value())
      && (forall m :: m in ns ==> m.Value() == old(m.Value()))
  {
    if p == null || n == null {
      return;
    }
    LinkAfter(p, n, head, ns, k);
    Spliced(head, ns, k + 1, n);
  }

  /** list_append: n becomes the last element. */
  method ListAppend<T>(l: Node?<T>, n: Node?<T>, ghost ns: seq<Node<T>>, ghost xs: seq<T>)
    requires l != null && n != null ==>
      && Lists(l, ns, xs) && n.Value().Some? && n !in ns
    modifies if l == null || n == null then {} else {n} + Cells<T>(l, ns)
    ensures l != null && n != null ==>
      && n.Value() == old(n.Value())
      && Lists(l, ns + [n], xs + [n.Value().value])
  {
    if l == null || n == null {
      return;
    }
    NullLinksExactlyWhenEmpty(l, ns);
    if l.Next() == null {
      ListInsert(l, n, l, ns, -1);
      assert InsertAt<Node<T>>(ns, 0, n) == ns + [n];
    } else {
      assert At(l, ns, |ns|).Pred() == At(l, ns, |ns| - 1);
      ListInsert(l.Prev(), n, l, ns, |ns| - 1);
      assert InsertAt<Node<T>>(ns, |ns|, n) == ns + [n];
    }
  }

  /** Closing the gap at position k leaves the ring without it. */
  lemma Unspliced<T>(head: Node<T>, ns: seq<Node<T>>, k: nat)
    requires k < |ns|
    requires forall i, j {:trigger At(head, ns, i), At(head, ns, j)} ::
      -1 <= i && j == i + 1 <= |ns| && i != k && j != k ==>
        At(head, ns, i).Succ() == At(head, ns, j) && At(head, ns, j).Pred() == At(head, ns, i)
    requires At(head, ns, k - 1).Succ() == At(head, ns, k + 1) && At(head, ns, k + 1).Pred() == At(head, ns, k - 1)
    ensures Linked(head, RemoveAt(ns, k))
  {
    var ms := RemoveAt(ns, k);
    forall i, j | -1 <= i && j == i + 1 <= |ms|
      ensures At(head, ms, i).Succ() == At(head, ms, j) && At(head, ms, j).Pred() == At(head, ms, i)
    {
      AtRemove(head, ns, k, i);
      AtRemove(head, ns, k, j);
    }
  }

  lemma CarriesRemoved<T>(ns: seq<Node<T>>, xs: seq<T>, k: nat)
    requires Carries(ns, xs) && k < |ns|
    ensures Carries(RemoveAt(ns, k), RemoveAt(xs, k))
  {
  }

  /** The pointer assignments of list_del: the neighbours of n close the gap. */
  method Unhook<T>(n: Node<T>, ghost head: Node<T>, ghost ns: seq<Node<T>>, ghost k: nat)
    requires Ring(head, ns) && k < |ns| && n == ns[k]
    modifies Cells(head, ns)
    ensures Ring(head, RemoveAt(ns, k)) && !n.Freed()
    ensures forall m :: m in ns ==> m.Value() == old(m.Value())
  {
    NeighbourTestMeansLast(head, ns, k);
    assert At(head, ns, k) == n;
    n.Prev().SetNext(n.Next());
    n.Next().SetPrev(n.Prev());
    Unspliced(head, ns, k);
    if n.Prev().Data().None? && n.Next().Data().None? {
      n.Next().SetNext(null);
      n.Next().SetPrev(null);
    }
  }

  /** list_del: unlink and free n, given nothing but n.  The sentinel and null are left alone. */
  method ListDel<T>(n: Node?<T>, ghost head: Node<T>, ghost ns: seq<Node<T>>, ghost xs: seq<T>, ghost k: nat)
    requires n != null ==> !n.Freed()
    requires n != null && n.Value().Some? ==> Lists(head, ns, xs) && k < |ns| && n == ns[k]
    modifies if n == null || n.Value().None? then {} else Cells(head, ns)
    ensures n != null && old(n.Value().Some?) ==> n.Freed() && Lists(head, RemoveAt(ns, k), RemoveAt(xs, k))
  {
    if n == null {
      return;
    }
    if n.Data().None? {
      return;
    }
    Unhook(n, head, ns, k);
    CarriesRemoved(ns, xs, k);
    var _ := NvFree(n);
  }

  lemma FirstMoves<X>(s: seq<X>)
    requires s != []
    ensures RemoveAt(s, 0) == s[1..]
  {
  }

  // ---------------------------------------------------------------- deleting behind oneself

  /** What a loop that deletes behind itself has left of s when it stands at position k. */
  ghost function Left<X>(s: seq<X>, k: nat): seq<X>
    requires k <= |s|
  {
    if k == 0 then s else s[k - 1..]
  }

  /** The loop stands at i, position k of ns, and came from t; what lies before t is freed. */
  ghost predicate Behind<T>(head: Node<T>, ns: seq<Node<T>>, xs: seq<T>, k: nat, t: Node?<T>, i: Node?<T>)
    reads head, ns
  {
    && k <= |ns| == |xs|
    && Lists(head, Left(ns, k), Left(xs, k))
    && t == (if k == 0 then null else ns[k - 1])
    && i == (if ns == [] then null else At(head, ns, k))
    && (forall j {:trigger ns[j].Freed()} :: 0 <= j < k - 1 ==> ns[j].Freed())
  }

  lemma BehindStarts<T>(head: Node<T>, ns: seq<Node<T>>, xs: seq<T>)
    requires Lists(head, ns, xs)
    ensures Behind(head, ns, xs, 0, null, head.Succ())
  {
    NullLinksExactlyWhenEmpty(head, ns);
    assert At(head, ns, -1) == head && (ns != [] ==> head.Succ() == At(head, ns, 0));
  }

  /** The loop goes on exactly while there are elements left, and then stands at a live one. */
  lemma BehindHere<T>(head: Node<T>, ns: seq<Node<T>>, xs: seq<T>, k: nat, t: Node?<T>, i: Node?<T>)
    requires Behind(head, ns, xs, k, t, i)
    ensures i != head && i != null <==> k < |ns|
    ensures k < |ns| ==> i == ns[k] && !i.Freed() && i.Value() == Some(xs[k])
  {
    if k < |ns| {
      var at := if k == 0 then 0 else 1;
      assert Left(ns, k)[at] == ns[k] && Left(xs, k)[at] == xs[k];
      assert ns[k] in Left(ns, k);
    }
  }

  lemma LeftNext<X>(s: seq<X>, k: nat)
    requires k < |s|
    ensures Left(s, k) != [] && Left(s, k + 1) == if k == 0 then Left(s, k) else Left(s, k)[1..]
  {
  }

  lemma AtLeft<T>(head: Node<T>, ns: seq<Node<T>>, k: nat)
    requires 0 < k <= |ns|
    ensures At(head, Left(ns, k), 0) == Left(ns, k)[0] == ns[k - 1]
    ensures At(head, Left(ns, k), 1) == At(head, ns, k)
  {
  }

  lemma GoneStayGone<T>(head: Node<T>, ns: seq<Node<T>>, xs: seq<T>, k: nat, t: Node?<T>, i: Node?<T>)
    requires Behind(head, ns, xs, k, t, i)
    ensures forall j :: 0 <= j < k - 1 ==> ns[j] !in Cells(head, Left(ns, k))
  {
    forall j | 0 <= j < k - 1
      ensures ns[j] !in Cells(head, Left(ns, k))
    {
      assert ns[j].Freed() && ns[j].Value().None?;
    }
  }

  lemma BehindNext<T>(head: Node<T>, ns: seq<Node<T>>, xs: seq<T>, k: nat)
    requires k < |ns| == |xs| && Lists(head, Left(ns, k + 1), Left(xs, k + 1))
    requires forall j {:trigger ns[j].Freed()} :: 0 <= j < k ==> ns[j].Freed()
    ensures Behind(head, ns, xs, k + 1, ns[k], ns[k].Succ())
  {
    AtLeft(head, ns, k + 1);
  }

  /** `list_del(i->prev)` where the element before i is the first one left. */
  method DeletePrevious<T>(i: Node<T>, ghost head: Node<T>, ghost ns: seq<Node<T>>, ghost xs: seq<T>)
    requires Lists(head, ns, xs) && |ns| >= 2 && i == ns[1]
    modifies Cells(head, ns)
    ensures Lists(head, ns[1..], xs[1..]) && ns[0].Freed()
  {
    assert i == At(head, ns, 1) && i.Pred() == At(head, ns, 0) == ns[0];
    assert i.Value().Some? && ns[0].Value().Some?;
    FirstMoves(ns);
    FirstMoves(xs);
    ListDel(i.Prev(), head, ns, xs, 0);
  }

  /** `if (t != NULL) list_del(i->prev); t = i; i = i->next` */
  method DeleteBehind<T>(i: Node<T>, t: Node?<T>, ghost head: Node<T>, ghost ns: seq<Node<T>>, ghost xs: seq<T>,
                          ghost k: nat)
    returns (t': Node<T>, i': Node?<T>)
    requires Behind(head, ns, xs, k, t, i) && k < |ns|
    modifies Cells(head, ns)
    ensures Behind(head, ns, xs, k + 1, t', i')
  {
    LeftNext(ns, k);
    LeftNext(xs, k);
    if t != null {
      GoneStayGone(head, ns, xs, k, t, i);
      DeletePrevious(i, head, Left(ns, k), Left(xs, k));
    }
    BehindNext(head, ns, xs, k);
    t' := i;
    i' := i.Next();
  }

  /** The list_del after the loop frees the last element, or does nothing on an empty list. */
  method DeleteLast<T>(t: Node?<T>, ghost head: Node<T>, ghost ns: seq<Node<T>>, ghost xs: seq<T>, ghost i: Node?<T>)
    requires Behind(head, ns, xs, |ns|, t, i)
    modifies Cells(head, ns)
    ensures Lists(head, [], [])
    ensures forall n :: n in ns ==> n.Freed()
  {
    ghost var rest, left := Left(ns, |ns|), Left(xs, |ns|);
    assert ns != [] ==> rest == [ns[|ns| - 1]];
    assert t != null ==> t == rest[0] && t.Value().Some?;
    ListDel(t, head, rest, left, 0);
  }

  /** The delete-behind loop: visit every element, freeing each node one turn late. */
  method Drain<T>(head: Node<T>, ghost ns: seq<Node<T>>, ghost xs: seq<T>) returns (visited: seq<T>)
    requires Lists(head, ns, xs)
    modifies Cells(head, ns)
    ensures visited == xs
    ensures Lists(head, [], [])
    ensures forall n :: n in ns ==> n.Freed()
  {
    visited := [];
    var t: Node?<T> := null;
    var i := head.Next();
    ghost var k := 0;
    BehindStarts(head, ns, xs);
    while i != head && i != null
      invariant Behind(head, ns, xs, k, t, i) && visited == xs[..k]
      decreases |ns| - k
    {
      BehindHere(head, ns, xs, k, t, i);
      assert xs[..k] + [xs[k]] == xs[..k + 1];
      visited := visited + [i.Data().value];
      t, i := DeleteBehind(i, t, head, ns, xs, k);
      k := k + 1;
    }
    BehindHere(head, ns, xs, k, t, i);
    assert xs[..k] == xs;
    DeleteLast(t, head, ns, xs, i);
  }
}
