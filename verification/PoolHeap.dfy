/** The critical sections of src/plugins/storage/pgsql_pool.c over the real lists.

Each public method of Pool is one critical section, or what a thread does to its own connection
just before one.  Its contract says what becomes of the whole of the pool: the three lists by id,
the in-use list with its nodes, and the nodes made and not yet listed.
 */
module PoolHeap {
  import opened Wrappers
  import opened NvList
  import opened PoolProtocol

  class Conn {
    const id: Id
    /** The list node that carries this connection. */
    var node: Node?<Conn>

    constructor (id: Id)
      ensures this.id == id && node == null
    {
      this.id, node := id, null;
    }
  }

  ghost function Ids(cs: seq<Conn>): (r: seq<Id>)
    ensures |r| == |cs|
    ensures forall i {:trigger r[i]} :: 0 <= i < |cs| ==> r[i] == cs[i].id
  {
    if cs == [] then [] else [cs[0].id] + Ids(cs[1..])
  }

  lemma IdsConcat(cs: seq<Conn>, c: Conn)
    ensures Ids(cs + [c]) == Ids(cs) + [c.id]
  {
  }

  lemma IdsTail(cs: seq<Conn>)
    requires cs != []
    ensures Ids(cs)[0] == cs[0].id && Ids(cs[1..]) == Ids(cs)[1..]
  {
  }

  /** Unlinking a connection whose id occurs once removes that id and moves no other. */
  lemma {:induction false} IdsRemoved(cs: seq<Conn>, k: nat)
    requires k < |cs|
    requires forall i :: 0 <= i < k ==> cs[i].id != cs[k].id
    ensures cs[k].id in Ids(cs) && Ids(RemoveAt(cs, k)) == Without(Ids(cs), cs[k].id)
  {
    assert Ids(cs)[k] == cs[k].id;
    if k == 0 {
      FirstMoves(cs);
    } else {
      assert cs[1..][k - 1] == cs[k] && forall i :: 0 <= i < k - 1 ==> cs[1..][i] == cs[i + 1];
      IdsRemoved(cs[1..], k - 1);
      RemoveFromTail(cs, k);
    }
  }

  lemma RemoveFromTail<X>(s: seq<X>, k: nat)
    requires 0 < k < |s|
    ensures RemoveAt(s, k) == [s[0]] + RemoveAt(s[1..], k - 1)
  {
    assert s[..k] == [s[0]] + s[1..][..k - 1];
  }

  /** One of the pool's three lists with its counter. */
  class ConnList {
    const head: Node<Conn>
    var num: int
    ghost var nodes: seq<Node<Conn>>
    ghost var conns: seq<Conn>
    /** Every node of the ring, the sentinel included. */
    ghost var cells: set<Node<Conn>>

    /** Every listed connection points back at the live node that carries it. */
    ghost predicate BackLinked()
      reads this, conns
    {
      |conns| == |nodes| && forall i {:trigger conns[i]} :: 0 <= i < |conns| ==> conns[i].node == nodes[i]
    }

    ghost predicate Valid()
      reads this, cells, conns
    {
      cells == Cells(head, nodes) && Lists(head, nodes, conns) && num == |nodes| && BackLinked()
    }

    constructor ()
      ensures Valid() && conns == [] && fresh(cells)
    {
      var sentinel := new Node(None);
      head := sentinel;
      num, nodes, conns, cells := 0, [], [], {sentinel};
    }

    /** A listed connection is listed once, in the node it points at. */
    lemma Position(c: Conn) returns (k: nat)
      requires Valid() && c in conns
      ensures k < |conns| && conns[k] == c && nodes[k] == c.node && c.node in cells
      ensures Distinct(conns)
    {
      k :| 0 <= k < |conns| && conns[k] == c;
      assert nodes[k] in nodes;
      forall i, j | 0 <= i < j < |conns|
        ensures conns[i] != conns[j]
      {
        assert conns[i].node == nodes[i] && conns[j].node == nodes[j];
      }
    }

    /** list_append and the counter. */
    method Append(n: Node<Conn>)
      requires Valid() && n.Value().Some? && n.Value().value.node == n && n !in cells
      modifies this, {n} + cells
      ensures Valid() && n.Value() == old(n.Value())
      ensures nodes == old(nodes) + [n] && conns == old(conns) + [n.Value().value] && cells == old(cells) + {n}
    {
      ListAppend(head, n, nodes, conns);
      num := num + 1;
      nodes, conns, cells := nodes + [n], conns + [n.Value().value], cells + {n};
    }

    /** The guarded dequeue: nothing while the counter is zero, else the first connection. */
    method Take() returns (c: Conn?)
      requires Valid()
      modifies this, cells
      ensures Valid() && cells <= old(cells)
      ensures old(conns) == [] ==> c == null && nodes == old(nodes) && conns == old(conns)
      ensures old(conns) != [] ==> c == old(conns)[0] && conns == old(conns)[1..] && nodes == old(nodes)[1..]
      ensures old(conns) != [] ==> old(nodes)[0].Freed()
    {
      if num == 0 {
        c := null;
        return;
      }
      assert At(head, nodes, -1) == head && At(head, nodes, 0) == nodes[0];
      var n := head.Next();
      assert n == nodes[0] && n.Value().Some?;
      c := n.Data().value;
      FirstMoves(nodes);
      FirstMoves(conns);
      ListDel(n, head, nodes, conns, 0);
      num := num - 1;
      nodes, conns := nodes[1..], conns[1..];
      cells := Cells(head, nodes);
    }

    /** list_del and the counter, given nothing but the node. */
    method Delete(n: Node<Conn>, ghost k: nat)
      requires Valid() && k < |nodes| && n == nodes[k]
      modifies this, cells
      ensures Valid() && n.Freed() && cells <= old(cells)
      ensures nodes == RemoveAt(old(nodes), k) && conns == RemoveAt(old(conns), k)
    {
      assert n.Value().Some?;
      ListDel(n, head, nodes, conns, k);
      num := num - 1;
      nodes, conns := RemoveAt(nodes, k), RemoveAt(conns, k);
      cells := Cells(head, nodes);
    }
  }

  /** The lists after c has been appended to list w. */
  function Enqueued(lists: PerList<seq<Id>>, w: Which, c: Id): PerList<seq<Id>> {
    lists.Set(w, lists.Get(w) + [c])
  }

  /** The lists after the first connection of list w has been taken. */
  function Dequeued(lists: PerList<seq<Id>>, w: Which): PerList<seq<Id>>
    requires lists.Get(w) != []
  {
    lists.Set(w, lists.Get(w)[1..])
  }

  /** What is written down of connections and nodes: all connections by id, the nodes made and
  not yet listed, and the in-use list with the node of each connection. */
  datatype Ledger = Ledger(all: seq<Conn>, made: map<Conn, Node<Conn>>, lent: seq<Conn>, lentAt: seq<Node<Conn>>)

  /** All there is to know of a pool: the lists by id, and the books. */
  datatype Contents = Contents(lists: PerList<seq<Id>>, books: Ledger)

  predicate Registered(b: Ledger, c: Conn) {
    c.id < |b.all| && b.all[c.id] == c
  }

  /** In some thread's hands: one of the pool's connections, and on no list. */
  predicate InHands(k: Contents, c: Conn) {
    Registered(k.books, c) && c.id !in k.lists.free && c.id !in k.lists.inuse && c.id !in k.lists.bad
  }

  /** c is on the in-use list, and n carries it there. */
  ghost predicate LentAt(b: Ledger, c: Conn, n: Node<Conn>) {
    |b.lent| == |b.lentAt| && exists k :: 0 <= k < |b.lent| && b.lent[k] == c && b.lentAt[k] == n
  }

  /** n was made for c. */
  ghost predicate MadeFor(b: Ledger, c: Conn, n: Node<Conn>) {
    c in b.made && b.made[c] == n
  }

  function Popped(k: Contents, w: Which): Contents
    requires k.lists.Get(w) != []
  {
    k.(lists := Dequeued(k.lists, w))
  }

  ghost function Enlisted(k: Contents, w: Which, c: Conn, n: Node<Conn>): Contents {
    var b := k.books.(made := k.books.made - {c});
    k.(lists := Enqueued(k.lists, w, c.id),
       books := if w.InuseList? then b.(lent := b.lent + [c], lentAt := b.lentAt + [n]) else b)
  }

  ghost function Taken(k: Contents, c: Conn, i: nat): Contents
    requires c.id in k.lists.inuse && i < |k.books.lent| && i < |k.books.lentAt|
  {
    k.(lists := k.lists.(inuse := Without(k.lists.inuse, c.id)),
       books := k.books.(lent := RemoveAt(k.books.lent, i), lentAt := RemoveAt(k.books.lentAt, i)))
  }

  /** A listed connection's id is listed. */
  lemma NotListed(cs: seq<Conn>, c: Conn)
    ensures c in cs ==> c.id in Ids(cs)
  {
    if c in cs {
      var i :| 0 <= i < |cs| && cs[i] == c;
      assert Ids(cs)[i] == c.id;
    }
  }

  class Pool {
    const num: nat
    const free: ConnList
    const inuse: ConnList
    const bad: ConnList
    /** Every connection of the pool, by id. */
    ghost var all: seq<Conn>
    /** The nodes made for a connection in some thread's hands and not yet put on a list. */
    ghost var made: map<Conn, Node<Conn>>
    /** Every node there ever was. */
    ghost var nodes: set<Node<Conn>>

    /** The connections are numbered, and a list holds none but these. */
    ghost predicate Numbered()
      reads this`all, free, inuse, bad
    {
      && (forall i :: 0 <= i < |all| ==> all[i].id == i)
      && (forall c :: c in free.conns ==> Known(c))
      && (forall c :: c in inuse.conns ==> Known(c))
      && (forall c :: c in bad.conns ==> Known(c))
    }

    ghost predicate Known(c: Conn)
      reads this`all
    {
      c.id < |all| && all[c.id] == c
    }

    ghost predicate Apart()
      reads free, inuse, bad
    {
      && free != inuse && free != bad && inuse != bad
      && free.cells !! inuse.cells && free.cells !! bad.cells && inuse.cells !! bad.cells
    }

    /** A made node carries its connection, is on no list, and is the one the connection points at. */
    ghost predicate Prepared(m: map<Conn, Node<Conn>>)
      reads this`all, free, inuse, bad, m.Keys, m.Values
    {
      forall c :: c in m ==> Known(c) && Loose(c, m[c])
    }

    ghost predicate Loose(c: Conn, n: Node<Conn>)
      reads free, inuse, bad, c, n
    {
      && c.node == n && n.Value() == Some(c)
      && n !in free.cells && n !in inuse.cells && n !in bad.cells
    }

    ghost predicate Listed()
      reads this`all, free, inuse, bad
      reads free.cells, inuse.cells, bad.cells
      reads free.conns, inuse.conns, bad.conns
    {
      && Apart() && Numbered()
      && free.Valid() && inuse.Valid() && bad.Valid()
    }

    ghost predicate Within()
      reads this`made, this`nodes, free, inuse, bad
    {
      && free.cells <= nodes && inuse.cells <= nodes && bad.cells <= nodes
      && (forall c :: c in made ==> made[c] in nodes)
    }

    ghost predicate Valid()
      reads this, free, inuse, bad
      reads free.cells, inuse.cells, bad.cells
      reads free.conns, inuse.conns, bad.conns
      reads made.Keys, made.Values
    {
      Listed() && Prepared(made) && Within()
    }

    ghost function Lists(): PerList<seq<Id>>
      reads free, inuse, bad
    {
      PerList(Ids(free.conns), Ids(inuse.conns), Ids(bad.conns))
    }

    ghost function Inside(): Contents
      reads this`all, this`made, free, inuse, bad
    {
      Contents(Lists(), Ledger(all, made, inuse.conns, inuse.nodes))
    }

    /** The connections of the pool. */
    ghost function Everyone(): set<Conn>
      reads this`all
    {
      set c | c in all
    }

    ghost predicate Unlisted(c: Conn)
      reads this`all, free, inuse, bad
    {
      Known(c) && c !in free.conns && c !in inuse.conns && c !in bad.conns
    }

    /** pgsql_pool_init, as far as the lists are concerned. */
    constructor (num: nat)
      ensures Valid() && this.num == num && fresh(free) && fresh(inuse) && fresh(bad)
      ensures fresh(nodes)
      ensures Inside() == Contents(PerList([], [], []), Ledger([], map[], [], []))
    {
      this.num := num;
      var f := new ConnList();
      var u := new ConnList();
      var b := new ConnList();
      ghost var cells := f.cells + u.cells + b.cells;
      assert fresh(cells);
      free, inuse, bad := f, u, b;
      all, made, nodes := [], map[], cells;
    }

    /** An id in no list names a connection in no list. */
    lemma UnlistedOf(c: Conn)
      requires InHands(Inside(), c)
      ensures Unlisted(c)
    {
      NotListed(free.conns, c);
      NotListed(inuse.conns, c);
      NotListed(bad.conns, c);
    }

    method Wrap(c: Conn) returns (n: Node<Conn>)
      requires Listed() && Unlisted(c)
      modifies c`node
      ensures Listed() && Loose(c, n) && fresh(n)
    {
      n := new Node(Some(c));
      c.node := n;
    }

    ghost method Record(c: Conn, n: Node<Conn>)
      requires Listed() && Prepared(made - {c}) && Within() && Known(c) && Loose(c, n)
      modifies `made, `nodes
      ensures Valid() && made == old(made)[c := n] && nodes == old(nodes) + {n}
    {
      ghost var rest := made - {c};
      forall d | d in made && d != c
        ensures Known(d) && Loose(d, made[d])
      {
        assert d in rest && rest[d] == made[d];
      }
      made, nodes := made[c := n], nodes + {n};
    }

    /** nv_node_new, c->node = n, set_node_data: done before the lock is taken. */
    method Prepare(c: Conn) returns (n: Node<Conn>)
      requires Valid() && InHands(Inside(), c)
      modifies `made, `nodes, c`node
      ensures Valid() && fresh(nodes - old(nodes))
      ensures Inside() == old(Inside()).(books := old(Inside().books.(made := Inside().books.made[c := n])))
    {
      UnlistedOf(c);
      n := Wrap(c);
      StillPrepared(made - {c});
      Record(c, n);
    }

    method PopFree() returns (c: Conn?)
      requires Listed()
      modifies free, free.cells
      ensures Listed() && free.cells <= old(free.cells)
      ensures c == null ==> old(free.conns) == [] && Lists() == old(Lists())
      ensures c != null ==> old(free.conns) != [] && Unlisted(c) && c.id == old(Lists().free)[0]
      ensures c != null ==> Lists() == Dequeued(old(Lists()), FreeList)
    {
      if old(free.conns) != [] { IdsTail(free.conns); }
      c := free.Take();
    }

    /** First section of pgsql_pool_get. */
    method TakeFree() returns (c: Conn?)
      requires Valid()
      modifies free, free.cells
      ensures Valid()
      ensures c == null ==> old(Inside().lists.free) == [] && Inside() == old(Inside())
      ensures c != null ==> Registered(Inside().books, c)
      ensures c != null ==> old(Inside().lists.free) != [] && c.id == old(Inside().lists.free)[0]
      ensures c != null ==> Inside() == Popped(old(Inside()), FreeList)
    {
      c := PopFree();
    }

    method PopBad() returns (c: Conn?)
      requires Listed()
      modifies bad, bad.cells
      ensures Listed() && bad.cells <= old(bad.cells)
      ensures c == null ==> old(bad.conns) == [] && Lists() == old(Lists())
      ensures c != null ==> old(bad.conns) != [] && Unlisted(c) && c.id == old(Lists().bad)[0]
      ensures c != null ==> Lists() == Dequeued(old(Lists()), BadList)
    {
      if old(bad.conns) != [] { IdsTail(bad.conns); }
      c := bad.Take();
    }

    /** First section of a turn of the repair loop. */
    method TakeBad() returns (c: Conn?)
      requires Valid()
      modifies bad, bad.cells
      ensures Valid()
      ensures c == null ==> old(Inside().lists.bad) == [] && Inside() == old(Inside())
      ensures c != null ==> Registered(Inside().books, c)
      ensures c != null ==> old(Inside().lists.bad) != [] && c.id == old(Inside().lists.bad)[0]
      ensures c != null ==> Inside() == Popped(old(Inside()), BadList)
    {
      c := PopBad();
    }

    /** Nodes that nothing happened to are as loose as before. */
    twostate lemma StillPrepared(m: map<Conn, Node<Conn>>)
      requires old(Prepared(m)) && all == old(all)
      requires forall d :: d in m ==> old(allocated(d)) && old(allocated(m[d])) && unchanged(d`node) && unchanged(m[d])
      requires forall d :: d in m ==> m[d] !in free.cells && m[d] !in inuse.cells && m[d] !in bad.cells
      ensures Prepared(m)
    {
    }

    /** c and its node are taken out of the books of made nodes. */
    ghost method HandOver(c: Conn, n: Node<Conn>)
      requires Prepared(made) && Within() && MadeFor(Inside().books, c, n)
      modifies `made
      ensures made == old(made) - {c} && Prepared(made) && Within()
      ensures Known(c) && Loose(c, n) && n in nodes && (forall d :: d in made ==> made[d] != n)
    {
      made := made - {c};
    }

    method AppendInuse(ghost c: Conn, n: Node<Conn>)
      requires Listed() && Known(c) && Loose(c, n)
      requires Prepared(made) && forall d :: d in made ==> made[d] != n
      modifies inuse, {n} + inuse.cells
      ensures Listed() && Prepared(made) && inuse.cells == old(inuse.cells) + {n}
      ensures inuse.conns == old(inuse.conns) + [c] && inuse.nodes == old(inuse.nodes) + [n]
      ensures Lists() == Enqueued(old(Lists()), InuseList, c.id)
    {
      IdsConcat(inuse.conns, c);
      inuse.Append(n);
      StillPrepared(made);
    }

    /** Last section of pgsql_pool_get. */
    method PutInuse(ghost c: Conn, n: Node<Conn>)
      requires Valid() && MadeFor(Inside().books, c, n)
      modifies `made, inuse, {n} + inuse.cells
      ensures Valid()
      ensures Inside() == Enlisted(old(Inside()), InuseList, c, n)
    {
      HandOver(c, n);
      AppendInuse(c, n);
    }

    method AppendBad(ghost c: Conn, n: Node<Conn>)
      requires Listed() && Known(c) && Loose(c, n)
      requires Prepared(made) && forall d :: d in made ==> made[d] != n
      modifies bad, {n} + bad.cells
      ensures Listed() && Prepared(made) && bad.cells == old(bad.cells) + {n}
      ensures bad.conns == old(bad.conns) + [c] && bad.nodes == old(bad.nodes) + [n]
      ensures Lists() == Enqueued(old(Lists()), BadList, c.id)
    {
      IdsConcat(bad.conns, c);
      bad.Append(n);
      StillPrepared(made);
    }

    /** A connection found BAD, in pgsql_pool_get or in pgsql_pool_release. */
    method PutBad(ghost c: Conn, n: Node<Conn>)
      requires Valid() && MadeFor(Inside().books, c, n)
      modifies `made, bad, {n} + bad.cells
      ensures Valid()
      ensures Inside() == Enlisted(old(Inside()), BadList, c, n)
    {
      HandOver(c, n);
      AppendBad(c, n);
    }

    method AppendFree(ghost c: Conn, n: Node<Conn>)
      requires Listed() && Known(c) && Loose(c, n)
      requires Prepared(made) && forall d :: d in made ==> made[d] != n
      modifies free, {n} + free.cells
      ensures Listed() && Prepared(made) && free.cells == old(free.cells) + {n}
      ensures free.conns == old(free.conns) + [c] && free.nodes == old(free.nodes) + [n]
      ensures Lists() == Enqueued(old(Lists()), FreeList, c.id)
    {
      IdsConcat(free.conns, c);
      free.Append(n);
      StillPrepared(made);
    }

    /** Last section of pgsql_pool_release, and of a turn of the repair loop. */
    method PutFree(ghost c: Conn, n: Node<Conn>)
      requires Valid() && MadeFor(Inside().books, c, n)
      modifies `made, free, {n} + free.cells
      ensures Valid()
      ensures Inside() == Enlisted(old(Inside()), FreeList, c, n)
    {
      HandOver(c, n);
      AppendFree(c, n);
    }

    /** A borrowed connection is on the in-use list once, and on no other list. */
    lemma InuseOnly(c: Conn) returns (k: nat)
      requires Listed() && c in inuse.conns
      ensures k < |inuse.conns| && inuse.conns[k] == c && inuse.nodes[k] == c.node
      ensures c !in free.conns && c !in bad.conns && c !in RemoveAt(inuse.conns, k)
      ensures c.id < |all| && all[c.id] == c
      ensures forall d :: d in RemoveAt(inuse.conns, k) ==> Known(d)
      ensures c.id in Ids(inuse.conns) && Ids(RemoveAt(inuse.conns, k)) == Without(Ids(inuse.conns), c.id)
    {
      k := inuse.Position(c);
      if c in free.conns { var j := free.Position(c); }
      if c in bad.conns { var j := bad.Position(c); }
      forall i | 0 <= i < k
        ensures inuse.conns[i].id != c.id
      {
        assert inuse.conns[i] in inuse.conns && inuse.conns[i] != inuse.conns[k];
      }
      IdsRemoved(inuse.conns, k);
    }

    /** A connection whose id is on the in-use list points at its node there. */
    lemma LentOf(c: Conn)
      requires Valid() && Registered(Inside().books, c) && c.id in Inside().lists.inuse
      ensures c.node != null && LentAt(Inside().books, c, c.node)
    {
      var i :| 0 <= i < |inuse.conns| && Ids(inuse.conns)[i] == c.id;
      assert inuse.conns[i] in inuse.conns;
    }

    method Erase(ghost c: Conn, n: Node<Conn>) returns (ghost k: nat)
      requires Listed() && c in inuse.conns && n == c.node
      modifies inuse, inuse.cells
      ensures Listed() && inuse.cells <= old(inuse.cells) && n.Freed()
      ensures k < |old(inuse.conns)| && old(inuse.conns)[k] == c
      ensures inuse.conns == RemoveAt(old(inuse.conns), k) && inuse.nodes == RemoveAt(old(inuse.nodes), k)
      ensures c.id in old(Lists()).inuse
      ensures Lists() == old(Lists()).(inuse := Without(old(Lists()).inuse, c.id))
    {
      k := InuseOnly(c);
      inuse.Delete(n, k);
    }

    /** First section of pgsql_pool_release, given the node that was read from c before the lock
    was taken. */
    method Unlink(ghost c: Conn, n: Node<Conn>) returns (ghost k: nat)
      requires Valid() && LentAt(Inside().books, c, n)
      modifies inuse, inuse.cells
      ensures Valid() && n.Freed()
      ensures k < |old(inuse.conns)| && old(inuse.conns)[k] == c && old(inuse.nodes)[k] == n
      ensures c.id in old(Inside().lists.inuse) && Inside() == Taken(old(Inside()), c, k)
    {
      k := Erase(c, n);
    }

    /** A new connection with the node that is to carry it. */
    method Register(i: nat) returns (c: Conn, n: Node<Conn>)
      requires Listed() && i == |all|
      modifies `all
      ensures Listed() && c.id == i && all == old(all) + [c] && fresh(c)
      ensures fresh(n) && Known(c) && Loose(c, n)
    {
      c := new Conn(i);
      all := all + [c];
      n := Wrap(c);
    }

    /** One turn of the loop that fills the bad list. */
    method AddNew(i: nat)
      requires Listed() && i == |all| && made == map[]
      modifies `all, bad, bad.cells
      ensures Listed() && |all| == i + 1 && fresh(Everyone() - old(Everyone()))
      ensures Lists() == Enqueued(old(Lists()), BadList, i)
      ensures fresh(bad.cells - old(bad.cells))
    {
      var c, n := Register(i);
      AppendBad(c, n);
    }

    /** The loop that fills the bad list. */
    method Stock()
      requires Listed() && made == map[] && all == [] && Lists() == PerList([], [], [])
      modifies `all, bad, bad.cells
      ensures Listed() && |all| == num && Lists() == PerList([], [], AllIds(num))
      ensures fresh(bad.cells - old(bad.cells)) && fresh(Everyone())
    {
      var i := 0;
      while i < num
        invariant 0 <= i <= num && |all| == i && made == map[]
        invariant Listed() && Lists() == PerList([], [], AllIds(i))
        invariant fresh(bad.cells - old(bad.cells)) && fresh(Everyone())
      {
        assert AllIds(i) + [i] == AllIds(i + 1);
        AddNew(i);
        i := i + 1;
      }
    }

    ghost method RecordBad()
      requires Listed() && made == map[] && free.cells <= nodes && inuse.cells <= nodes
      modifies `nodes
      ensures Valid() && nodes == old(nodes) + bad.cells
    {
      nodes := nodes + bad.cells;
    }

    /** The repair thread fills the bad list before it does anything else. */
    method Fill()
      requires Valid() && Inside().books.all == [] && Inside().lists == PerList([], [], [])
      modifies `all, `nodes, bad, bad.cells
      ensures Valid() && fresh(nodes - old(nodes)) && fresh(Everyone() - old(Everyone()))
      ensures |Inside().books.all| == num && Inside().lists == PerList([], [], AllIds(num))
    {
      assert made == map[];
      Stock();
      RecordBad();
    }
  }
}
