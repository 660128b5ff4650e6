/** The threads of src/plugins/storage/pgsql_pool.c with their local variables, over the real
lists: any interleaving of their critical sections, and how it refines PoolProtocol.

A thread keeps the list node it has read or made in a local variable while other threads run
their sections.
 */
module PoolSystem {
  import opened NvList
  import opened PoolProtocol
  import opened PoolHeap
  import PoolRuns

  /** Where a client thread stands, with the variables it will still use. */
  datatype Local =
    | Away
    | Asking                                              // at the retry label
    | Took(c: Conn)
    | Lending(c: Conn, n: Node<Conn>)                     // n made for the in-use list
    | Borrowed(c: Conn)
    | GivingBack(c: Conn, n: Node<Conn>, again: bool)     // n read from c, lock not yet taken
    | Removed(c: Conn, again: bool)
    | Freeing(c: Conn, n: Node<Conn>, again: bool)        // n made for the free list
    | Dropping(c: Conn, n: Node<Conn>, again: bool)       // n made for the bad list

  datatype RepairLocal =
    | Booting
    | Scanning
    | Fixing(c: Conn)
    | Fixed(c: Conn, n: Node<Conn>)

  /** The place in the protocol. */
  function View(l: Local): Client {
    match l
    case Away => Idle
    case Asking => Getting
    case Took(c) => Grabbed(c.id)
    case Lending(c, _) => Admitting(c.id)
    case Borrowed(c) => Using(c.id)
    case GivingBack(c, _, again) => Leaving(c.id, again)
    case Removed(c, again) => Unlinked(c.id, again)
    case Freeing(c, _, again) => Returning(c.id, again)
    case Dropping(c, _, again) => Rejecting(c.id, again)
  }

  function Views(ls: seq<Local>): (cs: seq<Client>)
    ensures |cs| == |ls| && forall t {:trigger cs[t]} :: 0 <= t < |ls| ==> cs[t] == View(ls[t])
  {
    seq(|ls|, t requires 0 <= t < |ls| => View(ls[t]))
  }

  function ViewRepair(r: RepairLocal): Repair {
    match r
    case Booting => Starting
    case Scanning => Watching
    case Fixing(c) => Mending(c.id)
    case Fixed(c, _) => Mended(c.id)
  }

  function Onward(again: bool): Local {
    if again then Asking else Away
  }

  /** Where the test of PQstatus in pgsql_pool_get leads, with the node made after it. */
  function Tested(c: Conn, n: Node<Conn>, ok: set<Id>): Local {
    if c.id in ok then Lending(c, n) else Dropping(c, n, true)
  }

  /** The same in pgsql_pool_release. */
  function Retested(c: Conn, n: Node<Conn>, again: bool, ok: set<Id>): Local {
    if c.id in ok then Freeing(c, n, again) else Dropping(c, n, again)
  }

  predicate Carried(l: Local) {
    !l.Away? && !l.Asking?
  }

  /** It has a node that it made. */
  predicate HasMade(l: Local) {
    l.Lending? || l.Freeing? || l.Dropping?
  }

  /** A thread's variables are as it left them. */
  ghost predicate Fits(b: Ledger, l: Local) {
    Carried(l) ==>
      && Registered(b, l.c)
      && (HasMade(l) ==> MadeFor(b, l.c, l.n))
      && (l.GivingBack? ==> LentAt(b, l.c, l.n))
  }

  ghost predicate FitsRepair(b: Ledger, num: nat, r: RepairLocal) {
    match r
    case Booting => b.all == []
    case Scanning => |b.all| == num
    case Fixing(c) => |b.all| == num && Registered(b, c)
    case Fixed(c, n) => |b.all| == num && Registered(b, c) && MadeFor(b, c, n)
  }

  ghost predicate AllFit(b: Ledger, num: nat, ls: seq<Local>, r: RepairLocal) {
    (forall t :: 0 <= t < |ls| ==> Fits(b, ls[t])) && FitsRepair(b, num, r)
  }

  /** No thread but t carries c; the repair thread has number |ls| here. */
  ghost predicate Sole(ls: seq<Local>, r: RepairLocal, t: nat, c: Conn) {
    && (forall u :: 0 <= u < |ls| && u != t && Carried(ls[u]) ==> ls[u].c != c)
    && (t != |ls| && (r.Fixing? || r.Fixed?) ==> r.c != c)
  }

  /** From b to b' nothing happened but to c: it came onto the in-use list or left it, or a node
  was made for it or put away. */
  ghost predicate Touches(b: Ledger, b': Ledger, c: Conn) {
    && b'.all == b.all
    && (forall d :: d in b.made && d != c ==> d in b'.made && b'.made[d] == b.made[d])
    && (|b.lent| == |b.lentAt| ==>
        || (b'.lent == b.lent && b'.lentAt == b.lentAt)
        || (b'.lent == b.lent + [c] && |b'.lentAt| == |b.lentAt| + 1 && b'.lentAt[..|b.lentAt|] == b.lentAt)
        || (exists k :: 0 <= k < |b.lent| && b.lent[k] == c
              && b'.lent == RemoveAt(b.lent, k) && b'.lentAt == RemoveAt(b.lentAt, k)))
  }

  lemma RemovedAt<X>(xs: seq<X>, k: nat, i: nat)
    requires k < |xs| && i < |xs| && i != k
    ensures RemoveAt(xs, k)[if i < k then i else i - 1] == xs[i]
  {
  }

  /** d is where it was when another connection has left the in-use list. */
  lemma LentWithout(b: Ledger, b': Ledger, k: nat, d: Conn, n: Node<Conn>)
    requires LentAt(b, d, n) && k < |b.lent| && b.lent[k] != d
    requires b'.lent == RemoveAt(b.lent, k) && b'.lentAt == RemoveAt(b.lentAt, k)
    ensures LentAt(b', d, n)
  {
    var i :| 0 <= i < |b.lent| && b.lent[i] == d && b.lentAt[i] == n;
    RemovedAt(b.lent, k, i);
    RemovedAt(b.lentAt, k, i);
    var j := if i < k then i else i - 1;
    assert b'.lent[j] == d && b'.lentAt[j] == n;
  }

  lemma LentWith(b: Ledger, b': Ledger, c: Conn, d: Conn, n: Node<Conn>)
    requires LentAt(b, d, n) && b'.lent == b.lent + [c]
    requires |b'.lentAt| == |b.lentAt| + 1 && b'.lentAt[..|b.lentAt|] == b.lentAt
    ensures LentAt(b', d, n)
  {
    var i :| 0 <= i < |b.lent| && b.lent[i] == d && b.lentAt[i] == n;
    assert b'.lent[i] == d && b'.lentAt[i] == b'.lentAt[..|b.lentAt|][i];
  }

  lemma StillLent(b: Ledger, b': Ledger, c: Conn, d: Conn, n: Node<Conn>)
    requires Touches(b, b', c) && d != c && LentAt(b, d, n)
    ensures LentAt(b', d, n)
  {
    if b'.lent == b.lent && b'.lentAt == b.lentAt {
    } else if b'.lent == b.lent + [c] && |b'.lentAt| == |b.lentAt| + 1 && b'.lentAt[..|b.lentAt|] == b.lentAt {
      LentWith(b, b', c, d, n);
    } else {
      var k :| 0 <= k < |b.lent| && b.lent[k] == c
        && b'.lent == RemoveAt(b.lent, k) && b'.lentAt == RemoveAt(b.lentAt, k);
      LentWithout(b, b', k, d, n);
    }
  }

  /** What happens to c is no matter to the threads that do not carry it. */
  lemma OthersFit(b: Ledger, b': Ledger, num: nat, ls: seq<Local>, r: RepairLocal, t: nat, c: Conn)
    requires AllFit(b, num, ls, r) && Touches(b, b', c) && Sole(ls, r, t, c)
    ensures forall u :: 0 <= u < |ls| && u != t ==> Fits(b', ls[u])
    ensures t != |ls| ==> FitsRepair(b', num, r)
  {
    forall u | 0 <= u < |ls| && u != t
      ensures Fits(b', ls[u])
    {
      assert Fits(b, ls[u]);
      if ls[u].GivingBack? { StillLent(b, b', c, ls[u].c, ls[u].n); }
    }
  }

  /** All threads' own variables, and what libpq says of each connection: whether its PGconn has
  been made, and whether PQstatus finds it in order. */
  datatype Threads = Threads(locals: seq<Local>, repair: RepairLocal, up: set<Id>, ok: set<Id>)

  /** The pool as the threads share it, with libpq's part of it: of which connections the PGconn
  has been made, and which of them PQstatus finds in order. */
  datatype Shared = Shared(num: nat, k: Contents, up: set<Id>, ok: set<Id>)

  /** The state of the protocol that all this stands for. */
  function StateOf(h: Shared, ls: seq<Local>, r: RepairLocal): State {
    State(h.num, h.k.lists, Views(ls), ViewRepair(r), h.up, h.ok)
  }

  /** Every thread finds what it left, and the protocol's invariant holds. */
  ghost predicate Good(h: Shared, ls: seq<Local>, r: RepairLocal) {
    AllFit(h.k.books, h.num, ls, r) && Inv(StateOf(h, ls, r))
  }

  /** No thread carries what another does. */
  lemma SoleOf(h: Shared, ls: seq<Local>, r: RepairLocal, t: nat)
    requires Good(h, ls, r) && t < |ls| && Carried(ls[t])
    ensures Sole(ls, r, t, ls[t].c)
  {
    var s := StateOf(h, ls, r);
    var id := ls[t].c.id;
    assert Holds(s.clients[t], id);
    HeldByOne(s, t, id);
    forall u | 0 <= u < |ls| && u != t && Carried(ls[u])
      ensures ls[u].c != ls[t].c
    {
      assert ls[u].c == ls[t].c ==> Holds(s.clients[u], id);
    }
  }

  /** What a client carries between two sections is on no list. */
  lemma InHandsOf(h: Shared, ls: seq<Local>, r: RepairLocal, t: nat)
    requires Good(h, ls, r) && t < |ls| && Keeps(InHand, View(ls[t]))
    ensures InHands(h.k, ls[t].c)
  {
    var s := StateOf(h, ls, r);
    assert Fits(h.k.books, ls[t]);
    TotalHas(InHand, s.clients, t, ls[t].c.id);
    assert Copies(s, ls[t].c.id) <= 1;
  }

  /** A client moves on; what it does to the pool concerns none but its own connection. */
  lemma ClientMoves(h: Shared, h': Shared, ls: seq<Local>, r: RepairLocal, t: nat, l: Local, e: Event)
    requires Good(h, ls, r) && t < |ls| && h'.num == h.num && Fits(h'.k.books, l)
    requires h'.k.books == h.k.books || (Carried(ls[t]) && Touches(h.k.books, h'.k.books, ls[t].c))
    requires Step(StateOf(h, ls, r), e) == Next(StateOf(h', ls[t := l], r))
    ensures Good(h', ls[t := l], r)
  {
    if h'.k.books != h.k.books {
      SoleOf(h, ls, r, t);
      OthersFit(h.k.books, h'.k.books, h.num, ls, r, t, ls[t].c);
    }
    StepInv(StateOf(h, ls, r), e);
  }

  /** The repair thread moves on; what it does to the pool concerns none but its own connection. */
  lemma RepairMoves(h: Shared, h': Shared, ls: seq<Local>, r: RepairLocal, r': RepairLocal, e: Event)
    requires Good(h, ls, r) && h'.num == h.num && FitsRepair(h'.k.books, h'.num, r')
    requires h'.k.books == h.k.books || ((r.Fixing? || r.Fixed?) && Touches(h.k.books, h'.k.books, r.c))
    requires Step(StateOf(h, ls, r), e) == Next(StateOf(h', ls, r'))
    ensures Good(h', ls, r')
  {
    if h'.k.books != h.k.books {
      RepairSole(h, ls, r);
      OthersFit(h.k.books, h'.k.books, h.num, ls, r, |ls|, r.c);
    }
    StepInv(StateOf(h, ls, r), e);
  }

  lemma RepairSole(h: Shared, ls: seq<Local>, r: RepairLocal)
    requires Good(h, ls, r) && (r.Fixing? || r.Fixed?)
    ensures Sole(ls, r, |ls|, r.c) && InHands(h.k, r.c)
  {
    var s := StateOf(h, ls, r);
    assert RepairHolds(s.repair, r.c.id) && Copies(s, r.c.id) <= 1;
    forall u | 0 <= u < |ls| && Carried(ls[u])
      ensures ls[u].c != r.c
    {
      assert Holds(s.clients[u], ls[u].c.id);
      HeldByOne(s, u, ls[u].c.id);
    }
  }

  lemma ViewsUpdate(ls: seq<Local>, t: nat, l: Local)
    requires t < |ls|
    ensures Views(ls[t := l]) == Views(ls)[t := View(l)]
  {
  }

  lemma StartGood(h: Shared, h': Shared, ls: seq<Local>, r: RepairLocal, t: nat)
    requires Good(h, ls, r) && t < |ls| && ls[t].Away?
    requires h' == h
    ensures Good(h', ls[t := Asking], r)
    ensures Step(StateOf(h, ls, r), Start(t)) == Next(StateOf(h', ls[t := Asking], r))
  {
    assert Fits(h.k.books, ls[t]);
    ViewsUpdate(ls, t, Asking);
    ClientMoves(h, h', ls, r, t, Asking, Start(t));
  }

  lemma TakeGood(h: Shared, h': Shared, ls: seq<Local>, r: RepairLocal, t: nat, c: Conn)
    requires Good(h, ls, r) && t < |ls| && ls[t].Asking?
    requires h.k.lists.free != [] && Registered(h.k.books, c) && c.id == h.k.lists.free[0]
    requires h' == h.(k := Popped(h.k, FreeList))
    ensures Good(h', ls[t := Took(c)], r)
    ensures Step(StateOf(h, ls, r), Take(t)) == Next(StateOf(h', ls[t := Took(c)], r))
  {
    assert Fits(h.k.books, ls[t]);
    ViewsUpdate(ls, t, Took(c));
    ClientMoves(h, h', ls, r, t, Took(c), Take(t));
  }

  lemma InspectGood(h: Shared, h': Shared, ls: seq<Local>, r: RepairLocal, t: nat, n: Node<Conn>)
    requires Good(h, ls, r) && t < |ls| && ls[t].Took?
    requires h' == h.(k := h.k.(books := h.k.books.(made := h.k.books.made[ls[t].c := n])))
    ensures Good(h', ls[t := Tested(ls[t].c, n, h.ok)], r)
    ensures Step(StateOf(h, ls, r), Inspect(t)) == Next(StateOf(h', ls[t := Tested(ls[t].c, n, h.ok)], r))
  {
    assert Fits(h.k.books, ls[t]);
    ViewsUpdate(ls, t, Tested(ls[t].c, n, h.ok));
    ClientMoves(h, h', ls, r, t, Tested(ls[t].c, n, h.ok), Inspect(t));
  }

  lemma PutInuseGood(h: Shared, h': Shared, ls: seq<Local>, r: RepairLocal, t: nat)
    requires Good(h, ls, r) && t < |ls| && ls[t].Lending?
    requires h' == h.(k := Enlisted(h.k, InuseList, ls[t].c, ls[t].n))
    ensures Good(h', ls[t := Borrowed(ls[t].c)], r)
    ensures Step(StateOf(h, ls, r), PutInuse(t)) == Next(StateOf(h', ls[t := Borrowed(ls[t].c)], r))
  {
    assert Fits(h.k.books, ls[t]);
    ViewsUpdate(ls, t, Borrowed(ls[t].c));
    ClientMoves(h, h', ls, r, t, Borrowed(ls[t].c), PutInuse(t));
  }

  lemma ReleaseGood(h: Shared, h': Shared, ls: seq<Local>, r: RepairLocal, t: nat, n: Node<Conn>, again: bool)
    requires Good(h, ls, r) && t < |ls| && ls[t].Borrowed? && LentAt(h.k.books, ls[t].c, n)
    requires h' == h
    ensures Good(h', ls[t := GivingBack(ls[t].c, n, again)], r)
    ensures Step(StateOf(h, ls, r), Release(t, again)) == Next(StateOf(h', ls[t := GivingBack(ls[t].c, n, again)], r))
  {
    assert Fits(h.k.books, ls[t]);
    ViewsUpdate(ls, t, GivingBack(ls[t].c, n, again));
    ClientMoves(h, h', ls, r, t, GivingBack(ls[t].c, n, again), Release(t, again));
  }

  lemma UnlinkGood(h: Shared, h': Shared, ls: seq<Local>, r: RepairLocal, t: nat, i: nat)
    requires Good(h, ls, r) && t < |ls| && ls[t].GivingBack?
    requires i < |h.k.books.lent| == |h.k.books.lentAt| && h.k.books.lent[i] == ls[t].c
    requires ls[t].c.id in h.k.lists.inuse
    requires h' == h.(k := Taken(h.k, ls[t].c, i))
    ensures Good(h', ls[t := Removed(ls[t].c, ls[t].again)], r)
    ensures Step(StateOf(h, ls, r), Unlink(t)) == Next(StateOf(h', ls[t := Removed(ls[t].c, ls[t].again)], r))
  {
    assert Fits(h.k.books, ls[t]);
    ViewsUpdate(ls, t, Removed(ls[t].c, ls[t].again));
    ClientMoves(h, h', ls, r, t, Removed(ls[t].c, ls[t].again), Unlink(t));
  }

  lemma RetestGood(h: Shared, h': Shared, ls: seq<Local>, r: RepairLocal, t: nat, n: Node<Conn>)
    requires Good(h, ls, r) && t < |ls| && ls[t].Removed?
    requires h' == h.(k := h.k.(books := h.k.books.(made := h.k.books.made[ls[t].c := n])))
    ensures Good(h', ls[t := Retested(ls[t].c, n, ls[t].again, h.ok)], r)
    ensures Step(StateOf(h, ls, r), Retest(t)) == Next(StateOf(h', ls[t := Retested(ls[t].c, n, ls[t].again, h.ok)], r))
  {
    assert Fits(h.k.books, ls[t]);
    ViewsUpdate(ls, t, Retested(ls[t].c, n, ls[t].again, h.ok));
    ClientMoves(h, h', ls, r, t, Retested(ls[t].c, n, ls[t].again, h.ok), Retest(t));
  }

  lemma PutFreeGood(h: Shared, h': Shared, ls: seq<Local>, r: RepairLocal, t: nat)
    requires Good(h, ls, r) && t < |ls| && ls[t].Freeing?
    requires h' == h.(k := Enlisted(h.k, FreeList, ls[t].c, ls[t].n))
    ensures Good(h', ls[t := Onward(ls[t].again)], r)
    ensures Step(StateOf(h, ls, r), PutFree(t)) == Next(StateOf(h', ls[t := Onward(ls[t].again)], r))
  {
    assert Fits(h.k.books, ls[t]);
    ViewsUpdate(ls, t, Onward(ls[t].again));
    ClientMoves(h, h', ls, r, t, Onward(ls[t].again), PutFree(t));
  }

  lemma PutBadGood(h: Shared, h': Shared, ls: seq<Local>, r: RepairLocal, t: nat)
    requires Good(h, ls, r) && t < |ls| && ls[t].Dropping?
    requires h' == h.(k := Enlisted(h.k, BadList, ls[t].c, ls[t].n))
    ensures Good(h', ls[t := Onward(ls[t].again)], r)
    ensures Step(StateOf(h, ls, r), PutBad(t)) == Next(StateOf(h', ls[t := Onward(ls[t].again)], r))
  {
    assert Fits(h.k.books, ls[t]);
    ViewsUpdate(ls, t, Onward(ls[t].again));
    ClientMoves(h, h', ls, r, t, Onward(ls[t].again), PutBad(t));
  }

  lemma RepairTakeGood(h: Shared, h': Shared, ls: seq<Local>, r: RepairLocal, c: Conn)
    requires Good(h, ls, r) && r.Scanning?
    requires h.k.lists.bad != [] && Registered(h.k.books, c) && c.id == h.k.lists.bad[0]
    requires h' == h.(k := Popped(h.k, BadList))
    ensures Good(h', ls, Fixing(c))
    ensures Step(StateOf(h, ls, r), RepairTake) == Next(StateOf(h', ls, Fixing(c)))
  {
    RepairMoves(h, h', ls, r, Fixing(c), RepairTake);
  }

  lemma MendFails(h: Shared, h': Shared, ls: seq<Local>, r: RepairLocal)
    requires Good(h, ls, r) && r.Fixing?
    requires h' == h.(up := h.up + {r.c.id}, ok := h.ok - {r.c.id})
    ensures Good(h', ls, r)
    ensures Step(StateOf(h, ls, r), Mend(false)) == Next(StateOf(h', ls, r))
  {
    RepairMoves(h, h', ls, r, r, Mend(false));
  }

  lemma MendGood(h: Shared, h': Shared, ls: seq<Local>, r: RepairLocal, n: Node<Conn>)
    requires Good(h, ls, r) && r.Fixing?
    requires h' == h.(up := h.up + {r.c.id}, ok := h.ok + {r.c.id},
      k := h.k.(books := h.k.books.(made := h.k.books.made[r.c := n])))
    ensures Good(h', ls, Fixed(r.c, n))
    ensures Step(StateOf(h, ls, r), Mend(true)) == Next(StateOf(h', ls, Fixed(r.c, n)))
  {
    RepairMoves(h, h', ls, r, Fixed(r.c, n), Mend(true));
  }

  lemma RepairPutGood(h: Shared, h': Shared, ls: seq<Local>, r: RepairLocal)
    requires Good(h, ls, r) && r.Fixed?
    requires h' == h.(k := Enlisted(h.k, FreeList, r.c, r.n))
    ensures Good(h', ls, Scanning)
    ensures Step(StateOf(h, ls, r), RepairPut) == Next(StateOf(h', ls, Scanning))
  {
    RepairMoves(h, h', ls, r, Scanning, RepairPut);
  }

  /** Before the fill no thread carries anything. */
  lemma NobodyCarries(h: Shared, ls: seq<Local>, r: RepairLocal)
    requires Good(h, ls, r) && r.Booting?
    ensures h.k.lists == PerList([], [], []) && h.k.books.all == []
    ensures forall t :: 0 <= t < |ls| ==> !Carried(ls[t])
  {
    NobodyHasAnything(StateOf(h, ls, r));
    forall t | 0 <= t < |ls|
      ensures !Carried(ls[t])
    {
      assert StateOf(h, ls, r).clients[t] == View(ls[t]);
    }
  }

  lemma FillGood(h: Shared, h': Shared, ls: seq<Local>, r: RepairLocal)
    requires Good(h, ls, r) && r.Booting? && |h'.k.books.all| == h.num
    requires h'.k.lists == PerList([], [], AllIds(h.num)) && h' == h.(k := h'.k)
    ensures Good(h', ls, Scanning)
    ensures Step(StateOf(h, ls, r), Fill) == Next(StateOf(h', ls, Scanning))
  {
    NobodyCarries(h, ls, r);
    assert [] + AllIds(h.num) == AllIds(h.num);
    StepInv(StateOf(h, ls, r), Fill);
  }

  /** Among the client threads only t moved. */
  predicate OnlyMoved(th: Threads, th': Threads, t: nat) {
    && |th'.locals| == |th.locals|
    && (forall u :: 0 <= u < |th.locals| && u != t ==> th'.locals[u] == th.locals[u])
  }

  function Going(th: Threads, t: nat, l: Local): Threads
    requires t < |th.locals|
  {
    th.(locals := th.locals[t := l])
  }

  // ---------------------------------------------------------------- one section each

  ghost function Share(pool: Pool, th: Threads): Shared
    reads pool, pool.free, pool.inuse, pool.bad
  {
    Shared(pool.num, pool.Inside(), th.up, th.ok)
  }

  /** The state of the protocol that the heap and the threads' variables stand for. */
  ghost function Abs(pool: Pool, th: Threads): State
    reads pool, pool.free, pool.inuse, pool.bad
  {
    StateOf(Share(pool, th), th.locals, th.repair)
  }

  ghost predicate Valid(pool: Pool, th: Threads)
    reads pool, pool.free, pool.inuse, pool.bad
    reads pool.free.cells, pool.inuse.cells, pool.bad.cells
    reads pool.free.conns, pool.inuse.conns, pool.bad.conns
    reads pool.made.Keys, pool.made.Values
  {
    pool.Valid() && Good(Share(pool, th), th.locals, th.repair)
  }

  /** pgsql_pool_init, with the repair thread started and the clients still away. */
  method Init(num: nat, clients: nat) returns (pool: Pool, th: Threads)
    ensures Valid(pool, th) && fresh(pool)
    ensures Initial(Abs(pool, th)) && Abs(pool, th).num == num && |Abs(pool, th).clients| == clients
  {
    pool := new Pool(num);
    th := Threads(seq(clients, _ => Away), Booting, {}, {});
    InitialInv(Abs(pool, th));
  }

  /** An operation asks for a connection. */
  method StepStart(pool: Pool, th: Threads, t: nat) returns (th': Threads)
    requires Valid(pool, th) && t < |th.locals| && th.locals[t].Away?
    ensures Valid(pool, th') && Step(old(Abs(pool, th)), Start(t)) == Next(Abs(pool, th'))
    ensures OnlyMoved(th, th', t)
  {
    ghost var h := Share(pool, th);
    assert Fits(h.k.books, th.locals[t]);
    th' := Going(th, t, Asking);
    StartGood(h, h, th.locals, th.repair, t);
  }

  /** pgsql_pool_get from lock to unlock of the free list; not done while no connection is free. */
  method StepTake(pool: Pool, th: Threads, t: nat) returns (done: bool, th': Threads)
    requires Valid(pool, th) && t < |th.locals| && th.locals[t].Asking?
    modifies pool.free, pool.free.cells
    ensures Valid(pool, th') && OnlyMoved(th, th', t)
    ensures Step(old(Abs(pool, th)), Take(t)) == if done then Next(Abs(pool, th')) else Disabled
    ensures !done ==> Abs(pool, th') == old(Abs(pool, th))
  {
    ghost var h := Share(pool, th);
    var c := pool.TakeFree();
    done := c != null;
    if done {
      th' := Going(th, t, Took(c));
      TakeGood(h, Share(pool, th'), th.locals, th.repair, t, c);
    } else {
      th' := th;
    }
  }

  /** The test of PQstatus after it, and the node for the list that follows. */
  method StepInspect(pool: Pool, th: Threads, t: nat) returns (th': Threads)
    requires Valid(pool, th) && t < |th.locals| && th.locals[t].Took?
    modifies pool`made, pool`nodes, th.locals[t].c`node
    ensures Valid(pool, th') && Step(old(Abs(pool, th)), Inspect(t)) == Next(Abs(pool, th'))
    ensures HasMade(th'.locals[t]) && th'.locals[t].c == th.locals[t].c
    ensures OnlyMoved(th, th', t) && fresh(pool.nodes - old(pool.nodes))
  {
    ghost var h := Share(pool, th);
    assert Fits(h.k.books, th.locals[t]);
    InHandsOf(h, th.locals, th.repair, t);
    var c := th.locals[t].c;
    var n := pool.Prepare(c);
    th' := Going(th, t, Tested(c, n, th.ok));
    InspectGood(h, Share(pool, th'), th.locals, th.repair, t, n);
  }

  /** Last section of pgsql_pool_get. */
  method StepPutInuse(pool: Pool, th: Threads, t: nat) returns (th': Threads)
    requires Valid(pool, th) && t < |th.locals| && th.locals[t].Lending?
    modifies pool`made, pool.inuse, {th.locals[t].n} + pool.inuse.cells
    ensures Valid(pool, th') && Step(old(Abs(pool, th)), PutInuse(t)) == Next(Abs(pool, th'))
    ensures OnlyMoved(th, th', t)
  {
    ghost var h := Share(pool, th);
    assert Fits(h.k.books, th.locals[t]);
    pool.PutInuse(th.locals[t].c, th.locals[t].n);
    th' := Going(th, t, Borrowed(th.locals[t].c));
    PutInuseGood(h, Share(pool, th'), th.locals, th.repair, t);
  }

  /** The first line of pgsql_pool_release: the node is read, and no lock is taken yet. */
  method StepRelease(pool: Pool, th: Threads, t: nat, again: bool) returns (th': Threads)
    requires Valid(pool, th) && t < |th.locals| && th.locals[t].Borrowed?
    ensures Valid(pool, th') && Step(old(Abs(pool, th)), Release(t, again)) == Next(Abs(pool, th'))
    ensures OnlyMoved(th, th', t) && th.locals[t].c.node != null
    ensures th'.locals[t] == GivingBack(th.locals[t].c, th.locals[t].c.node, again)
  {
    ghost var h := Share(pool, th);
    assert Fits(h.k.books, th.locals[t]);
    var c := th.locals[t].c;
    OnLoanIsInuse(StateOf(h, th.locals, th.repair), t);
    pool.LentOf(c);
    th' := Going(th, t, GivingBack(c, c.node, again));
    ReleaseGood(h, h, th.locals, th.repair, t, c.node, again);
  }

  /** First section of pgsql_pool_release: what is unlinked is the connection of this thread, and
  the node is the one that was read before. */
  method StepUnlink(pool: Pool, th: Threads, t: nat) returns (th': Threads, ghost i: nat)
    requires Valid(pool, th) && t < |th.locals| && th.locals[t].GivingBack?
    modifies pool.inuse, pool.inuse.cells
    ensures Valid(pool, th') && Step(old(Abs(pool, th)), Unlink(t)) == Next(Abs(pool, th'))
    ensures OnlyMoved(th, th', t) && th'.locals[t] == Removed(th.locals[t].c, th.locals[t].again)
    ensures Unlinks(old(pool.inuse.conns), old(pool.inuse.nodes), pool.inuse.conns, th.locals[t].c, th.locals[t].n, i)
    ensures th.locals[t].n.Freed()
  {
    ghost var h := Share(pool, th);
    assert Fits(h.k.books, th.locals[t]);
    var l := th.locals[t];
    i := pool.Unlink(l.c, l.n);
    th' := Going(th, t, Removed(l.c, l.again));
    UnlinkGood(h, Share(pool, th'), th.locals, th.repair, t, i);
  }

  /** The i-th of the connections, c at the node n, is gone, and no other. */
  ghost predicate Unlinks(conns: seq<Conn>, nodes: seq<Node<Conn>>, conns': seq<Conn>, c: Conn, n: Node<Conn>, i: nat) {
    i < |conns| == |nodes| && conns[i] == c && nodes[i] == n && conns' == RemoveAt(conns, i)
  }

  /** The test of PQstatus after it, and the node for the list that follows. */
  method StepRetest(pool: Pool, th: Threads, t: nat) returns (th': Threads)
    requires Valid(pool, th) && t < |th.locals| && th.locals[t].Removed?
    modifies pool`made, pool`nodes, th.locals[t].c`node
    ensures Valid(pool, th') && Step(old(Abs(pool, th)), Retest(t)) == Next(Abs(pool, th'))
    ensures OnlyMoved(th, th', t) && fresh(pool.nodes - old(pool.nodes))
  {
    ghost var h := Share(pool, th);
    assert Fits(h.k.books, th.locals[t]);
    InHandsOf(h, th.locals, th.repair, t);
    var l := th.locals[t];
    var n := pool.Prepare(l.c);
    th' := Going(th, t, Retested(l.c, n, l.again, th.ok));
    RetestGood(h, Share(pool, th'), th.locals, th.repair, t, n);
  }

  /** Last section of pgsql_pool_release, for a good connection. */
  method StepPutFree(pool: Pool, th: Threads, t: nat) returns (th': Threads)
    requires Valid(pool, th) && t < |th.locals| && th.locals[t].Freeing?
    modifies pool`made, pool.free, {th.locals[t].n} + pool.free.cells
    ensures Valid(pool, th') && Step(old(Abs(pool, th)), PutFree(t)) == Next(Abs(pool, th'))
    ensures OnlyMoved(th, th', t)
  {
    ghost var h := Share(pool, th);
    assert Fits(h.k.books, th.locals[t]);
    var l := th.locals[t];
    pool.PutFree(l.c, l.n);
    th' := Going(th, t, Onward(l.again));
    PutFreeGood(h, Share(pool, th'), th.locals, th.repair, t);
  }

  /** A connection found BAD goes to the bad list. */
  method StepPutBad(pool: Pool, th: Threads, t: nat) returns (th': Threads)
    requires Valid(pool, th) && t < |th.locals| && th.locals[t].Dropping?
    modifies pool`made, pool.bad, {th.locals[t].n} + pool.bad.cells
    ensures Valid(pool, th') && Step(old(Abs(pool, th)), PutBad(t)) == Next(Abs(pool, th'))
    ensures OnlyMoved(th, th', t)
  {
    ghost var h := Share(pool, th);
    assert Fits(h.k.books, th.locals[t]);
    var l := th.locals[t];
    pool.PutBad(l.c, l.n);
    th' := Going(th, t, Onward(l.again));
    PutBadGood(h, Share(pool, th'), th.locals, th.repair, t);
  }

  /** PQexec: the PGconn has to be there. */
  method Query(c: Conn, up: set<Id>)
    requires c.id in up
  {
  }

  method StepExec(pool: Pool, th: Threads, t: nat)
    requires Valid(pool, th) && t < |th.locals| && th.locals[t].Borrowed?
    ensures Step(Abs(pool, th), Exec(t)) == Next(Abs(pool, th))
  {
    assert Holds(Abs(pool, th).clients[t], th.locals[t].c.id);
    Query(th.locals[t].c, th.up);
  }

  /** The start of pgsql_pool_thread. */
  method StepFill(pool: Pool, th: Threads) returns (th': Threads)
    requires Valid(pool, th) && th.repair.Booting?
    modifies pool`all, pool`nodes, pool.bad, pool.bad.cells
    ensures Valid(pool, th') && Step(old(Abs(pool, th)), Fill) == Next(Abs(pool, th'))
    ensures th'.locals == th.locals
    ensures fresh(pool.nodes - old(pool.nodes)) && fresh(pool.Everyone() - old(pool.Everyone()))
  {
    ghost var h := Share(pool, th);
    NobodyCarries(h, th.locals, th.repair);
    pool.Fill();
    th' := th.(repair := Scanning);
    FillGood(h, Share(pool, th'), th.locals, th.repair);
  }

  /** The lock of the bad list to its unlock; not done while no connection is bad. */
  method StepRepairTake(pool: Pool, th: Threads) returns (done: bool, th': Threads)
    requires Valid(pool, th) && th.repair.Scanning?
    modifies pool.bad, pool.bad.cells
    ensures Valid(pool, th') && th'.locals == th.locals
    ensures Step(old(Abs(pool, th)), RepairTake) == if done then Next(Abs(pool, th')) else Disabled
    ensures !done ==> Abs(pool, th') == old(Abs(pool, th))
  {
    ghost var h := Share(pool, th);
    var c := pool.TakeBad();
    done := c != null;
    if done {
      th' := th.(repair := Fixing(c));
      RepairTakeGood(h, Share(pool, th'), th.locals, th.repair, c);
    } else {
      th' := th;
    }
  }

  /** pgsql_connect or PQreset goes wrong. */
  method StepMendFails(pool: Pool, th: Threads) returns (th': Threads)
    requires Valid(pool, th) && th.repair.Fixing?
    ensures Valid(pool, th') && Step(Abs(pool, th), Mend(false)) == Next(Abs(pool, th'))
    ensures th'.locals == th.locals
  {
    var c := th.repair.c;
    th' := th.(up := th.up + {c.id}, ok := th.ok - {c.id});
    MendFails(Share(pool, th), Share(pool, th'), th.locals, th.repair);
  }

  /** pgsql_connect or PQreset goes well, and the node for the free list is made. */
  method StepMend(pool: Pool, th: Threads) returns (th': Threads)
    requires Valid(pool, th) && th.repair.Fixing?
    modifies pool`made, pool`nodes, th.repair.c`node
    ensures Valid(pool, th') && Step(old(Abs(pool, th)), Mend(true)) == Next(Abs(pool, th'))
    ensures th'.locals == th.locals && fresh(pool.nodes - old(pool.nodes))
  {
    ghost var h := Share(pool, th);
    var c := th.repair.c;
    RepairSole(h, th.locals, th.repair);
    var n := pool.Prepare(c);
    th' := th.(up := th.up + {c.id}, ok := th.ok + {c.id}, repair := Fixed(c, n));
    MendGood(h, Share(pool, th'), th.locals, th.repair, n);
  }

  /** Last section of a turn of the repair loop. */
  method StepRepairPut(pool: Pool, th: Threads) returns (th': Threads)
    requires Valid(pool, th) && th.repair.Fixed?
    modifies pool`made, pool.free, {th.repair.n} + pool.free.cells
    ensures Valid(pool, th') && Step(old(Abs(pool, th)), RepairPut) == Next(Abs(pool, th'))
    ensures th'.locals == th.locals
  {
    ghost var h := Share(pool, th);
    pool.PutFree(th.repair.c, th.repair.n);
    th' := th.(repair := Scanning);
    RepairPutGood(h, Share(pool, th'), th.locals, th.repair);
  }

  /** A connection goes down, wherever it is. */
  method StepBreak(pool: Pool, th: Threads, c: Id) returns (th': Threads)
    requires Valid(pool, th)
    ensures Valid(pool, th') && Step(Abs(pool, th), Break(c)) == Next(Abs(pool, th'))
    ensures th'.locals == th.locals
  {
    th' := th.(ok := th.ok - {c});
    StepInv(Abs(pool, th), Break(c));
  }

  // ---------------------------------------------------------------- any interleaving

  /** What a step leaves of the frame: nothing but new nodes joins the pool. */
  twostate predicate Frame(pool: Pool)
    reads pool
  {
    && (forall n :: n in pool.nodes ==> n in old(pool.nodes) || fresh(n))
    && (forall c :: c in pool.Everyone() ==> c in old(pool.Everyone()) || fresh(c))
  }

  /** From s the step e leads to s' and is done, or is not possible and nothing happens. */
  predicate Carries(s: State, e: Event, done: bool, s': State) {
    Step(s, e) == (if done then Next(s') else Disabled) && (!done ==> s' == s)
  }

  lemma NodeKnown(pool: Pool, th: Threads, t: nat)
    requires Valid(pool, th) && t < |th.locals| && HasMade(th.locals[t])
    ensures th.locals[t].n in pool.nodes
  {
    assert Fits(pool.Inside().books, th.locals[t]);
  }

  lemma ConnKnown(pool: Pool, th: Threads, t: nat)
    requires Valid(pool, th) && t < |th.locals| && Carried(th.locals[t])
    ensures th.locals[t].c in pool.Everyone()
  {
    assert Fits(pool.Inside().books, th.locals[t]);
  }

  lemma RepairKnown(pool: Pool, th: Threads)
    requires Valid(pool, th)
    ensures th.repair.Fixing? ==> th.repair.c in pool.Everyone()
    ensures th.repair.Fixed? ==> th.repair.n in pool.nodes
  {
  }

  // Each of these carries out one event, if it is that thread's turn for it.

  method TryGet(pool: Pool, th: Threads, e: Event) returns (done: bool, th': Threads)
    requires Valid(pool, th) && (e.Start? || e.Take?)
    modifies pool, pool.free, pool.inuse, pool.bad, pool.nodes, pool.Everyone()
    ensures Valid(pool, th') && Frame(pool) && OnlyMoved(th, th', e.t)
    ensures Carries(old(Abs(pool, th)), e, done, Abs(pool, th'))
  {
    done, th' := false, th;
    if e.t < |th.locals| {
      if e.Start? && th.locals[e.t].Away? {
        th' := StepStart(pool, th, e.t);
        done := true;
      } else if e.Take? && th.locals[e.t].Asking? {
        done, th' := StepTake(pool, th, e.t);
      }
    }
  }

  method TryInspect(pool: Pool, th: Threads, e: Event) returns (done: bool, th': Threads)
    requires Valid(pool, th) && e.Inspect?
    modifies pool, pool.free, pool.inuse, pool.bad, pool.nodes, pool.Everyone()
    ensures Valid(pool, th') && Frame(pool) && OnlyMoved(th, th', e.t)
    ensures Carries(old(Abs(pool, th)), e, done, Abs(pool, th'))
  {
    done, th' := false, th;
    if e.t < |th.locals| && th.locals[e.t].Took? {
      ConnKnown(pool, th, e.t);
      th' := StepInspect(pool, th, e.t);
      done := true;
    }
  }

  method TryPutInuse(pool: Pool, th: Threads, e: Event) returns (done: bool, th': Threads)
    requires Valid(pool, th) && e.PutInuse?
    modifies pool, pool.free, pool.inuse, pool.bad, pool.nodes, pool.Everyone()
    ensures Valid(pool, th') && Frame(pool) && OnlyMoved(th, th', e.t)
    ensures Carries(old(Abs(pool, th)), e, done, Abs(pool, th'))
  {
    done, th' := false, th;
    if e.t < |th.locals| && th.locals[e.t].Lending? {
      th' := StepPutInuse(pool, th, e.t);
      done := true;
    }
  }

  method TryUse(pool: Pool, th: Threads, e: Event) returns (done: bool, th': Threads)
    requires Valid(pool, th) && (e.Exec? || e.Release?)
    modifies pool, pool.free, pool.inuse, pool.bad, pool.nodes, pool.Everyone()
    ensures Valid(pool, th') && Frame(pool) && OnlyMoved(th, th', e.t)
    ensures Carries(old(Abs(pool, th)), e, done, Abs(pool, th'))
  {
    done, th' := false, th;
    if e.t < |th.locals| && th.locals[e.t].Borrowed? {
      if e.Exec? {
        StepExec(pool, th, e.t);
      } else {
        th' := StepRelease(pool, th, e.t, e.again);
      }
      done := true;
    }
  }

  method TryUnlink(pool: Pool, th: Threads, e: Event) returns (done: bool, th': Threads)
    requires Valid(pool, th) && e.Unlink?
    modifies pool, pool.free, pool.inuse, pool.bad, pool.nodes, pool.Everyone()
    ensures Valid(pool, th') && Frame(pool) && OnlyMoved(th, th', e.t)
    ensures Carries(old(Abs(pool, th)), e, done, Abs(pool, th'))
  {
    done, th' := false, th;
    if e.t < |th.locals| && th.locals[e.t].GivingBack? {
      ghost var i;
      th', i := StepUnlink(pool, th, e.t);
      done := true;
    }
  }

  method TryRetest(pool: Pool, th: Threads, e: Event) returns (done: bool, th': Threads)
    requires Valid(pool, th) && e.Retest?
    modifies pool, pool.free, pool.inuse, pool.bad, pool.nodes, pool.Everyone()
    ensures Valid(pool, th') && Frame(pool) && OnlyMoved(th, th', e.t)
    ensures Carries(old(Abs(pool, th)), e, done, Abs(pool, th'))
  {
    done, th' := false, th;
    if e.t < |th.locals| && th.locals[e.t].Removed? {
      ConnKnown(pool, th, e.t);
      th' := StepRetest(pool, th, e.t);
      done := true;
    }
  }

  method TryPutFree(pool: Pool, th: Threads, e: Event) returns (done: bool, th': Threads)
    requires Valid(pool, th) && e.PutFree?
    modifies pool, pool.free, pool.inuse, pool.bad, pool.nodes, pool.Everyone()
    ensures Valid(pool, th') && Frame(pool) && OnlyMoved(th, th', e.t)
    ensures Carries(old(Abs(pool, th)), e, done, Abs(pool, th'))
  {
    done, th' := false, th;
    if e.t < |th.locals| && th.locals[e.t].Freeing? {
      NodeKnown(pool, th, e.t);
      th' := StepPutFree(pool, th, e.t);
      done := true;
    }
  }

  method TryPutBad(pool: Pool, th: Threads, e: Event) returns (done: bool, th': Threads)
    requires Valid(pool, th) && e.PutBad?
    modifies pool, pool.free, pool.inuse, pool.bad, pool.nodes, pool.Everyone()
    ensures Valid(pool, th') && Frame(pool) && OnlyMoved(th, th', e.t)
    ensures Carries(old(Abs(pool, th)), e, done, Abs(pool, th'))
  {
    done, th' := false, th;
    if e.t < |th.locals| && th.locals[e.t].Dropping? {
      NodeKnown(pool, th, e.t);
      th' := StepPutBad(pool, th, e.t);
      done := true;
    }
  }

  method TryFill(pool: Pool, th: Threads, e: Event) returns (done: bool, th': Threads)
    requires Valid(pool, th) && e.Fill?
    modifies pool, pool.free, pool.inuse, pool.bad, pool.nodes, pool.Everyone()
    ensures Valid(pool, th') && Frame(pool) && th'.locals == th.locals
    ensures Carries(old(Abs(pool, th)), e, done, Abs(pool, th'))
  {
    done, th' := false, th;
    if th.repair.Booting? {
      th' := StepFill(pool, th);
      done := true;
    }
  }

  method TryRepairTake(pool: Pool, th: Threads, e: Event) returns (done: bool, th': Threads)
    requires Valid(pool, th) && e.RepairTake?
    modifies pool, pool.free, pool.inuse, pool.bad, pool.nodes, pool.Everyone()
    ensures Valid(pool, th') && Frame(pool) && th'.locals == th.locals
    ensures Carries(old(Abs(pool, th)), e, done, Abs(pool, th'))
  {
    done, th' := false, th;
    if th.repair.Scanning? {
      done, th' := StepRepairTake(pool, th);
    }
  }

  method TryMend(pool: Pool, th: Threads, e: Event) returns (done: bool, th': Threads)
    requires Valid(pool, th) && e.Mend?
    modifies pool, pool.free, pool.inuse, pool.bad, pool.nodes, pool.Everyone()
    ensures Valid(pool, th') && Frame(pool) && th'.locals == th.locals
    ensures Carries(old(Abs(pool, th)), e, done, Abs(pool, th'))
  {
    done, th' := false, th;
    if th.repair.Fixing? {
      if e.success {
        RepairKnown(pool, th);
        th' := StepMend(pool, th);
      } else {
        th' := StepMendFails(pool, th);
      }
      done := true;
    }
  }

  method TryRepairPut(pool: Pool, th: Threads, e: Event) returns (done: bool, th': Threads)
    requires Valid(pool, th) && e.RepairPut?
    modifies pool, pool.free, pool.inuse, pool.bad, pool.nodes, pool.Everyone()
    ensures Valid(pool, th') && Frame(pool) && th'.locals == th.locals
    ensures Carries(old(Abs(pool, th)), e, done, Abs(pool, th'))
  {
    done, th' := false, th;
    if th.repair.Fixed? {
      RepairKnown(pool, th);
      th' := StepRepairPut(pool, th);
      done := true;
    }
  }

  method DoClient(pool: Pool, th: Threads, e: Event) returns (done: bool, th': Threads)
    requires Valid(pool, th) && ByClient(e)
    modifies pool, pool.free, pool.inuse, pool.bad, pool.nodes, pool.Everyone()
    ensures Valid(pool, th') && Frame(pool) && OnlyMoved(th, th', e.t)
    ensures Carries(old(Abs(pool, th)), e, done, Abs(pool, th'))
  {
    match e
    case Start(_) => done, th' := TryGet(pool, th, e);
    case Take(_) => done, th' := TryGet(pool, th, e);
    case Inspect(_) => done, th' := TryInspect(pool, th, e);
    case PutInuse(_) => done, th' := TryPutInuse(pool, th, e);
    case Exec(_) => done, th' := TryUse(pool, th, e);
    case Release(_, _) => done, th' := TryUse(pool, th, e);
    case Unlink(_) => done, th' := TryUnlink(pool, th, e);
    case Retest(_) => done, th' := TryRetest(pool, th, e);
    case PutFree(_) => done, th' := TryPutFree(pool, th, e);
    case PutBad(_) => done, th' := TryPutBad(pool, th, e);
  }

  method DoOther(pool: Pool, th: Threads, e: Event) returns (done: bool, th': Threads)
    requires Valid(pool, th) && !ByClient(e)
    modifies pool, pool.free, pool.inuse, pool.bad, pool.nodes, pool.Everyone()
    ensures Valid(pool, th') && Frame(pool) && th'.locals == th.locals
    ensures Carries(old(Abs(pool, th)), e, done, Abs(pool, th'))
  {
    match e
    case Fill => done, th' := TryFill(pool, th, e);
    case RepairTake => done, th' := TryRepairTake(pool, th, e);
    case Mend(_) => done, th' := TryMend(pool, th, e);
    case RepairPut => done, th' := TryRepairPut(pool, th, e);
    case Break(c) =>
      th' := StepBreak(pool, th, c);
      done := true;
  }

  predicate By(e: Event, t: nat) {
    ByClient(e) && e.t == t
  }

  /** Any one step of any thread, over the heap, is that step of the protocol. */
  method Do(pool: Pool, th: Threads, e: Event) returns (done: bool, th': Threads)
    requires Valid(pool, th)
    modifies pool, pool.free, pool.inuse, pool.bad, pool.nodes, pool.Everyone()
    ensures Valid(pool, th') && Frame(pool)
    ensures Carries(old(Abs(pool, th)), e, done, Abs(pool, th'))
    ensures |th'.locals| == |th.locals|
    ensures forall u :: 0 <= u < |th.locals| && !By(e, u) ==> th'.locals[u] == th.locals[u]
  {
    if ByClient(e) {
      done, th' := DoClient(pool, th, e);
    } else {
      done, th' := DoOther(pool, th, e);
    }
  }

  /** Any interleaving, up to the first event that is not possible, is a run of the protocol. */
  method Run(pool: Pool, th: Threads, es: seq<Event>) returns (done: bool, th': Threads)
    requires Valid(pool, th)
    modifies pool, pool.free, pool.inuse, pool.bad, pool.nodes, pool.Everyone()
    ensures Valid(pool, th') && Frame(pool)
    ensures PoolRuns.Run(old(Abs(pool, th)), es) == if done then Next(Abs(pool, th')) else Disabled
    decreases |es|
  {
    if es == [] {
      return true, th;
    }
    done, th' := Do(pool, th, es[0]);
    if done {
      done, th' := Run(pool, th', es[1..]);
    }
  }

  /** Whatever the other threads do, those of their events that are possible happen, and thread t
  finds its variables as they were; and they still fit the heap. */
  method Interfere(pool: Pool, th: Threads, es: seq<Event>, ghost t: nat) returns (th': Threads)
    requires Valid(pool, th) && t < |th.locals| && forall e :: e in es ==> !By(e, t)
    modifies pool, pool.free, pool.inuse, pool.bad, pool.nodes, pool.Everyone()
    ensures Valid(pool, th') && Frame(pool)
    ensures Abs(pool, th') == PoolRuns.Through(old(Abs(pool, th)), es)
    ensures |th'.locals| == |th.locals| && th'.locals[t] == th.locals[t]
    decreases |es|
  {
    if es == [] {
      return th;
    }
    assert es[0] in es;
    var done;
    done, th' := Do(pool, th, es[0]);
    th' := Interfere(pool, th', es[1..], t);
  }

  /** Where the protocol stands after an event e of a thread and then any events es of others. */
  function Meanwhile(s: State, e: Event, es: seq<Event>): State
    requires Step(s, e).Next?
  {
    PoolRuns.Through(Step(s, e).s, es)
  }

  /** pgsql_pool_release up to its first unlock.  The node is read before the lock is taken; then
  any sections of other threads run; and still the unlink with that node removes this connection
  and no other from the list as those sections have left it. */
  method ReleaseLate(pool: Pool, th: Threads, t: nat, again: bool, es: seq<Event>)
    returns (th': Threads, ghost n: Node<Conn>, ghost before: seq<Conn>, ghost i: nat)
    requires Valid(pool, th) && t < |th.locals| && th.locals[t].Borrowed? && forall e :: e in es ==> !By(e, t)
    modifies pool, pool.free, pool.inuse, pool.bad, pool.nodes, pool.Everyone()
    ensures Valid(pool, th') && t < |th'.locals| && th'.locals[t] == Removed(th.locals[t].c, again)
    ensures n == old(th.locals[t].c.node) && n.Freed()
    ensures Step(old(Abs(pool, th)), Release(t, again)).Next?
    ensures Step(Meanwhile(old(Abs(pool, th)), Release(t, again), es), Unlink(t)) == Next(Abs(pool, th'))
    ensures Ids(before) == Meanwhile(old(Abs(pool, th)), Release(t, again), es).lists.inuse
    ensures i < |before| && before[i] == th.locals[t].c && pool.inuse.conns == RemoveAt(before, i)
  {
    var th1 := StepRelease(pool, th, t, again);
    n := th1.locals[t].n;
    var th2 := Interfere(pool, th1, es, t);
    before := pool.inuse.conns;
    th', i := StepUnlink(pool, th2, t);
  }

  /** The node made for a list waits for the lock while any sections of other threads run: it
  still carries its connection, is on no list, and is the one the connection points at. */
  method InspectEarly(pool: Pool, th: Threads, t: nat, es: seq<Event>) returns (th': Threads)
    requires Valid(pool, th) && t < |th.locals| && th.locals[t].Took? && forall e :: e in es ==> !By(e, t)
    modifies pool, pool.free, pool.inuse, pool.bad, pool.nodes, pool.Everyone()
    ensures Valid(pool, th') && t < |th'.locals| && HasMade(th'.locals[t]) && th'.locals[t].c == th.locals[t].c
    ensures Step(old(Abs(pool, th)), Inspect(t)).Next?
    ensures Abs(pool, th') == Meanwhile(old(Abs(pool, th)), Inspect(t), es)
    ensures pool.Loose(th'.locals[t].c, th'.locals[t].n)
  {
    ConnKnown(pool, th, t);
    var th1 := StepInspect(pool, th, t);
    th' := Interfere(pool, th1, es, t);
    StillLoose(pool, th', t);
  }

  lemma StillLoose(pool: Pool, th: Threads, t: nat)
    requires Valid(pool, th) && t < |th.locals| && HasMade(th.locals[t])
    ensures pool.Loose(th.locals[t].c, th.locals[t].n)
  {
    assert Fits(pool.Inside().books, th.locals[t]);
  }
}
