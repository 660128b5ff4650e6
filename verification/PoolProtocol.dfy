/** The PostgreSQL connection pool as a transition system, one step per critical
section of src/plugins/storage/pgsql_pool.c.

Any number of client threads run storage operations; one repair thread runs
pgsql_pool_thread.  Between two critical sections a connection is on no list: it
is carried by the thread that moves it.  The environment may turn any connection
BAD at any moment.  Runs in which `quit` is never raised are described.
 */
module PoolProtocol {
  type Id = nat

  datatype Which = FreeList | InuseList | BadList

  /** One value for each of the three lists. */
  datatype PerList<T> = PerList(free: T, inuse: T, bad: T) {
    function Get(w: Which): T {
      match w
      case FreeList => free
      case InuseList => inuse
      case BadList => bad
    }

    function Set(w: Which, v: T): (r: PerList<T>)
      ensures forall x: Which {:trigger r.Get(x)} :: r.Get(x) == if x == w then v else Get(x)
    {
      match w
      case FreeList => this.(free := v)
      case InuseList => this.(inuse := v)
      case BadList => this.(bad := v)
    }
  }

  /** Where a client thread stands in the life of one connection.  `again` says that
  the storage operation calls pgsql_pool_get once more after the release. */
  datatype Client =
    | Idle                             // outside every storage operation
    | Getting                          // at the retry label of pgsql_pool_get
    | Grabbed(c: Id)                   // off the free list, status not tested yet
    | Admitting(c: Id)                 // found OK, about to go on the in-use list
    | Using(c: Id)                     // returned by pgsql_pool_get
    | Leaving(c: Id, again: bool)      // in pgsql_pool_release, still on the in-use list
    | Unlinked(c: Id, again: bool)     // off the in-use list, status not tested yet
    | Returning(c: Id, again: bool)    // found OK, about to go on the free list
    | Rejecting(c: Id, again: bool)    // found BAD, about to go on the bad list

  datatype Repair =
    | Starting                         // the lists are not filled yet
    | Watching                         // waits for a bad connection
    | Mending(c: Id)                   // took c, connecting or resetting it
    | Mended(c: Id)                    // c came up, about to go on the free list

  /** `up`: PGconn allocated; `ok`: PQstatus answers CONNECTION_OK. */
  datatype State = State(num: nat, lists: PerList<seq<Id>>, clients: seq<Client>, repair: Repair,
                         up: set<Id>, ok: set<Id>)

  datatype Event =
    | Start(t: nat)
    | Take(t: nat)
    | Inspect(t: nat)
    | PutInuse(t: nat)
    | Exec(t: nat)
    | Release(t: nat, again: bool)
    | Unlink(t: nat)
    | Retest(t: nat)
    | PutFree(t: nat)
    | PutBad(t: nat)
    | Fill
    | RepairTake
    | Mend(success: bool)
    | RepairPut
    | Break(c: Id)

  /** Fault: a dequeue from an empty list, an unlink of a connection that is not on the
  in-use list, or a query on a connection that was never opened. */
  datatype Outcome<+S> = Disabled | Fault | Next(s: S)

  function AllIds(num: nat): (r: seq<Id>)
    ensures |r| == num && forall i :: 0 <= i < num ==> r[i] == i
  {
    seq(num, i => i)
  }

  /** How often c occurs in xs. */
  function Occurs(xs: seq<Id>, c: Id): (n: nat)
    ensures n > 0 <==> c in xs
  {
    if xs == [] then 0 else (if xs[0] == c then 1 else 0) + Occurs(xs[1..], c)
  }

  lemma {:induction false} OccursConcat(xs: seq<Id>, ys: seq<Id>, c: Id)
    ensures Occurs(xs + ys, c) == Occurs(xs, c) + Occurs(ys, c)
  {
    if xs == [] {
      assert xs + ys == ys;
    } else {
      assert (xs + ys)[1..] == xs[1..] + ys;
      OccursConcat(xs[1..], ys, c);
    }
  }

  lemma {:induction false} OccursUpTo(ids: seq<Id>, lo: nat, c: Id)
    requires forall i :: 0 <= i < |ids| ==> ids[i] == lo + i
    ensures Occurs(ids, c) == if lo <= c < lo + |ids| then 1 else 0
  {
    if ids != [] { OccursUpTo(ids[1..], lo + 1, c); }
  }

  /** The list without the first occurrence of x. */
  function Without(xs: seq<Id>, x: Id): (r: seq<Id>)
    requires x in xs
    ensures |r| == |xs| - 1
    ensures forall c :: Occurs(r, c) == Occurs(xs, c) - if c == x then 1 else 0
  {
    if xs[0] == x then xs[1..] else [xs[0]] + Without(xs[1..], x)
  }

  function After(again: bool): Client {
    if again then Getting else Idle
  }

  function SetClient(s: State, t: nat, cl: Client): State
    requires t < |s.clients|
  {
    s.(clients := s.clients[t := cl])
  }

  function Append(s: State, w: Which, c: Id): State {
    s.(lists := s.lists.Set(w, s.lists.Get(w) + [c]))
  }

  predicate ByClient(e: Event) {
    !e.Fill? && !e.RepairTake? && !e.Mend? && !e.RepairPut? && !e.Break?
  }

  function ClientStep(s: State, e: Event): Outcome<State>
    requires ByClient(e)
  {
    if e.t >= |s.clients| then Disabled
    else
      match (e, s.clients[e.t])
      case (Start(t), Idle) => Next(SetClient(s, t, Getting))
      case (Take(t), Getting) =>
        if s.lists.free == [] then Disabled
        else Next(SetClient(s, t, Grabbed(s.lists.free[0])).(lists := s.lists.(free := s.lists.free[1..])))
      case (Inspect(t), Grabbed(c)) =>
        Next(SetClient(s, t, if c in s.ok then Admitting(c) else Rejecting(c, true)))
      case (PutInuse(t), Admitting(c)) => Next(Append(SetClient(s, t, Using(c)), InuseList, c))
      case (Exec(t), Using(c)) => if c in s.up then Next(s) else Fault
      case (Release(t, again), Using(c)) => Next(SetClient(s, t, Leaving(c, again)))
      case (Unlink(t), Leaving(c, again)) =>
        if c !in s.lists.inuse then Fault
        else Next(SetClient(s, t, Unlinked(c, again)).(lists := s.lists.(inuse := Without(s.lists.inuse, c))))
      case (Retest(t), Unlinked(c, again)) =>
        Next(SetClient(s, t, if c in s.ok then Returning(c, again) else Rejecting(c, again)))
      case (PutFree(t), Returning(c, again)) => Next(Append(SetClient(s, t, After(again)), FreeList, c))
      case (PutBad(t), Rejecting(c, again)) => Next(Append(SetClient(s, t, After(again)), BadList, c))
      case _ => Disabled
  }

  function Step(s: State, e: Event): Outcome<State> {
    match e
    case Fill =>
      if s.repair.Starting?
      then Next(s.(lists := s.lists.(bad := s.lists.bad + AllIds(s.num)), repair := Watching))
      else Disabled
    case RepairTake =>
      if s.repair.Watching? && s.lists.bad != []
      then Next(s.(lists := s.lists.(bad := s.lists.bad[1..]), repair := Mending(s.lists.bad[0])))
      else Disabled
    case Mend(success) =>
      if !s.repair.Mending? then Disabled
      else if success then Next(s.(repair := Mended(s.repair.c), up := s.up + {s.repair.c}, ok := s.ok + {s.repair.c}))
      else Next(s.(up := s.up + {s.repair.c}, ok := s.ok - {s.repair.c}))
    case RepairPut =>
      if s.repair.Mended? then Next(Append(s, FreeList, s.repair.c).(repair := Watching)) else Disabled
    case Break(c) => Next(s.(ok := s.ok - {c}))
    case _ => ClientStep(s, e)
  }

  ghost predicate Initial(s: State) {
    && s.lists == PerList([], [], [])
    && (forall t :: 0 <= t < |s.clients| ==> s.clients[t] == Idle)
    && s.repair == Starting && s.up == {} && s.ok == {}
  }

  // ---------------------------------------------------------------- who has what

  /** Two ways for a client to have a connection: in its hands between two critical
  sections and on no list, or borrowed, which leaves it on the in-use list. */
  datatype Hold = InHand | OnLoan

  predicate Keeps(h: Hold, cl: Client)
    ensures Keeps(h, cl) ==> !cl.Idle? && !cl.Getting?
  {
    match cl
    case Idle | Getting => false
    case Using(_) | Leaving(_, _) => h.OnLoan?
    case _ => h.InHand?
  }

  function Has(h: Hold, cl: Client, c: Id): nat {
    if Keeps(h, cl) && cl.c == c then 1 else 0
  }

  /** The client holds c in one way or the other. */
  predicate Holds(cl: Client, c: Id) {
    !cl.Idle? && !cl.Getting? && cl.c == c
  }

  predicate RepairHolds(r: Repair, c: Id) {
    (r.Mending? || r.Mended?) && r.c == c
  }

  function Total(h: Hold, cs: seq<Client>, c: Id): nat {
    if cs == [] then 0 else Has(h, cs[0], c) + Total(h, cs[1..], c)
  }

  lemma {:induction false} TotalUpdate(h: Hold, cs: seq<Client>, t: nat, cl: Client, c: Id)
    requires t < |cs|
    ensures Total(h, cs[t := cl], c) == Total(h, cs, c) - Has(h, cs[t], c) + Has(h, cl, c)
  {
    if t > 0 {
      assert cs[t := cl][1..] == cs[1..][t - 1 := cl];
      TotalUpdate(h, cs[1..], t - 1, cl, c);
    } else {
      assert cs[t := cl][1..] == cs[1..];
    }
  }

  lemma {:induction false} TotalHas(h: Hold, cs: seq<Client>, t: nat, c: Id)
    requires t < |cs|
    ensures Has(h, cs[t], c) <= Total(h, cs, c)
  {
    if t > 0 { TotalHas(h, cs[1..], t - 1, c); }
  }

  lemma {:induction false} TotalHasTwo(h: Hold, cs: seq<Client>, t: nat, u: nat, c: Id)
    requires t < u < |cs|
    ensures Has(h, cs[t], c) + Has(h, cs[u], c) <= Total(h, cs, c)
  {
    if t > 0 { TotalHasTwo(h, cs[1..], t - 1, u - 1, c); } else { TotalHas(h, cs[1..], u - 1, c); }
  }

  lemma {:induction false} TotalFrom(h: Hold, cs: seq<Client>, c: Id) returns (t: nat)
    requires Total(h, cs, c) > 0
    ensures t < |cs| && Has(h, cs[t], c) > 0
  {
    if Has(h, cs[0], c) > 0 {
      t := 0;
    } else {
      t := TotalFrom(h, cs[1..], c);
      t := t + 1;
    }
  }

  // ---------------------------------------------------------------- the invariant

  /** How many times the connection c exists, counting every list and every pair of hands. */
  function Copies(s: State, c: Id): nat {
    Occurs(s.lists.free, c) + Occurs(s.lists.inuse, c) + Occurs(s.lists.bad, c)
    + Total(InHand, s.clients, c) + if RepairHolds(s.repair, c) then 1 else 0
  }

  ghost predicate Conserved(s: State) {
    forall c: Id :: Copies(s, c) == if !s.repair.Starting? && c < s.num then 1 else 0
  }

  /** The in-use list holds exactly the connections that pgsql_pool_get has handed out. */
  ghost predicate InuseIsOnLoan(s: State) {
    forall c: Id :: Occurs(s.lists.inuse, c) == Total(OnLoan, s.clients, c)
  }

  /** Only connections that have been opened leave the repair thread. */
  ghost predicate Opened(s: State) {
    && s.ok <= s.up
    && (forall c :: c in s.lists.free ==> c in s.up)
    && (forall t, c :: 0 <= t < |s.clients| && Holds(s.clients[t], c) ==> c in s.up)
    && (s.repair.Mended? ==> s.repair.c in s.up)
  }

  ghost predicate Inv(s: State) {
    Conserved(s) && InuseIsOnLoan(s) && Opened(s)
  }

  lemma {:induction false} NobodyHas(h: Hold, cs: seq<Client>, c: Id)
    requires forall t :: 0 <= t < |cs| ==> Has(h, cs[t], c) == 0
    ensures Total(h, cs, c) == 0
  {
    if cs != [] { NobodyHas(h, cs[1..], c); }
  }

  lemma InitialInv(s: State)
    requires Initial(s)
    ensures Inv(s)
  {
    forall c: Id
      ensures Copies(s, c) == 0 && Total(OnLoan, s.clients, c) == 0
    {
      NobodyHas(InHand, s.clients, c);
      NobodyHas(OnLoan, s.clients, c);
    }
  }

  /** A borrowed connection is on the in-use list. */
  lemma OnLoanIsInuse(s: State, t: nat)
    requires InuseIsOnLoan(s) && t < |s.clients|
    ensures s.clients[t].Using? || s.clients[t].Leaving? ==> s.clients[t].c in s.lists.inuse
  {
    var cl := s.clients[t];
    if cl.Using? || cl.Leaving? {
      TotalHas(OnLoan, s.clients, t, cl.c);
      assert Occurs(s.lists.inuse, cl.c) == Total(OnLoan, s.clients, cl.c);
    }
  }

  /** Putting a connection on a list moves it out of the client's hands. */
  lemma PutCopies(s: State, e: Event, c: Id)
    requires (e.PutInuse? || e.PutFree? || e.PutBad?) && ClientStep(s, e).Next?
    ensures Copies(ClientStep(s, e).s, c) == Copies(s, c)
  {
    var cl := s.clients[e.t];
    TotalUpdate(InHand, s.clients, e.t, ClientStep(s, e).s.clients[e.t], c);
    match e
    case PutInuse(_) => OccursConcat(s.lists.inuse, [cl.c], c);
    case PutFree(_) => OccursConcat(s.lists.free, [cl.c], c);
    case PutBad(_) => OccursConcat(s.lists.bad, [cl.c], c);
  }

  /** A client's critical section neither makes nor loses a copy of any connection. */
  lemma ClientCopies(s: State, e: Event, c: Id)
    requires ByClient(e) && ClientStep(s, e).Next?
    ensures Copies(ClientStep(s, e).s, c) == Copies(s, c)
  {
    if e.PutInuse? || e.PutFree? || e.PutBad? {
      PutCopies(s, e, c);
    } else if !e.Exec? {
      TotalUpdate(InHand, s.clients, e.t, ClientStep(s, e).s.clients[e.t], c);
    }
  }

  /** It lends a connection exactly when it puts one on the in-use list. */
  lemma ClientLoans(s: State, e: Event, c: Id)
    requires ByClient(e) && ClientStep(s, e).Next?
    ensures var s' := ClientStep(s, e).s;
      Occurs(s'.lists.inuse, c) - Total(OnLoan, s'.clients, c) == Occurs(s.lists.inuse, c) - Total(OnLoan, s.clients, c)
  {
    if !e.Exec? { TotalUpdate(OnLoan, s.clients, e.t, ClientStep(s, e).s.clients[e.t], c); }
    if e.PutInuse? { OccursConcat(s.lists.inuse, [s.clients[e.t].c], c); }
  }

  lemma ClientOpened(s: State, e: Event)
    requires Inv(s) && ByClient(e) && ClientStep(s, e).Next?
    ensures Opened(ClientStep(s, e).s)
  {
    var s' := ClientStep(s, e).s;
    forall u, c | 0 <= u < |s'.clients| && Holds(s'.clients[u], c)
      ensures c in s'.up
    {
      assert u != e.t ==> s'.clients[u] == s.clients[u];
      assert Holds(s.clients[u], c) || c in s.lists.free;
    }
    assert forall c :: Holds(s.clients[e.t], c) ==> c in s.up;
    forall c | c in s'.lists.free
      ensures c in s'.up
    {
      assert c in s.lists.free || Holds(s.clients[e.t], c);
    }
  }

  /** The critical sections of pgsql_pool_get and pgsql_pool_release. */
  lemma ClientStepInv(s: State, e: Event)
    requires Inv(s) && ByClient(e)
    ensures ClientStep(s, e) != Fault
    ensures ClientStep(s, e).Next? ==> Inv(ClientStep(s, e).s)
  {
    if e.t < |s.clients| {
      OnLoanIsInuse(s, e.t);
      assert s.clients[e.t].Using? ==> Holds(s.clients[e.t], s.clients[e.t].c);
      if ClientStep(s, e).Next? {
        ClientOpened(s, e);
        forall c: Id { ClientCopies(s, e, c); }
        forall c: Id { ClientLoans(s, e, c); }
      }
    }
  }

  lemma RepairBooks(s: State, e: Event, c: Id)
    requires !ByClient(e) && Step(s, e).Next? && Conserved(s)
    ensures Copies(Step(s, e).s, c) == if !Step(s, e).s.repair.Starting? && c < s.num then 1 else 0
  {
    assert Copies(s, c) == if !s.repair.Starting? && c < s.num then 1 else 0;
    match e
    case Fill =>
      OccursConcat(s.lists.bad, AllIds(s.num), c);
      OccursUpTo(AllIds(s.num), 0, c);
    case RepairPut => OccursConcat(s.lists.free, [s.repair.c], c);
    case _ =>
  }

  lemma StepInv(s: State, e: Event)
    requires Inv(s)
    ensures Step(s, e) != Fault
    ensures Step(s, e).Next? ==> Inv(Step(s, e).s)
  {
    if ByClient(e) {
      ClientStepInv(s, e);
    } else if Step(s, e).Next? {
      forall c: Id { RepairBooks(s, e, c); }
    }
  }

  // ---------------------------------------------------------------- what the invariant says of holders

  lemma NobodyHolds(s: State, t: nat, c: Id)
    requires Inv(s) && s.repair.Starting? && t < |s.clients|
    ensures !Holds(s.clients[t], c)
  {
    assert Copies(s, c) == 0 && Occurs(s.lists.inuse, c) == Total(OnLoan, s.clients, c);
    TotalHas(InHand, s.clients, t, c);
    TotalHas(OnLoan, s.clients, t, c);
  }

  lemma SomethingOccurs(xs: seq<Id>)
    ensures xs == [] || exists c: Id :: Occurs(xs, c) > 0
  {
    if xs != [] { assert Occurs(xs, xs[0]) > 0; }
  }

  /** Before the fill there is no connection anywhere. */
  lemma NobodyHasAnything(s: State)
    requires Inv(s) && s.repair.Starting?
    ensures s.lists == PerList([], [], [])
    ensures forall t :: 0 <= t < |s.clients| ==> s.clients[t].Idle? || s.clients[t].Getting?
  {
    SomethingOccurs(s.lists.free);
    SomethingOccurs(s.lists.inuse);
    SomethingOccurs(s.lists.bad);
    assert forall c: Id :: Occurs(s.lists.free, c) + Occurs(s.lists.inuse, c) + Occurs(s.lists.bad, c) <= Copies(s, c);
    forall t, c | 0 <= t < |s.clients|
      ensures !Holds(s.clients[t], c)
    {
      NobodyHolds(s, t, c);
    }
    assert forall t :: 0 <= t < |s.clients| && !s.clients[t].Idle? && !s.clients[t].Getting? ==>
      Holds(s.clients[t], s.clients[t].c);
  }

  /** No connection is held by two threads. */
  lemma HeldByOne(s: State, t: nat, c: Id)
    requires Inv(s) && t < |s.clients| && Holds(s.clients[t], c)
    ensures forall u :: 0 <= u < |s.clients| && Holds(s.clients[u], c) ==> u == t
    ensures !RepairHolds(s.repair, c)
  {
    assert Copies(s, c) <= 1 && Occurs(s.lists.inuse, c) == Total(OnLoan, s.clients, c);
    TotalHas(InHand, s.clients, t, c);
    TotalHas(OnLoan, s.clients, t, c);
    forall u | 0 <= u < |s.clients| && Holds(s.clients[u], c)
      ensures u == t
    {
      TotalHas(InHand, s.clients, u, c);
      TotalHas(OnLoan, s.clients, u, c);
      if u != t {
        TotalHasTwo(InHand, s.clients, if u < t then u else t, if u < t then t else u, c);
        TotalHasTwo(OnLoan, s.clients, if u < t then u else t, if u < t then t else u, c);
      }
    }
  }
}
