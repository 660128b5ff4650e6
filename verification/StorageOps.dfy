/** The storage operations of src/plugins/storage/pgsql.c running on the pool.

Each operation is cut at its calls: pgsql_pool_get, a query, pgsql_pool_release.  What
pgsql_pool_conncheck and the result of a query do to the flow is in NextCall.  A state of the
whole has, beside the pool, the operation that each client thread is in and its next call.
 */
module StorageOps {
  import opened PoolProtocol
  import opened PoolRuns

  datatype Operation = GetData | StoreTime | LoadTime | AddRow | InitTable

  datatype Statement = SelectRows | SelectTime | InsertTime | UpdateTime | InsertRow | FindTable | CreateTable

  /** The statement that an operation begins with. */
  function First(op: Operation): Statement {
    match op
    case GetData => SelectRows
    case StoreTime => SelectTime
    case LoadTime => SelectTime
    case AddRow => InsertRow
    case InitTable => FindTable
  }

  /** A statement of the second phase of pgsql_stor_ts_utime. */
  predicate Late(st: Statement) {
    st == InsertTime || st == UpdateTime
  }

  /** The call that comes next, and the statement of this or of the next query. */
  datatype Pc =
    | AtGet(st: Statement)       // retry, or retry2 in pgsql_stor_ts_utime
    | AtQuery(st: Statement)
    | AtCreate                   // the second query of pgsql_init_table, which is not checked
    | AtRetry(st: Statement)     // pgsql_pool_conncheck releases and jumps back
    | AtSwitch(st: Statement)    // the release between the two phases of pgsql_stor_ts_utime
    | AtCleanup                  // cleanup2
    | AtEnd

  /** What libpq says of a query: the connection is BAD, the query failed, how many rows. */
  datatype Answer = Answer(bad: bool, failed: bool, rows: nat)

  /** The next call after this one. */
  function NextCall(op: Operation, pc: Pc, a: Answer): Pc {
    match pc
    case AtGet(st) => AtQuery(st)
    case AtQuery(st) =>
      if a.bad then AtRetry(st)
      else if a.failed then AtCleanup
      else if op == StoreTime && st == SelectTime then AtSwitch(if a.rows < 1 then InsertTime else UpdateTime)
      else if op == InitTable && a.rows < 1 then AtCreate
      else AtCleanup
    case AtCreate => AtCleanup
    case AtRetry(st) => AtGet(st)
    case AtSwitch(st) => AtGet(st)
    case AtCleanup => AtEnd
    case AtEnd => AtEnd
  }

  predicate IsRelease(pc: Pc) {
    pc.AtRetry? || pc.AtSwitch? || pc.AtCleanup?
  }

  predicate IsQuery(pc: Pc) {
    pc.AtQuery? || pc.AtCreate?
  }

  /** The step of the protocol that a query or a release is. */
  function EventOf(t: nat, pc: Pc): Event
    requires IsQuery(pc) || IsRelease(pc)
  {
    if IsQuery(pc) then Exec(t) else Release(t, !pc.AtCleanup?)
  }

  /** Where the client thread of the operation stands in the protocol. */
  predicate Agrees(cl: Client, pc: Pc) {
    match cl
    case Idle => pc.AtEnd? || (pc.AtGet? && !Late(pc.st))
    case Getting | Grabbed(_) | Admitting(_) => pc.AtGet?
    case Using(_) => IsQuery(pc) || (IsRelease(pc) && (pc.AtSwitch? ==> Late(pc.st)))
    case Leaving(_, again) => if again then pc.AtGet? else pc.AtEnd?
    case Unlinked(_, again) => if again then pc.AtGet? else pc.AtEnd?
    case Returning(_, again) => if again then pc.AtGet? else pc.AtEnd?
    case Rejecting(_, again) => if again then pc.AtGet? else pc.AtEnd?
  }

  // ---------------------------------------------------------------- operations on the pool

  /** What a client thread is doing. */
  datatype Work = Rest | Doing(op: Operation, pc: Pc)

  datatype Busy = Busy(s: State, work: seq<Work>)

  /** What the database answers, apart from the state of the connection. */
  datatype Reply = Reply(failed: bool, rows: nat)

  datatype Action =
    | Begin(t: nat, op: Operation)
    | Pooled(e: Event)             // a step inside pgsql_pool_get, pgsql_pool_release or another thread
    | Call(t: nat, reply: Reply)   // the query or the release that comes next
    | End(t: nat)

  /** pgsql_pool_get has returned. */
  function Got(w: Work): Work {
    if w.Doing? && w.pc.AtGet? then Doing(w.op, AtQuery(w.pc.st)) else w
  }

  predicate Calls(w: Work) {
    w.Doing? && (IsQuery(w.pc) || IsRelease(w.pc))
  }

  /** The pool's own steps; a client enters pgsql_pool_get only where its operation does. */
  predicate Pools(b: Busy, e: Event) {
    && !e.Exec? && !e.Release?
    && (e.Start? ==> e.t < |b.work| && b.work[e.t].Doing? && b.work[e.t].pc.AtGet?)
  }

  function Act(b: Busy, a: Action): Outcome<Busy> {
    match a
    case Begin(t, op) =>
      if t < |b.work| && b.work[t].Rest? then Next(b.(work := b.work[t := Doing(op, AtGet(First(op)))])) else Disabled
    case Pooled(e) =>
      if !Pools(b, e) then Disabled
      else
        (match Step(b.s, e)
         case Next(s') =>
           Next(Busy(s', if e.PutInuse? && e.t < |b.work| then b.work[e.t := Got(b.work[e.t])] else b.work))
         case Disabled => Disabled
         case Fault => Fault)
    case Call(t, reply) =>
      if t < |b.work| && t < |b.s.clients| && Calls(b.work[t]) && b.s.clients[t].Using? then
        (match Step(b.s, EventOf(t, b.work[t].pc))
         case Next(s') => Next(Busy(s', b.work[t := Doing(b.work[t].op, Onward(b, t, reply))]))
         case Disabled => Disabled
         case Fault => Fault)
      else Disabled
    case End(t) =>
      if t < |b.work| && t < |b.s.clients| && b.work[t].Doing? && b.work[t].pc.AtEnd? && b.s.clients[t].Idle? then
        Next(b.(work := b.work[t := Rest]))
      else Disabled
  }

  /** pgsql_pool_conncheck after a query looks at the connection as it is then. */
  function Onward(b: Busy, t: nat, reply: Reply): Pc
    requires t < |b.work| && t < |b.s.clients| && b.work[t].Doing? && b.s.clients[t].Using?
  {
    NextCall(b.work[t].op, b.work[t].pc, Answer(b.s.clients[t].c !in b.s.ok, reply.failed, reply.rows))
  }

  function Acts(b: Busy, xs: seq<Action>): Outcome<Busy>
    decreases |xs|
  {
    if xs == [] then Next(b)
    else
      match Act(b, xs[0])
      case Next(b') => Acts(b', xs[1..])
      case Disabled => Disabled
      case Fault => Fault
  }

  ghost predicate BusyInitial(b: Busy) {
    Initial(b.s) && |b.work| == |b.s.clients| && forall t :: 0 <= t < |b.work| ==> b.work[t].Rest?
  }

  ghost predicate BusyReachable(b: Busy) {
    exists b0, xs :: BusyInitial(b0) && Acts(b0, xs) == Next(b)
  }

  // ---------------------------------------------------------------- agreement in every run

  predicate Fits(cl: Client, w: Work) {
    if w.Rest? then cl.Idle? else Agrees(cl, w.pc)
  }

  ghost predicate AllFit(b: Busy) {
    |b.work| == |b.s.clients| && forall t :: 0 <= t < |b.work| ==> Fits(b.s.clients[t], b.work[t])
  }

  ghost predicate Together(b: Busy) {
    Inv(b.s) && Counted(b.s) && AllFit(b)
  }

  /** What the pool does in an action. */
  function Events(b: Busy, a: Action): seq<Event> {
    match a
    case Pooled(e) => [e]
    case Call(t, _) => if t < |b.work| && Calls(b.work[t]) then [EventOf(t, b.work[t].pc)] else []
    case _ => []
  }

  lemma OneEvent(s: State, e: Event)
    ensures Run(s, [e]) == Step(s, e)
  {
    if Step(s, e).Next? { assert Run(Step(s, e).s, []) == Next(Step(s, e).s); }
  }

  /** A step of the pool leaves every thread where its operation is; a get that returns brings
  the operation to its query. */
  lemma PooledFits(b: Busy, e: Event)
    requires AllFit(b) && Act(b, Pooled(e)).Next?
    ensures AllFit(Act(b, Pooled(e)).s)
  {
    var b' := Act(b, Pooled(e)).s;
    forall t | 0 <= t < |b'.work|
      ensures Fits(b'.s.clients[t], b'.work[t])
    {
      assert Fits(b.s.clients[t], b.work[t]);
    }
  }

  /** So does a query or a release, whatever is answered. */
  lemma CallFits(b: Busy, t: nat, reply: Reply)
    requires AllFit(b) && Act(b, Call(t, reply)).Next?
    ensures AllFit(Act(b, Call(t, reply)).s)
  {
    assert Fits(b.s.clients[t], b.work[t]);
  }

  lemma EventKeeps(s: State, e: Event)
    requires Inv(s) && Counted(s)
    ensures Step(s, e) != Fault
    ensures Step(s, e).Next? ==> Inv(Step(s, e).s) && Counted(Step(s, e).s) && Run(s, [e]) == Next(Step(s, e).s)
  {
    OneEvent(s, e);
    EventKeepsInv(s, e);
  }

  lemma ActKeeps(b: Busy, a: Action)
    requires Together(b)
    ensures Act(b, a) != Fault
    ensures Act(b, a).Next? ==> Together(Act(b, a).s) && Run(b.s, Events(b, a)) == Next(Act(b, a).s.s)
  {
    match a
    case Pooled(e) =>
      EventKeeps(b.s, e);
      if Act(b, a).Next? { PooledFits(b, e); }
    case Call(t, reply) =>
      if Events(b, a) != [] { EventKeeps(b.s, EventOf(t, b.work[t].pc)); }
      if Act(b, a).Next? { CallFits(b, t, reply); }
    case _ =>
  }

  lemma {:induction false} ActsKeep(b: Busy, xs: seq<Action>)
    requires Together(b)
    ensures Acts(b, xs) != Fault
    ensures Acts(b, xs).Next? ==> Together(Acts(b, xs).s) && exists es :: Run(b.s, es) == Next(Acts(b, xs).s.s)
    decreases |xs|
  {
    if xs == [] {
      assert Run(b.s, []) == Next(b.s);
    } else {
      ActKeeps(b, xs[0]);
      if Act(b, xs[0]).Next? {
        var b' := Act(b, xs[0]).s;
        ActsKeep(b', xs[1..]);
        if Acts(b, xs).Next? {
          var es :| Run(b'.s, es) == Next(Acts(b, xs).s.s);
          RunConcat(b.s, Events(b, xs[0]), es);
          assert Run(b.s, Events(b, xs[0]) + es) == Next(Acts(b, xs).s.s);
        }
      }
    }
  }

  lemma InitialTogether(b: Busy)
    requires BusyInitial(b)
    ensures Together(b)
  {
    InitialInv(b.s);
    InitialCounted(b.s);
  }

  /** Operations on the pool never make it fault, their runs are runs of the pool, and in every
  state of them each client thread stands where its operation says. */
  lemma AlwaysAgree(b: Busy)
    requires BusyReachable(b)
    ensures Reachable(b.s) && Together(b)
  {
    var b0, xs :| BusyInitial(b0) && Acts(b0, xs) == Next(b);
    InitialTogether(b0);
    ActsKeep(b0, xs);
  }

  lemma OperationsNeverFault(b0: Busy, xs: seq<Action>)
    requires BusyInitial(b0)
    ensures Acts(b0, xs) != Fault
  {
    InitialTogether(b0);
    ActsKeep(b0, xs);
  }

  // ---------------------------------------------------------------- what an operation holds

  /** How many connections thread t has got, less how many it has given back. */
  function Balance(b: Busy, xs: seq<Action>, t: nat): int
    requires Acts(b, xs).Next?
    decreases |xs|
  {
    if xs == [] then 0 else Gain(b, xs[0], t) + Balance(Act(b, xs[0]).s, xs[1..], t)
  }

  function Gain(b: Busy, a: Action, t: nat): int {
    match a
    case Pooled(PutInuse(u)) => if u == t then 1 else 0
    case Call(u, _) => if u == t && t < |b.work| && b.work[t].Doing? && IsRelease(b.work[t].pc) then -1 else 0
    case _ => 0
  }

  function Held(b: Busy, t: nat): int {
    if t < |b.work| && Calls(b.work[t]) then 1 else 0
  }

  lemma GainHeld(b: Busy, a: Action, t: nat)
    requires Together(b) && Act(b, a).Next?
    ensures Held(Act(b, a).s, t) == Held(b, t) + Gain(b, a, t)
  {
    assert t < |b.work| ==> Fits(b.s.clients[t], b.work[t]);
  }

  lemma {:induction false} BalanceHeld(b: Busy, xs: seq<Action>, t: nat)
    requires Together(b) && Acts(b, xs).Next?
    ensures Held(Acts(b, xs).s, t) == Held(b, t) + Balance(b, xs, t)
    decreases |xs|
  {
    if xs != [] {
      ActKeeps(b, xs[0]);
      GainHeld(b, xs[0], t);
      BalanceHeld(Act(b, xs[0]).s, xs[1..], t);
    }
  }

  /** Over any run a thread has got one connection more than it has given back exactly while
  the next call of its operation is a query or a release, and as many at any other time. */
  lemma GotAndGivenBack(b0: Busy, xs: seq<Action>, t: nat)
    requires BusyInitial(b0) && Acts(b0, xs).Next?
    ensures var b := Acts(b0, xs).s;
      Balance(b0, xs, t) == if t < |b.work| && Calls(b.work[t]) then 1 else 0
  {
    InitialTogether(b0);
    BalanceHeld(b0, xs, t);
  }

  /** So an operation that waits in pgsql_pool_get stands at a get, holds nothing, and every
  connection in use is with some other thread. */
  lemma WaitingHoldsNothing(b: Busy, t: nat)
    requires BusyReachable(b) && t < |b.s.clients| && b.s.clients[t].Getting?
    ensures t < |b.work| && b.work[t].Doing? && b.work[t].pc.AtGet?
    ensures forall c :: c in b.s.lists.inuse ==>
      exists u :: 0 <= u < |b.s.clients| && u != t && Keeps(OnLoan, b.s.clients[u]) && b.s.clients[u].c == c
  {
    AlwaysAgree(b);
    assert Fits(b.s.clients[t], b.work[t]);
    forall c | c in b.s.lists.inuse
      ensures exists u :: 0 <= u < |b.s.clients| && u != t && Keeps(OnLoan, b.s.clients[u]) && b.s.clients[u].c == c
    {
      InuseMeansHandedOut(b.s, c);
      var u :| 0 <= u < |b.s.clients| && (b.s.clients[u].Using? || b.s.clients[u].Leaving?) && b.s.clients[u].c == c;
      assert Keeps(OnLoan, b.s.clients[u]);
    }
  }

  // ---------------------------------------------------------------- every operation ends

  /** What the threads do by themselves: nothing begins, nothing breaks, and a reconnection
  goes well. */
  predicate Calm(a: Action) {
    !a.Begin? && (a.Pooled? ==> !a.e.Break? && (a.e.Mend? ==> a.e.success))
  }

  /** A connection that is down and that neither waits for the repair thread nor is being mended. */
  predicate Astray(s: State, c: Id) {
    c !in s.ok && c !in s.lists.bad && s.repair != Mending(c)
  }

  function Strays(s: State, n: nat): nat {
    if n == 0 then 0 else Strays(s, n - 1) + if Astray(s, n - 1) then 1 else 0
  }

  lemma {:induction false} NoMoreStrays(s: State, s': State, n: nat)
    requires forall c: Id :: Astray(s', c) ==> Astray(s, c)
    ensures Strays(s', n) <= Strays(s, n)
  {
    if n > 0 { NoMoreStrays(s, s', n - 1); }
  }

  lemma {:induction false} OneStrayLess(s: State, s': State, n: nat, c: Id)
    requires c < n && Astray(s, c) && !Astray(s', c)
    requires forall d: Id :: Astray(s', d) ==> Astray(s, d)
    ensures Strays(s', n) < Strays(s, n)
  {
    if c == n - 1 { NoMoreStrays(s, s', n - 1); } else { OneStrayLess(s, s', n - 1, c); }
  }

  /** Where in its retry loop a client with a good connection, or with a bad one, stands. */
  function Ahead(ok: set<Id>, cl: Client): nat {
    match cl
    case Idle => 17
    case Getting => 12
    case Grabbed(_) => 8
    case Admitting(_) => 7
    case Using(_) => 6
    case Leaving(c, _) => if c in ok then 16 else 4
    case Unlinked(c, _) => if c in ok then 15 else 3
    case Returning(_, _) => 13
    case Rejecting(c, _) => if c in ok then 13 else 2
  }

  /** How far a thread is from the end of its operation, as long as no connection fails it. */
  function Distance(ok: set<Id>, cl: Client, w: Work): (d: nat)
    ensures d < FURTHEST
  {
    if w.Rest? then 0
    else
      match w.pc
      case AtGet(st) => Ahead(ok, cl) + if Late(st) then 20 else 40
      case AtQuery(st) => if Late(st) then 26 else 46
      case AtRetry(st) => (if cl.Using? && cl.c in ok then 17 else 5) + if Late(st) then 20 else 40
      case AtSwitch(_) => 38
      case AtCreate => 11
      case AtCleanup => 10
      case AtEnd => if cl.Idle? then 1 else if cl.Leaving? then 4 else if cl.Unlinked? then 3 else 2
  }

  const FURTHEST := 58

  function Distances(ok: set<Id>, cs: seq<Client>, ws: seq<Work>): (d: nat)
    requires |cs| == |ws|
    ensures d <= FURTHEST * |ws|
  {
    if cs == [] then 0 else Distance(ok, cs[0], ws[0]) + Distances(ok, cs[1..], ws[1..])
  }

  lemma {:induction false} DistancesUpdate(ok: set<Id>, cs: seq<Client>, ws: seq<Work>, t: nat, cl: Client, w: Work)
    requires |cs| == |ws| && t < |cs|
    ensures Distances(ok, cs[t := cl], ws[t := w])
         == Distances(ok, cs, ws) - Distance(ok, cs[t], ws[t]) + Distance(ok, cl, w)
  {
    if t > 0 {
      assert cs[t := cl][1..] == cs[1..][t - 1 := cl] && ws[t := w][1..] == ws[1..][t - 1 := w];
      DistancesUpdate(ok, cs[1..], ws[1..], t - 1, cl, w);
    } else {
      assert cs[t := cl][1..] == cs[1..] && ws[t := w][1..] == ws[1..];
    }
  }

  predicate Carried(cl: Client) {
    !cl.Idle? && !cl.Getting?
  }

  /** A connection that no client carries may come up without changing a distance. */
  lemma {:induction false} DistancesStay(ok: set<Id>, c: Id, cs: seq<Client>, ws: seq<Work>)
    requires |cs| == |ws| && forall t :: 0 <= t < |cs| && Carried(cs[t]) ==> cs[t].c != c
    ensures Distances(ok + {c}, cs, ws) == Distances(ok, cs, ws)
  {
    if cs != [] { DistancesStay(ok, c, cs[1..], ws[1..]); }
  }

  lemma SizesStay(b: Busy, a: Action)
    requires Act(b, a).Next?
    ensures Act(b, a).s.s.num == b.s.num && |Act(b, a).s.work| == |b.work|
  {
  }

  /** How many steps the repair thread has when nothing comes onto the bad list. */
  function RepairLeft(s: State): nat {
    match s.repair
    case Starting => 3 * s.num + 1
    case Watching => 3 * |s.lists.bad|
    case Mending(_) => 3 * |s.lists.bad| + 2
    case Mended(_) => 3 * |s.lists.bad| + 1
  }

  /** The three counts as the digits of one number. */
  function Digits(strays: nat, distances: nat, repair: nat, threads: nat, num: nat): nat {
    (strays * (FURTHEST * threads + 1) + distances) * (3 * num + 2) + repair
  }

  lemma {:induction false} ProductLess(u: nat, u': nat, k: nat)
    requires u' < u
    ensures u' * k + k <= u * k
  {
    assert u * k == (u - 1) * k + k;
    if u' < u - 1 { ProductLess(u - 1, u', k); }
  }

  lemma DigitLess(u: nat, w: nat, u': nat, w': nat, k: nat)
    requires w' < k && (u' < u || (u' <= u && w' < w))
    ensures u' * k + w' < u * k + w
  {
    if u' < u { ProductLess(u, u', k); }
  }

  lemma DigitsLess(x: nat, y: nat, z: nat, x': nat, y': nat, z': nat, threads: nat, num: nat)
    requires y' <= FURTHEST * threads && z' <= 3 * num + 1
    requires x' < x || (x' <= x && y' < y) || (x' <= x && y' <= y && z' < z)
    ensures Digits(x', y', z', threads, num) < Digits(x, y, z, threads, num)
  {
    var k := FURTHEST * threads + 1;
    if x' < x || y' < y {
      DigitLess(x, y, x', y', k);
    } else {
      DigitLess(x, y + 1, x', y', k);
    }
    DigitLess(x * k + y, z, x' * k + y', z', 3 * num + 2);
  }

  /** An upper bound for the number of steps that the threads can still take by themselves. */
  function StepsLeft(b: Busy): nat
    requires |b.s.clients| == |b.work|
  {
    Digits(Strays(b.s, b.s.num), Distances(b.s.ok, b.s.clients, b.work), RepairLeft(b.s), |b.work|, b.s.num)
  }

  lemma RepairBound(s: State)
    requires Counted(s)
    ensures RepairLeft(s) <= 3 * s.num + 1
  {
  }

  /** The action that thread t takes when it can go on by itself. */
  function OwnAction(b: Busy, t: nat, reply: Reply): Action
    requires t < |b.s.clients|
  {
    match b.s.clients[t]
    case Idle => if t < |b.work| && b.work[t].Doing? && b.work[t].pc.AtEnd? then End(t) else Pooled(Start(t))
    case Getting => Pooled(Take(t))
    case Grabbed(_) => Pooled(Inspect(t))
    case Admitting(_) => Pooled(PutInuse(t))
    case Using(_) => Call(t, reply)
    case Leaving(_, _) => Pooled(Unlink(t))
    case Unlinked(_, _) => Pooled(Retest(t))
    case Returning(_, _) => Pooled(PutFree(t))
    case Rejecting(_, _) => Pooled(PutBad(t))
  }

  /** A thread that does not wait for a connection can go on. */
  lemma OwnEnabled(b: Busy, t: nat, reply: Reply)
    requires Together(b) && t < |b.work| && b.work[t].Doing?
    requires b.s.clients[t].Getting? ==> b.s.lists.free != []
    ensures Act(b, OwnAction(b, t, reply)).Next? && Calm(OwnAction(b, t, reply))
  {
    assert Fits(b.s.clients[t], b.work[t]);
    OnLoanIsInuse(b.s, t);
    assert Carried(b.s.clients[t]) ==> Holds(b.s.clients[t], b.s.clients[t].c);
  }

  function RepairEvent(r: Repair): Event {
    match r
    case Starting => Fill
    case Watching => RepairTake
    case Mending(_) => Mend(true)
    case Mended(_) => RepairPut
  }

  /** A calm action is the next one of a thread in an operation, or of the repair thread. */
  lemma CalmActions(b: Busy, a: Action) returns (t: nat, reply: Reply)
    requires AllFit(b) && Calm(a) && Act(b, a).Next?
    ensures || a == Pooled(RepairEvent(b.s.repair))
            || (t < |b.work| && b.work[t].Doing? && a == OwnAction(b, t, reply))
  {
    t, reply := 0, Reply(false, 0);
    match a
    case End(u) => t := u;
    case Call(u, r) => t, reply := u, r;
    case Pooled(e) =>
      if ByClient(e) {
        t := e.t;
        assert Fits(b.s.clients[t], b.work[t]);
      }
  }

  /** No step of a client makes a stray. */
  lemma ClientStrays(s: State, e: Event, c: Id)
    requires ByClient(e) && Step(s, e).Next?
    ensures Astray(Step(s, e).s, c) ==> Astray(s, c)
  {
  }

  /** Nor does the repair thread when its reconnections go well. */
  lemma RepairStrays(s: State, c: Id)
    requires Step(s, RepairEvent(s.repair)).Next?
    ensures Astray(Step(s, RepairEvent(s.repair)).s, c) ==> Astray(s, c)
  {
  }

  /** A connection found BAD is with nobody else until it is on the bad list. */
  lemma RejectedIsAstray(s: State, t: nat)
    requires Inv(s) && t < |s.clients| && s.clients[t].Rejecting? && s.clients[t].c !in s.ok
    ensures Astray(s, s.clients[t].c) && s.clients[t].c < s.num
  {
    TotalHas(InHand, s.clients, t, s.clients[t].c);
    assert 1 <= Copies(s, s.clients[t].c) <= 1;
  }

  lemma OwnStrays(b: Busy, t: nat, reply: Reply, c: Id)
    requires t < |b.s.clients| && Act(b, OwnAction(b, t, reply)).Next?
    ensures Astray(Act(b, OwnAction(b, t, reply)).s.s, c) ==> Astray(b.s, c)
  {
    var es := Events(b, OwnAction(b, t, reply));
    if es != [] { ClientStrays(b.s, es[0], c); }
  }

  /** Only thread t moves, and gets nearer to its end unless it gives up a connection that is down. */
  lemma OwnMoves(b: Busy, t: nat, reply: Reply)
    requires AllFit(b) && t < |b.work| && b.work[t].Doing? && Act(b, OwnAction(b, t, reply)).Next?
    ensures var b' := Act(b, OwnAction(b, t, reply)).s;
      && t < |b'.work| == |b.work| && t < |b'.s.clients| == |b.s.clients|
      && b'.s.clients == b.s.clients[t := b'.s.clients[t]] && b'.work == b.work[t := b'.work[t]]
      && b'.s.ok == b.s.ok && b'.s.num == b.s.num
      && (b.s.clients[t].Rejecting? && b.s.clients[t].c !in b.s.ok ==> b.s.clients[t].c in b'.s.lists.bad)
      && (!(b.s.clients[t].Rejecting? && b.s.clients[t].c !in b.s.ok) ==>
            Distance(b.s.ok, b'.s.clients[t], b'.work[t]) < Distance(b.s.ok, b.s.clients[t], b.work[t]))
  {
    assert Fits(b.s.clients[t], b.work[t]);
  }

  /** With each of its own actions a thread gets nearer to its end: it wastes one only on a
  connection that is down, and then that connection goes to the repair thread. */
  lemma OwnNearer(b: Busy, t: nat, reply: Reply)
    requires Together(b) && t < |b.work| && b.work[t].Doing? && Act(b, OwnAction(b, t, reply)).Next?
    ensures var b' := Act(b, OwnAction(b, t, reply)).s;
      || Strays(b'.s, b.s.num) < Strays(b.s, b.s.num)
      || (&& Strays(b'.s, b.s.num) <= Strays(b.s, b.s.num) && |b'.work| == |b'.s.clients|
          && Distances(b'.s.ok, b'.s.clients, b'.work) < Distances(b.s.ok, b.s.clients, b.work))
  {
    var b' := Act(b, OwnAction(b, t, reply)).s;
    OwnMoves(b, t, reply);
    forall c: Id { OwnStrays(b, t, reply, c); }
    if b.s.clients[t].Rejecting? && b.s.clients[t].c !in b.s.ok {
      RejectedIsAstray(b.s, t);
      OneStrayLess(b.s, b'.s, b.s.num, b.s.clients[t].c);
    } else {
      NoMoreStrays(b.s, b'.s, b.s.num);
      DistancesUpdate(b.s.ok, b.s.clients, b.work, t, b'.s.clients[t], b'.work[t]);
    }
  }

  lemma MendedIsNotCarried(s: State, t: nat)
    requires Inv(s) && s.repair.Mending? && t < |s.clients| && Carried(s.clients[t])
    ensures s.clients[t].c != s.repair.c
  {
    TotalHas(InHand, s.clients, t, s.repair.c);
    TotalHas(OnLoan, s.clients, t, s.repair.c);
    assert Copies(s, s.repair.c) <= 1;
  }

  lemma RepairNearer(b: Busy)
    requires Together(b) && Step(b.s, RepairEvent(b.s.repair)).Next?
    ensures var s' := Step(b.s, RepairEvent(b.s.repair)).s;
      && Strays(s', b.s.num) <= Strays(b.s, b.s.num) && |b.work| == |s'.clients|
      && Distances(s'.ok, s'.clients, b.work) == Distances(b.s.ok, b.s.clients, b.work)
      && RepairLeft(s') < RepairLeft(b.s)
  {
    forall c: Id { RepairStrays(b.s, c); }
    NoMoreStrays(b.s, Step(b.s, RepairEvent(b.s.repair)).s, b.s.num);
    if b.s.repair.Mending? {
      forall t | 0 <= t < |b.s.clients| && Carried(b.s.clients[t])
        ensures b.s.clients[t].c != b.s.repair.c
      {
        MendedIsNotCarried(b.s, t);
      }
      DistancesStay(b.s.ok, b.s.repair.c, b.s.clients, b.work);
    }
  }

  /** Every calm action, of whichever thread and whatever the database answers, leaves fewer. */
  lemma CalmIsProgress(b: Busy, a: Action)
    requires Together(b) && Calm(a) && Act(b, a).Next?
    ensures Together(Act(b, a).s) && Act(b, a).s.s.num == b.s.num
    ensures StepsLeft(Act(b, a).s) < StepsLeft(b)
  {
    var b' := Act(b, a).s;
    ActKeeps(b, a);
    SizesStay(b, a);
    RepairBound(b'.s);
    var t, reply := CalmActions(b, a);
    if t < |b.work| && b.work[t].Doing? && a == OwnAction(b, t, reply) {
      OwnNearer(b, t, reply);
    } else {
      RepairNearer(b);
    }
    DigitsLess(Strays(b.s, b.s.num), Distances(b.s.ok, b.s.clients, b.work), RepairLeft(b.s),
               Strays(b'.s, b.s.num), Distances(b'.s.ok, b'.s.clients, b'.work), RepairLeft(b'.s),
               |b.work|, b.s.num);
  }

  /** While an operation is unfinished, something calm is possible. */
  lemma GoesOn(b: Busy, t: nat, reply: Reply) returns (a: Action)
    requires Together(b) && b.s.num >= 1 && t < |b.work| && b.work[t].Doing?
    ensures Calm(a) && Act(b, a).Next? && (a.Call? ==> a.reply == reply)
  {
    if !b.s.clients[t].Getting? || b.s.lists.free != [] {
      a := OwnAction(b, t, reply);
      OwnEnabled(b, t, reply);
    } else if u :| 0 <= u < |b.work| && Carried(b.s.clients[u]) {
      assert Fits(b.s.clients[u], b.work[u]);
      a := OwnAction(b, u, reply);
      OwnEnabled(b, u, reply);
    } else {
      a := Pooled(RepairEvent(b.s.repair));
      WorkForRepair(b.s);
    }
  }

  ghost predicate AllRest(b: Busy) {
    forall t :: 0 <= t < |b.work| ==> b.work[t].Rest?
  }

  /** While some operation is unfinished, something that the threads do by themselves is
  possible, whatever the database answers: no deadlock. */
  lemma NoDeadlock(b: Busy, t: nat, reply: Reply)
    requires BusyReachable(b) && b.s.num >= 1 && t < |b.work| && b.work[t].Doing?
    ensures exists a :: Calm(a) && (a.Call? ==> a.reply == reply) && Act(b, a).Next?
  {
    AlwaysAgree(b);
    var a := GoesOn(b, t, reply);
  }

  ghost predicate AllCalm(xs: seq<Action>) {
    forall a :: a in xs ==> Calm(a)
  }

  lemma {:induction false} CalmRunsShrink(b: Busy, xs: seq<Action>)
    requires Together(b) && AllCalm(xs) && Acts(b, xs).Next?
    ensures Together(Acts(b, xs).s) && Acts(b, xs).s.s.num == b.s.num
    ensures |xs| + StepsLeft(Acts(b, xs).s) <= StepsLeft(b)
    decreases |xs|
  {
    if xs != [] {
      CalmIsProgress(b, xs[0]);
      CalmRunsShrink(Act(b, xs[0]).s, xs[1..]);
    }
  }

  /** However the threads are scheduled and whatever the database answers, as long as nothing
  new begins, nothing breaks and reconnections go well, they take no more than StepsLeft steps,
  and when no more can be taken every operation has ended.  No scheduler can starve one. */
  lemma EveryScheduleEnds(b: Busy, xs: seq<Action>)
    requires BusyReachable(b) && b.s.num >= 1 && AllCalm(xs) && Acts(b, xs).Next?
    ensures |b.s.clients| == |b.work| && |xs| <= StepsLeft(b)
    ensures (forall a :: Calm(a) ==> !Act(Acts(b, xs).s, a).Next?) ==> AllRest(Acts(b, xs).s)
  {
    AlwaysAgree(b);
    CalmRunsShrink(b, xs);
    var b' := Acts(b, xs).s;
    if t :| 0 <= t < |b'.work| && b'.work[t].Doing? {
      var a := GoesOn(b', t, Reply(false, 0));
    }
  }

  /** The database answers each call as it likes, in each state. */
  type Oracle = Busy -> Reply

  /** xs runs calmly from b, and the database answers as o says. */
  ghost predicate Schedule(b: Busy, xs: seq<Action>, o: Oracle)
    decreases |xs|
  {
    xs == [] ||
    (&& Calm(xs[0]) && Act(b, xs[0]).Next?
     && (xs[0].Call? ==> xs[0].reply == o(b))
     && Schedule(Act(b, xs[0]).s, xs[1..], o))
  }

  lemma {:induction false} Completes(b: Busy, o: Oracle) returns (xs: seq<Action>)
    requires Together(b) && b.s.num >= 1
    ensures Schedule(b, xs, o) && Acts(b, xs).Next? && AllRest(Acts(b, xs).s)
    decreases StepsLeft(b)
  {
    xs := [];
    if t :| 0 <= t < |b.work| && b.work[t].Doing? {
      var a := GoesOn(b, t, o(b));
      CalmIsProgress(b, a);
      var ys := Completes(Act(b, a).s, o);
      xs := [a] + ys;
      assert xs[0] == a && xs[1..] == ys;
    }
  }

  /** In a pool of one connection or more, all operations of every reachable state can be
  brought to their ends, whatever the database answers. */
  lemma EveryOperationCanEnd(b: Busy, o: Oracle)
    requires BusyReachable(b) && b.s.num >= 1
    ensures exists xs :: Schedule(b, xs, o) && Acts(b, xs).Next? && AllRest(Acts(b, xs).s)
  {
    AlwaysAgree(b);
    var xs := Completes(b, o);
  }
}
