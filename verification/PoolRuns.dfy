/** What holds in every run of the connection pool, whatever the interleaving of its
threads and whenever connections break. */
module PoolRuns {
  import opened PoolProtocol

  function Run(s: State, es: seq<Event>): Outcome<State>
    decreases |es|
  {
    if es == [] then Next(s)
    else
      match Step(s, es[0])
      case Next(s') => Run(s', es[1..])
      case Disabled => Disabled
      case Fault => Fault
  }

  /** Where the events lead when those that are not possible in their turn are passed over. */
  function Through(s: State, es: seq<Event>): State
    decreases |es|
  {
    if es == [] then s
    else
      match Step(s, es[0])
      case Next(s') => Through(s', es[1..])
      case _ => Through(s, es[1..])
  }

  /** Those that are possible in their turn. */
  function Possible(s: State, es: seq<Event>): seq<Event>
    decreases |es|
  {
    if es == [] then []
    else
      match Step(s, es[0])
      case Next(s') => [es[0]] + Possible(s', es[1..])
      case _ => Possible(s, es[1..])
  }

  /** They make a run, which is all of the events if these make one. */
  lemma {:induction false} ThroughIsRun(s: State, es: seq<Event>)
    ensures Run(s, Possible(s, es)) == Next(Through(s, es))
    ensures Run(s, es).Next? ==> Possible(s, es) == es
    decreases |es|
  {
    if es != [] {
      match Step(s, es[0])
      case Next(s') =>
        ThroughIsRun(s', es[1..]);
        assert ([es[0]] + Possible(s', es[1..]))[1..] == Possible(s', es[1..]);
      case _ => ThroughIsRun(s, es[1..]);
    }
  }

  ghost predicate Reachable(s: State) {
    exists s0, es :: Initial(s0) && Run(s0, es) == Next(s)
  }

  lemma {:induction false} RunInv(s: State, es: seq<Event>)
    requires Inv(s) && Counted(s)
    ensures Run(s, es) != Fault
    ensures Run(s, es).Next? ==> Inv(Run(s, es).s) && Counted(Run(s, es).s)
    decreases |es|
  {
    if es != [] {
      StepInv(s, es[0]);
      if Step(s, es[0]).Next? {
        StepCounted(s, es[0]);
        RunInv(Step(s, es[0]).s, es[1..]);
      }
    }
  }

  /** No run dequeues from an empty list, unlinks a connection that is not on the in-use
  list, or queries a connection that was never opened. */
  lemma NeverFaults(s0: State, es: seq<Event>)
    requires Initial(s0)
    ensures Run(s0, es) != Fault
  {
    InitialInv(s0);
    InitialCounted(s0);
    RunInv(s0, es);
  }

  lemma ReachableInv(s: State)
    requires Reachable(s)
    ensures Inv(s) && Counted(s)
  {
    var s0, es :| Initial(s0) && Run(s0, es) == Next(s);
    InitialInv(s0);
    InitialCounted(s0);
    RunInv(s0, es);
  }

  // ---------------------------------------------------------------- one place each

  datatype Place = OnFree | OnInuse | OnBad | WithClient(t: nat) | WithRepair

  predicate Located(s: State, c: Id, p: Place) {
    match p
    case OnFree => c in s.lists.free
    case OnInuse => c in s.lists.inuse
    case OnBad => c in s.lists.bad
    case WithClient(t) => t < |s.clients| && Has(InHand, s.clients[t], c) > 0
    case WithRepair => RepairHolds(s.repair, c)
  }

  lemma TwoPlacesTwoCopies(s: State, c: Id, p: Place, q: Place)
    requires Located(s, c, p) && Located(s, c, q) && p != q
    ensures Copies(s, c) >= 2
  {
    if p.WithClient? { TotalHas(InHand, s.clients, p.t, c); }
    if q.WithClient? { TotalHas(InHand, s.clients, q.t, c); }
    if p.WithClient? && q.WithClient? {
      TotalHasTwo(InHand, s.clients, if p.t < q.t then p.t else q.t, if p.t < q.t then q.t else p.t, c);
    }
  }

  /** Every connection of a filled pool is in exactly one place. */
  lemma ExactlyOnePlace(s: State, c: Id)
    requires Reachable(s) && !s.repair.Starting? && c < s.num
    ensures exists p :: Located(s, c, p) && forall q :: Located(s, c, q) ==> q == p
  {
    ReachableInv(s);
    assert Copies(s, c) == 1;
    var p: Place;
    if c in s.lists.free { p := OnFree; }
    else if c in s.lists.inuse { p := OnInuse; }
    else if c in s.lists.bad { p := OnBad; }
    else if RepairHolds(s.repair, c) { p := WithRepair; }
    else {
      var t := TotalFrom(InHand, s.clients, c);
      p := WithClient(t);
    }
    assert Located(s, c, p);
    forall q | Located(s, c, q)
      ensures q == p
    {
      if q != p { TwoPlacesTwoCopies(s, c, p, q); }
    }
  }

  /** No connection but 0, ..., num - 1 is anywhere, and before the fill none is. */
  lemma NoOtherIds(s: State, c: Id, p: Place)
    requires Reachable(s) && (s.repair.Starting? || s.num <= c)
    ensures !Located(s, c, p)
  {
    ReachableInv(s);
    assert Copies(s, c) == 0;
    if p.WithClient? && p.t < |s.clients| { TotalHas(InHand, s.clients, p.t, c); }
  }

  lemma {:induction false} OccursTwice(xs: seq<Id>, i: nat, j: nat)
    requires i < j < |xs| && xs[i] == xs[j]
    ensures Occurs(xs, xs[i]) >= 2
  {
    if i == 0 {
      assert xs[j] == xs[1..][j - 1] && xs[j] in xs[1..];
    } else {
      OccursTwice(xs[1..], i - 1, j - 1);
    }
  }

  /** No list ever holds a connection twice. */
  lemma NoListRepeats(s: State, w: Which, i: nat, j: nat)
    requires Reachable(s) && i < j < |s.lists.Get(w)|
    ensures s.lists.Get(w)[i] != s.lists.Get(w)[j]
  {
    ReachableInv(s);
    var c := s.lists.Get(w)[i];
    assert Copies(s, c) <= 1;
    if s.lists.Get(w)[j] == c { OccursTwice(s.lists.Get(w), i, j); }
  }

  /** No connection is ever held by two threads. */
  lemma NeverShared(s: State, t: nat, c: Id)
    requires Reachable(s) && t < |s.clients| && Holds(s.clients[t], c)
    ensures forall u :: 0 <= u < |s.clients| && Holds(s.clients[u], c) ==> u == t
    ensures !RepairHolds(s.repair, c)
  {
    ReachableInv(s);
    HeldByOne(s, t, c);
  }

  /** The in-use list is exactly what pgsql_pool_get has handed out and not got back. */
  lemma InuseMeansHandedOut(s: State, c: Id)
    requires Reachable(s)
    ensures c in s.lists.inuse <==>
      exists t :: 0 <= t < |s.clients| && (s.clients[t].Using? || s.clients[t].Leaving?) && s.clients[t].c == c
  {
    ReachableInv(s);
    assert Occurs(s.lists.inuse, c) == Total(OnLoan, s.clients, c);
    if c in s.lists.inuse {
      var t := TotalFrom(OnLoan, s.clients, c);
      assert s.clients[t].Using? || s.clients[t].Leaving?;
    }
    forall t | 0 <= t < |s.clients| && (s.clients[t].Using? || s.clients[t].Leaving?) && s.clients[t].c == c
      ensures c in s.lists.inuse
    {
      TotalHas(OnLoan, s.clients, t, c);
    }
  }

  // ---------------------------------------------------------------- sizes add up

  function HandCount(h: Hold, cs: seq<Client>): nat {
    if cs == [] then 0 else (if Keeps(h, cs[0]) then 1 else 0) + HandCount(h, cs[1..])
  }

  lemma {:induction false} HandCountUpdate(h: Hold, cs: seq<Client>, t: nat, cl: Client)
    requires t < |cs|
    ensures HandCount(h, cs[t := cl])
         == HandCount(h, cs) + (if Keeps(h, cl) then 1 else 0) - if Keeps(h, cs[t]) then 1 else 0
  {
    if t > 0 {
      assert cs[t := cl][1..] == cs[1..][t - 1 := cl];
      HandCountUpdate(h, cs[1..], t - 1, cl);
    } else {
      assert cs[t := cl][1..] == cs[1..];
    }
  }

  function Size(s: State): nat {
    |s.lists.free| + |s.lists.inuse| + |s.lists.bad| + HandCount(InHand, s.clients)
    + if s.repair.Mending? || s.repair.Mended? then 1 else 0
  }

  ghost predicate Counted(s: State) {
    && Size(s) == (if s.repair.Starting? then 0 else s.num)
    && |s.lists.inuse| == HandCount(OnLoan, s.clients)
  }

  lemma {:induction false} IdleHandCount(h: Hold, cs: seq<Client>)
    requires forall t :: 0 <= t < |cs| ==> cs[t].Idle? || cs[t].Getting?
    ensures HandCount(h, cs) == 0
  {
    if cs != [] { IdleHandCount(h, cs[1..]); }
  }

  lemma InitialCounted(s: State)
    requires Initial(s)
    ensures Counted(s)
  {
    IdleHandCount(InHand, s.clients);
    IdleHandCount(OnLoan, s.clients);
  }

  lemma StepCounted(s: State, e: Event)
    requires Counted(s) && Step(s, e).Next?
    ensures Counted(Step(s, e).s)
  {
    if ByClient(e) && !e.Exec? {
      HandCountUpdate(InHand, s.clients, e.t, Step(s, e).s.clients[e.t]);
      HandCountUpdate(OnLoan, s.clients, e.t, Step(s, e).s.clients[e.t]);
    }
  }

  lemma EventKeepsInv(s: State, e: Event)
    requires Inv(s) && Counted(s)
    ensures Step(s, e) != Fault
    ensures Step(s, e).Next? ==> Inv(Step(s, e).s) && Counted(Step(s, e).s)
  {
    StepInv(s, e);
    if Step(s, e).Next? { StepCounted(s, e); }
  }

  /** Conservation of the number of connections, wherever they are. */
  lemma SizesAddUp(s: State)
    requires Reachable(s) && !s.repair.Starting?
    ensures |s.lists.free| + |s.lists.inuse| + |s.lists.bad| + HandCount(InHand, s.clients)
            + (if s.repair.Watching? then 0 else 1) == s.num
    ensures |s.lists.inuse| == HandCount(OnLoan, s.clients)
  {
    ReachableInv(s);
  }

  // ---------------------------------------------------------------- first in, first out

  /** The connections that step e appends to list w. */
  function PutBy(w: Which, s: State, e: Event): seq<Id>
    requires Step(s, e).Next?
  {
    match (w, e)
    case (FreeList, PutFree(t)) => [s.clients[t].c]
    case (FreeList, RepairPut) => [s.repair.c]
    case (BadList, PutBad(t)) => [s.clients[t].c]
    case (BadList, Fill) => AllIds(s.num)
    case (InuseList, PutInuse(t)) => [s.clients[t].c]
    case _ => []
  }

  /** The connection that step e dequeues from list w: the one that a thread then holds. */
  function TakenBy(w: Which, s: State, e: Event): seq<Id>
    requires Step(s, e).Next?
  {
    match (w, e)
    case (FreeList, Take(t)) => [Step(s, e).s.clients[t].c]
    case (BadList, RepairTake) => [Step(s, e).s.repair.c]
    case _ => []
  }

  function AllPut(w: Which, s: State, es: seq<Event>): seq<Id>
    requires Run(s, es).Next?
    decreases |es|
  {
    if es == [] then [] else PutBy(w, s, es[0]) + AllPut(w, Step(s, es[0]).s, es[1..])
  }

  function AllTaken(w: Which, s: State, es: seq<Event>): seq<Id>
    requires Run(s, es).Next?
    decreases |es|
  {
    if es == [] then [] else TakenBy(w, s, es[0]) + AllTaken(w, Step(s, es[0]).s, es[1..])
  }

  /** Over every run the free list and the bad list are queues: the connections that were
  there, then those put, are those taken, then those still there. */
  lemma {:induction false} FirstInFirstOut(w: Which, s: State, es: seq<Event>)
    requires Run(s, es).Next? && !w.InuseList?
    ensures s.lists.Get(w) + AllPut(w, s, es) == AllTaken(w, s, es) + Run(s, es).s.lists.Get(w)
    decreases |es|
  {
    if es != [] {
      var s' := Step(s, es[0]).s;
      assert s.lists.Get(w) + PutBy(w, s, es[0]) == TakenBy(w, s, es[0]) + s'.lists.Get(w);
      FirstInFirstOut(w, s', es[1..]);
      Requeue(s.lists.Get(w), PutBy(w, s, es[0]), AllPut(w, s', es[1..]),
              TakenBy(w, s, es[0]), s'.lists.Get(w), AllTaken(w, s', es[1..]), Run(s, es).s.lists.Get(w));
    }
  }

  lemma Requeue(q: seq<Id>, p: seq<Id>, ps: seq<Id>, t: seq<Id>, q': seq<Id>, ts: seq<Id>, last: seq<Id>)
    requires q + p == t + q' && q' + ps == ts + last
    ensures q + (p + ps) == (t + ts) + last
  {
    calc {
      q + (p + ps);
      (q + p) + ps;
      t + (q' + ps);
      (t + ts) + last;
    }
  }

  // ---------------------------------------------------------------- no stuck state

  /** Steps that the pool's own code takes by itself: all but what a client does on the outside,
  and what goes wrong. */
  predicate Productive(e: Event) {
    !e.Start? && !e.Exec? && !e.Release? && !e.Break? && (e.Mend? ==> e.success)
  }

  /** Some client has a connection and is outside the pool with it. */
  ghost predicate InUse(s: State) {
    exists u :: 0 <= u < |s.clients| && s.clients[u].Using?
  }

  ghost predicate AllAtRest(s: State) {
    forall t :: 0 <= t < |s.clients| ==> s.clients[t].Idle? || s.clients[t].Getting?
  }

  lemma WorkForRepair(s: State)
    requires Inv(s) && Counted(s) && AllAtRest(s) && s.lists.free == [] && s.num >= 1
    ensures s.repair.Watching? ==> s.lists.bad != []
  {
    IdleHandCount(InHand, s.clients);
    IdleHandCount(OnLoan, s.clients);
  }

  /** When every client is idle or waiting and nothing is free, the repair thread has work. */
  lemma RepairHasWork(s: State)
    requires Reachable(s) && AllAtRest(s) && s.lists.free == [] && s.num >= 1
    ensures s.repair.Watching? ==> s.lists.bad != []
  {
    ReachableInv(s);
    WorkForRepair(s);
  }

  /** A pool of one connection or more never gets stuck by itself: while a client has work to do,
  the pool can go on, or some client is using a connection. */
  lemma NeverStuck(s: State, t: nat)
    requires Reachable(s) && s.num >= 1 && t < |s.clients| && !s.clients[t].Idle?
    ensures InUse(s) || exists e :: Productive(e) && Step(s, e).Next?
  {
    ReachableInv(s);
    var e: Event;
    if u :| 0 <= u < |s.clients| && !s.clients[u].Idle? && !s.clients[u].Getting? {
      OnLoanIsInuse(s, u);
      e := match s.clients[u]
        case Grabbed(_) => Inspect(u)
        case Admitting(_) => PutInuse(u)
        case Leaving(_, _) => Unlink(u)
        case Unlinked(_, _) => Retest(u)
        case Returning(_, _) => PutFree(u)
        case Rejecting(_, _) => PutBad(u)
        case Using(_) => Exec(u);
    } else if s.lists.free != [] {
      e := Take(t);
    } else {
      RepairHasWork(s);
      e := match s.repair
        case Starting => Fill
        case Watching => RepairTake
        case Mending(_) => Mend(true)
        case Mended(_) => RepairPut;
    }
    assert InUse(s) || (Productive(e) && Step(s, e).Next?);
  }

  // ---------------------------------------------------------------- repair drains the bad list

  /** One turn of the repair loop in which the reconnection succeeds. */
  const TURN := [RepairTake, Mend(true), RepairPut]

  function Turns(n: nat): seq<Event> {
    if n == 0 then [] else TURN + Turns(n - 1)
  }

  /** What is left of a turn in which the repair thread already holds a connection. */
  function RestOfTurn(r: Repair): seq<Event> {
    match r
    case Mending(_) => [Mend(true), RepairPut]
    case Mended(_) => [RepairPut]
    case _ => []
  }

  lemma {:induction false} RunConcat(s: State, xs: seq<Event>, ys: seq<Event>)
    requires Run(s, xs).Next?
    ensures Run(s, xs + ys) == Run(Run(s, xs).s, ys)
    decreases |xs|
  {
    if xs == [] {
      assert xs + ys == ys;
    } else {
      assert (xs + ys)[1..] == xs[1..] + ys;
      RunConcat(Step(s, xs[0]).s, xs[1..], ys);
    }
  }

  lemma OneTurn(s: State)
    requires s.repair.Watching? && s.lists.bad != []
    ensures Run(s, TURN) == Next(s.(lists := s.lists.(free := s.lists.free + s.lists.bad[..1], bad := s.lists.bad[1..]),
                                    up := s.up + {s.lists.bad[0]}, ok := s.ok + {s.lists.bad[0]}))
  {
    var s1 := Step(s, RepairTake).s;
    var s2 := Step(s1, Mend(true)).s;
    var s3 := Step(s2, RepairPut).s;
    assert TURN[1..] == [Mend(true), RepairPut] && TURN[1..][1..] == [RepairPut] && TURN[1..][1..][1..] == [];
    assert Run(s2, [RepairPut]) == Next(s3) by { assert Run(s3, []) == Next(s3); }
    assert s.lists.bad[..1] == [s.lists.bad[0]];
  }

  lemma {:induction false} AfterTurns(s: State, n: nat)
    requires s.repair.Watching? && n <= |s.lists.bad|
    ensures Run(s, Turns(n)).Next?
    ensures var s' := Run(s, Turns(n)).s;
      s'.repair.Watching? && s'.num == s.num && s'.clients == s.clients
      && s'.lists == s.lists.(free := s.lists.free + s.lists.bad[..n], bad := s.lists.bad[n..])
    decreases n
  {
    assert s.lists.free + [] == s.lists.free;
    if n > 0 {
      OneTurn(s);
      var s1 := Run(s, TURN).s;
      AfterTurns(s1, n - 1);
      RunConcat(s, TURN, Turns(n - 1));
      assert s.lists.bad[..n] == s.lists.bad[..1] + s.lists.bad[1..][..n - 1];
      assert s.lists.free + s.lists.bad[..n] == (s.lists.free + s.lists.bad[..1]) + s.lists.bad[1..][..n - 1];
    }
  }

  lemma FinishTurn(s: State)
    requires !s.repair.Starting?
    ensures Run(s, RestOfTurn(s.repair)).Next?
    ensures var s' := Run(s, RestOfTurn(s.repair)).s;
      s'.repair.Watching? && s'.num == s.num && s'.clients == s.clients
      && s'.lists == s.lists.(free := s.lists.free + if s.repair.Watching? then [] else [s.repair.c])
  {
    if s.repair.Mended? {
      assert Run(Step(s, RepairPut).s, []).Next?;
    } else if s.repair.Watching? {
      assert s.lists.free + [] == s.lists.free;
    } else {
      var s1 := Step(s, Mend(true)).s;
      assert RestOfTurn(s.repair)[1..] == [RepairPut];
      assert Run(Step(s1, RepairPut).s, []).Next?;
      assert Run(s1, [RepairPut]).Next?;
    }
  }

  /** With every client idle and every reconnection succeeding, the repair loop ends with the
  whole pool free after as many turns as there were bad connections, once it has finished
  the turn it was in; until then it still has a connection to take. */
  lemma RepairDrains(s: State, n: nat)
    requires Reachable(s) && !s.repair.Starting? && n <= |s.lists.bad|
    requires forall t :: 0 <= t < |s.clients| ==> s.clients[t].Idle?
    ensures Run(s, RestOfTurn(s.repair) + Turns(n)).Next?
    ensures var s' := Run(s, RestOfTurn(s.repair) + Turns(n)).s;
      && s'.repair.Watching?
      && s'.lists.free == s.lists.free + (if s.repair.Watching? then [] else [s.repair.c]) + s.lists.bad[..n]
      && s'.lists.bad == s.lists.bad[n..]
      && (|s'.lists.free| == s.num <==> n == |s.lists.bad|)
  {
    FinishTurn(s);
    var s1 := Run(s, RestOfTurn(s.repair)).s;
    AfterTurns(s1, n);
    RunConcat(s, RestOfTurn(s.repair), Turns(n));
    ReachableInv(s);
    IdleHandCount(InHand, s.clients);
    IdleHandCount(OnLoan, s.clients);
  }
}
