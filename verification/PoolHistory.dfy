/** What pgsql_pool_get and pgsql_pool_release make of a connection that is down, told over whole
runs: from the lists, from who carries what, and from the status at the time of a test.
 */
module PoolHistory {
  import opened Wrappers
  import opened PoolProtocol
  import opened PoolRuns

  /** The connection that client t carries or has borrowed. */
  function With(s: State, t: nat): Option<Id> {
    if t < |s.clients| && !s.clients[t].Idle? && !s.clients[t].Getting? then Some(s.clients[t].c) else None
  }

  // ---------------------------------------------------------------- takes, tests and puts

  /** A connection on a list, or off it or on its way to it. */
  datatype Spot = Spot(w: Which, c: Id)

  /** What PQstatus said of a connection that had been taken off a list. */
  datatype Test = Test(from: Which, c: Id, ok: bool)

  function Sources(tests: seq<Test>): seq<Spot> {
    if tests == [] then [] else [Spot(tests[0].from, tests[0].c)] + Sources(tests[1..])
  }

  /** Where a connection belongs: a bad one is for the repair thread; of the others, what comes
  from the free list is lent, and what comes from the in-use list is free again. */
  function Belongs(from: Which, ok: bool): Which {
    if !ok then BadList else if from == FreeList then InuseList else FreeList
  }

  function Results(tests: seq<Test>): seq<Spot> {
    if tests == [] then [] else [Spot(Belongs(tests[0].from, tests[0].ok), tests[0].c)] + Results(tests[1..])
  }

  /** The connection that a step of client t takes off a list: the one that it has afterwards. */
  function Takes(s: State, e: Event, t: nat): seq<Spot>
    requires Step(s, e).Next?
  {
    var s' := Step(s, e).s;
    if !ByClient(e) || e.t != t || With(s', t).None? then []
    else if |s'.lists.free| < |s.lists.free| then [Spot(FreeList, With(s', t).value)]
    else if |s'.lists.inuse| < |s.lists.inuse| then [Spot(InuseList, With(s', t).value)]
    else []
  }

  /** pgsql_pool_get tests what it took off the free list, pgsql_pool_release what it took off the
  in-use list. */
  function Tests(s: State, e: Event, t: nat): seq<Test> {
    if With(s, t).None? then []
    else
      var c := With(s, t).value;
      if e == Inspect(t) then [Test(FreeList, c, c in s.ok)]
      else if e == Retest(t) then [Test(InuseList, c, c in s.ok)]
      else []
  }

  /** The list that a step of client t appends to, and what is at its end then. */
  function Puts(s: State, e: Event, t: nat): seq<Spot>
    requires Step(s, e).Next?
  {
    var l, l' := s.lists, Step(s, e).s.lists;
    if !ByClient(e) || e.t != t then []
    else if |l'.free| > |l.free| then [Spot(FreeList, l'.free[|l'.free| - 1])]
    else if |l'.inuse| > |l.inuse| then [Spot(InuseList, l'.inuse[|l'.inuse| - 1])]
    else if |l'.bad| > |l.bad| then [Spot(BadList, l'.bad[|l'.bad| - 1])]
    else []
  }

  function AllTakes(s: State, es: seq<Event>, t: nat): seq<Spot>
    requires Run(s, es).Next?
    decreases |es|
  {
    if es == [] then [] else Takes(s, es[0], t) + AllTakes(Step(s, es[0]).s, es[1..], t)
  }

  function AllTests(s: State, es: seq<Event>, t: nat): seq<Test>
    requires Run(s, es).Next?
    decreases |es|
  {
    if es == [] then [] else Tests(s, es[0], t) + AllTests(Step(s, es[0]).s, es[1..], t)
  }

  function AllPuts(s: State, es: seq<Event>, t: nat): seq<Spot>
    requires Run(s, es).Next?
    decreases |es|
  {
    if es == [] then [] else Puts(s, es[0], t) + AllPuts(Step(s, es[0]).s, es[1..], t)
  }

  /** Taken and not tested yet. */
  function Untested(s: State, t: nat): seq<Spot> {
    if t >= |s.clients| then []
    else
      match s.clients[t]
      case Grabbed(c) => [Spot(FreeList, c)]
      case Unlinked(c, _) => [Spot(InuseList, c)]
      case _ => []
  }

  /** Tested and not put yet. */
  function Pending(s: State, t: nat): seq<Spot> {
    if t >= |s.clients| then []
    else
      match s.clients[t]
      case Admitting(c) => [Spot(InuseList, c)]
      case Returning(c, _) => [Spot(FreeList, c)]
      case Rejecting(c, _) => [Spot(BadList, c)]
      case _ => []
  }

  /** Steps of others leave a client what it has. */
  lemma OthersLeave(s: State, e: Event, t: nat)
    requires Step(s, e).Next? && !(ByClient(e) && e.t == t)
    ensures t < |s.clients| <==> t < |Step(s, e).s.clients|
    ensures t < |s.clients| ==> Step(s, e).s.clients[t] == s.clients[t]
    ensures Takes(s, e, t) == [] && Tests(s, e, t) == [] && Puts(s, e, t) == []
  {
  }

  lemma TestPends(s: State, e: Event)
    requires (e.Inspect? || e.Retest?) && Step(s, e).Next?
    ensures Pending(s, e.t) == [] && Results(Tests(s, e, e.t)) == Pending(Step(s, e).s, e.t) && Puts(s, e, e.t) == []
  {
    assert Results(Tests(s, e, e.t)[1..]) == [];
  }

  lemma PutPuts(s: State, e: Event)
    requires (e.PutInuse? || e.PutFree? || e.PutBad?) && Step(s, e).Next?
    ensures Pending(s, e.t) == Puts(s, e, e.t) && Tests(s, e, e.t) == [] && Pending(Step(s, e).s, e.t) == []
  {
  }

  lemma NothingPends(s: State, e: Event)
    requires ByClient(e) && Step(s, e).Next?
    requires !e.Inspect? && !e.Retest? && !e.PutInuse? && !e.PutFree? && !e.PutBad?
    ensures Pending(s, e.t) == [] && Tests(s, e, e.t) == [] && Puts(s, e, e.t) == [] && Pending(Step(s, e).s, e.t) == []
  {
  }

  lemma TestThenPut(s: State, e: Event, t: nat)
    requires Step(s, e).Next?
    ensures Pending(s, t) + Results(Tests(s, e, t)) == Puts(s, e, t) + Pending(Step(s, e).s, t)
  {
    if !(ByClient(e) && e.t == t) {
      OthersLeave(s, e, t);
    } else if e.Inspect? || e.Retest? {
      TestPends(s, e);
    } else if e.PutInuse? || e.PutFree? || e.PutBad? {
      PutPuts(s, e);
    } else {
      NothingPends(s, e);
    }
  }

  lemma TakeThenTest(s: State, e: Event, t: nat)
    requires Step(s, e).Next?
    ensures Untested(s, t) + Takes(s, e, t) == Sources(Tests(s, e, t)) + Untested(Step(s, e).s, t)
  {
    if !(ByClient(e) && e.t == t) {
      OthersLeave(s, e, t);
    } else if e.Inspect? || e.Retest? {
      assert Sources(Tests(s, e, t)[1..]) == [];
    }
  }

  /** Two such laws one after the other. */
  lemma Chain<T>(p: seq<T>, a: seq<T>, b: seq<T>, q: seq<T>, a': seq<T>, b': seq<T>, r: seq<T>)
    requires p + a == b + q && q + a' == b' + r
    ensures p + (a + a') == (b + b') + r
  {
    assert p + (a + a') == (p + a) + a' == (b + q) + a' == b + (q + a') == b + (b' + r) == (b + b') + r;
  }

  lemma {:induction false} TestsConcat(xs: seq<Test>, ys: seq<Test>)
    ensures Sources(xs + ys) == Sources(xs) + Sources(ys) && Results(xs + ys) == Results(xs) + Results(ys)
  {
    if xs == [] {
      assert xs + ys == ys;
    } else {
      assert (xs + ys)[1..] == xs[1..] + ys;
      TestsConcat(xs[1..], ys);
    }
  }

  lemma {:induction false} TestsThenPuts(s: State, es: seq<Event>, t: nat)
    requires Run(s, es).Next?
    ensures Pending(s, t) + Results(AllTests(s, es, t)) == AllPuts(s, es, t) + Pending(Run(s, es).s, t)
    decreases |es|
  {
    if es == [] {
      assert Pending(s, t) + [] == [] + Pending(s, t);
    } else {
      var s', rest := Step(s, es[0]).s, es[1..];
      TestThenPut(s, es[0], t);
      TestsThenPuts(s', rest, t);
      TestsConcat(Tests(s, es[0], t), AllTests(s', rest, t));
      Chain(Pending(s, t), Results(Tests(s, es[0], t)), Puts(s, es[0], t), Pending(s', t),
            Results(AllTests(s', rest, t)), AllPuts(s', rest, t), Pending(Run(s, es).s, t));
    }
  }

  lemma {:induction false} TakesThenTests(s: State, es: seq<Event>, t: nat)
    requires Run(s, es).Next?
    ensures Untested(s, t) + AllTakes(s, es, t) == Sources(AllTests(s, es, t)) + Untested(Run(s, es).s, t)
    decreases |es|
  {
    if es == [] {
      assert Untested(s, t) + [] == [] + Untested(s, t);
    } else {
      var s', rest := Step(s, es[0]).s, es[1..];
      TakeThenTest(s, es[0], t);
      TakesThenTests(s', rest, t);
      TestsConcat(Tests(s, es[0], t), AllTests(s', rest, t));
      Chain(Untested(s, t), Takes(s, es[0], t), Sources(Tests(s, es[0], t)), Untested(s', t),
            AllTakes(s', rest, t), Sources(AllTests(s', rest, t)), Untested(Run(s, es).s, t));
    }
  }

  /** Over any run, what a client takes off the lists is tested, one connection after the other, and
  put where it belongs by its test: but for the one that it may have in its hands at the end. */
  lemma TakenTestedPut(s: State, es: seq<Event>, t: nat)
    requires Run(s, es).Next? && t < |s.clients| && (s.clients[t].Idle? || s.clients[t].Getting?)
    ensures AllTakes(s, es, t) == Sources(AllTests(s, es, t)) + Untested(Run(s, es).s, t)
    ensures Results(AllTests(s, es, t)) == AllPuts(s, es, t) + Pending(Run(s, es).s, t)
    ensures |Untested(Run(s, es).s, t)| + |Pending(Run(s, es).s, t)| <= 1
  {
    TakesThenTests(s, es, t);
    TestsThenPuts(s, es, t);
    assert Untested(s, t) == [] && Pending(s, t) == [];
    assert [] + AllTakes(s, es, t) == AllTakes(s, es, t);
    assert [] + Results(AllTests(s, es, t)) == Results(AllTests(s, es, t));
  }

  /** The client uses c, or is about to give it back. */
  predicate Uses(s: State, t: nat, c: Id) {
    t < |s.clients| && (s.clients[t].Using? || s.clients[t].Leaving?) && s.clients[t].c == c
  }

  lemma ComesToUse(s: State, e: Event, t: nat, c: Id)
    requires Step(s, e).Next? && Uses(Step(s, e).s, t, c)
    ensures Puts(s, e, t) == [Spot(InuseList, c)] || (Puts(s, e, t) == [] && Uses(s, t, c))
  {
    if !(ByClient(e) && e.t == t) { OthersLeave(s, e, t); }
  }

  /** What a client uses is the last that it put, and it put it on the in-use list. */
  lemma {:induction false} UsedWasPut(s: State, es: seq<Event>, t: nat, c: Id)
    requires Run(s, es).Next? && Uses(Run(s, es).s, t, c)
    ensures AllPuts(s, es, t) == [] ==> Uses(s, t, c)
    ensures AllPuts(s, es, t) != [] ==> AllPuts(s, es, t)[|AllPuts(s, es, t)| - 1] == Spot(InuseList, c)
    decreases |es|
  {
    if es != [] {
      UsedWasPut(Step(s, es[0]).s, es[1..], t, c);
      if Uses(Step(s, es[0]).s, t, c) { ComesToUse(s, es[0], t, c); }
    }
  }

  lemma {:induction false} ResultsLast(tests: seq<Test>)
    ensures |Results(tests)| == |tests|
    ensures tests != [] ==>
      var last := tests[|tests| - 1];
      Results(tests)[|tests| - 1] == Spot(Belongs(last.from, last.ok), last.c)
  {
    if |tests| > 1 {
      ResultsLast(tests[1..]);
      assert tests[1..][|tests| - 2] == tests[|tests| - 1];
    } else if |tests| == 1 {
      assert Results(tests[1..]) == [];
    }
  }

  /** pgsql_pool_get never hands out a connection that is down when it is tested: over any run, the
  last test that a client made before it came to use c was of c, taken off the free list, and good. */
  lemma OnlyGoodIsLent(s: State, es: seq<Event>, t: nat, c: Id)
    requires Run(s, es).Next? && t < |s.clients| && (s.clients[t].Idle? || s.clients[t].Getting?)
    requires Uses(Run(s, es).s, t, c)
    ensures var tests := AllTests(s, es, t);
      tests != [] && tests[|tests| - 1] == Test(FreeList, c, true)
  {
    TakenTestedPut(s, es, t);
    UsedWasPut(s, es, t, c);
    ResultsLast(AllTests(s, es, t));
  }

  // ---------------------------------------------------------------- who changes the status

  /** The status of c that an event sets: a break, or the repair thread's attempt at c. */
  function Sets(s: State, e: Event, c: Id): Option<bool> {
    match e
    case Break(d) => if d == c then Some(false) else None
    case Mend(success) => if s.repair == Mending(c) then Some(success) else None
    case _ => None
  }

  function LastSet(s: State, es: seq<Event>, c: Id): Option<bool>
    requires Run(s, es).Next?
    decreases |es|
  {
    if es == [] then None
    else
      match LastSet(Step(s, es[0]).s, es[1..], c)
      case Some(b) => Some(b)
      case None => Sets(s, es[0], c)
  }

  /** The status is what was last set, and otherwise what it was. */
  lemma {:induction false} StatusIsLastSet(s: State, es: seq<Event>, c: Id)
    requires Run(s, es).Next?
    ensures c in Run(s, es).s.ok <==>
      match LastSet(s, es, c) case Some(b) => b case None => c in s.ok
    decreases |es|
  {
    if es != [] {
      var s' := Step(s, es[0]).s;
      StatusIsLastSet(s', es[1..], c);
      assert c in s'.ok <==> match Sets(s, es[0], c) case Some(b) => b case None => c in s.ok;
    }
  }

  // ---------------------------------------------------------------- a bad connection stays out

  predicate OutOfUse(s: State, c: Id) {
    c in s.lists.bad || s.repair == Mending(c)
  }

  /** No attempt at c succeeds. */
  predicate NeverMended(s: State, es: seq<Event>, c: Id)
    requires Run(s, es).Next?
    decreases |es|
  {
    es == [] || (Sets(s, es[0], c) != Some(true) && NeverMended(Step(s, es[0]).s, es[1..], c))
  }

  /** What is on the bad list stays there or with the repair thread until an attempt at it succeeds. */
  lemma {:induction false} BadStaysOut(s: State, es: seq<Event>, c: Id)
    requires Run(s, es).Next? && OutOfUse(s, c) && NeverMended(s, es, c)
    ensures OutOfUse(Run(s, es).s, c)
    decreases |es|
  {
    if es != [] { BadStaysOut(Step(s, es[0]).s, es[1..], c); }
  }

  /** So nobody has it in the meantime. */
  lemma BadIsNotUsed(s: State, es: seq<Event>, c: Id, t: nat)
    requires Reachable(s) && Run(s, es).Next? && OutOfUse(s, c) && NeverMended(s, es, c)
    ensures With(Run(s, es).s, t) != Some(c) && c !in Run(s, es).s.lists.free
  {
    var s' := Run(s, es).s;
    BadStaysOut(s, es, c);
    ReachableInv(s);
    RunInv(s, es);
    assert Copies(s', c) <= 1 && Occurs(s'.lists.inuse, c) == Total(OnLoan, s'.clients, c);
    if With(s', t) == Some(c) {
      TotalHas(InHand, s'.clients, t, c);
      TotalHas(OnLoan, s'.clients, t, c);
    }
  }

  /** What the repair thread is about to free has come up in its last attempt at it. */
  lemma RepairFreesMended(s: State, e: Event, c: Id)
    requires Step(s, e).Next? && Step(s, e).s.repair == Mended(c)
    ensures s.repair == Mended(c) || Sets(s, e, c) == Some(true)
  {
  }
}
