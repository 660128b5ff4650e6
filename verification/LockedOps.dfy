/** The storage operations running on the pool with its three mutexes and counters.

A state has the fine state of PoolLocks, where every thread may be anywhere inside a critical
section, and the operation of StorageOps that each client thread is in.  Between two sections a
client does what its operation calls for next.
 */
module LockedOps {
  import opened Wrappers
  import opened PoolProtocol
  import opened PoolRuns
  import opened PoolLocks
  import opened StorageOps

  datatype Locked = Locked(f: Fine, work: seq<Work>)

  datatype Movement =
    | Between(a: Action)         // outside every section
    | Within(e: FineEvent)       // on the way through a section

  /** A thread does something between two sections only when it is outside them all. */
  predicate MayCome(f: Fine, a: Action) {
    match a
    case Begin(t, _) => t < |f.at| && f.at[t].Outside?
    case Call(t, _) => t < |f.at| && f.at[t].Outside?
    case End(t) => t < |f.at| && f.at[t].Outside?
    case Pooled(e) => IsLocal(f, e)
  }

  /** With its connection on the in-use list, pgsql_pool_get has it for its operation. */
  function WorkAfter(l: Locked, e: FineEvent): seq<Work> {
    match Commits(l.f, e)
    case Some(PutInuse(t)) => if t < |l.work| then l.work[t := Got(l.work[t])] else l.work
    case _ => l.work
  }

  function Does(l: Locked, x: Movement): Outcome<Locked> {
    match x
    case Between(a) =>
      if !MayCome(l.f, a) then Disabled
      else
        (match Act(Busy(l.f.s, l.work), a)
         case Next(b) => Next(Locked(l.f.(s := b.s), b.work))
         case Disabled => Disabled
         case Fault => Fault)
    case Within(e) =>
      if e.Local? then Disabled
      else
        (match FineStep(l.f, e)
         case Next(g) => Next(Locked(g, WorkAfter(l, e)))
         case Disabled => Disabled
         case Fault => Fault)
  }

  function DoesAll(l: Locked, xs: seq<Movement>): Outcome<Locked>
    decreases |xs|
  {
    if xs == [] then Next(l)
    else
      match Does(l, xs[0])
      case Next(l') => DoesAll(l', xs[1..])
      case Disabled => Disabled
      case Fault => Fault
  }

  ghost predicate LockedInitial(l: Locked) {
    && FineInitial(l.f) && |l.work| == |l.f.s.clients|
    && forall t :: 0 <= t < |l.work| ==> l.work[t].Rest?
  }

  ghost predicate LockedReachable(l: Locked) {
    exists l0, xs :: LockedInitial(l0) && DoesAll(l0, xs) == Next(l)
  }

  // ---------------------------------------------------------------- two abstractions

  /** The operations as StorageOps sees them, one section at a time. */
  function View(l: Locked): Busy {
    Busy(Abs(l.f), l.work)
  }

  ghost predicate LockedInv(l: Locked) {
    FineInv(l.f) && AllFit(View(l))
  }

  /** The action of StorageOps that is carried out, if any. */
  function Seen(l: Locked, x: Movement): seq<Action> {
    match x
    case Between(a) => [a]
    case Within(e) => if Commits(l.f, e).Some? then [Pooled(Commits(l.f, e).value)] else []
  }

  /** The step of PoolLocks that is taken, if any. */
  function Taken(l: Locked, x: Movement): seq<FineEvent> {
    match x
    case Between(a) => if Events(View(l), a) == [] then [] else [Local(Events(View(l), a)[0])]
    case Within(e) => [e]
  }

  /** What x must keep, and what it is in either system. */
  ghost predicate Matches(l: Locked, x: Movement, l': Locked) {
    && LockedInv(l')
    && Acts(View(l), Seen(l, x)) == Next(View(l'))
    && FineRun(l.f, Taken(l, x)) == Next(l'.f)
  }

  lemma OneAct(b: Busy, a: Action)
    ensures Acts(b, [a]) == Act(b, a)
  {
    if Act(b, a).Next? { assert Acts(Act(b, a).s, []) == Next(Act(b, a).s); }
  }

  lemma OneFine(f: Fine, e: FineEvent)
    ensures FineRun(f, [e]) == FineStep(f, e)
  {
    if FineStep(f, e).Next? { assert FineRun(FineStep(f, e).s, []) == Next(FineStep(f, e).s); }
  }

  /** What a section commits is a step inside pgsql_pool_get or pgsql_pool_release, or one of
  the repair thread. */
  lemma SectionEvents(f: Fine, e: FineEvent)
    requires !e.Local? && FineStep(f, e).Next? && Commits(f, e).Some?
    ensures var v := Commits(f, e).value;
      !v.Start? && !v.Exec? && !v.Release? && !v.Break? && !v.Mend? && !v.Inspect? && !v.Retest?
  {
  }

  lemma WithinMatches(l: Locked, e: FineEvent)
    requires LockedInv(l) && !e.Local?
    ensures Does(l, Within(e)) != Fault
    ensures Does(l, Within(e)).Next? ==> Matches(l, Within(e), Does(l, Within(e)).s)
  {
    FineStepRefines(l.f, e);
    if Does(l, Within(e)).Next? {
      OneFine(l.f, e);
      if Commits(l.f, e).Some? {
        var v := Commits(l.f, e).value;
        SectionEvents(l.f, e);
        OneAct(View(l), Pooled(v));
        ActKeeps(View(l), Pooled(v));
      }
    }
  }

  /** What happens between sections is the same for the pool with and without its locks. */
  lemma LocalMatches(f: Fine, e: Event)
    requires FineInv(f) && IsLocal(f, e)
    ensures Step(f.s, e) != Fault && Step(Abs(f), e) != Fault
    ensures Step(f.s, e).Next? <==> Step(Abs(f), e).Next?
    ensures Step(f.s, e).Next? ==>
      && FineInv(f.(s := Step(f.s, e).s)) && FineRun(f, [Local(e)]) == Next(f.(s := Step(f.s, e).s))
      && Abs(f.(s := Step(f.s, e).s)) == Step(Abs(f), e).s
  {
    OneFine(f, Local(e));
    FineStepRefines(f, Local(e));
  }

  lemma BetweenMatches(l: Locked, a: Action)
    requires LockedInv(l) && MayCome(l.f, a)
    ensures Does(l, Between(a)) != Fault
    ensures Does(l, Between(a)).Next? ==> Matches(l, Between(a), Does(l, Between(a)).s)
  {
    OneAct(View(l), a);
    ActKeeps(View(l), a);
    match a
    case Pooled(e) => LocalMatches(l.f, e);
    case Call(t, _) => if Events(View(l), a) != [] { LocalMatches(l.f, EventOf(t, l.work[t].pc)); }
    case _ =>
  }

  lemma DoesMatches(l: Locked, x: Movement)
    requires LockedInv(l)
    ensures Does(l, x) != Fault
    ensures Does(l, x).Next? ==> Matches(l, x, Does(l, x).s)
  {
    match x
    case Between(a) => if MayCome(l.f, a) { BetweenMatches(l, a); }
    case Within(e) => if !e.Local? { WithinMatches(l, e); }
  }

  // ---------------------------------------------------------------- whole runs

  function SeenAll(l: Locked, xs: seq<Movement>): seq<Action>
    requires DoesAll(l, xs).Next?
    decreases |xs|
  {
    if xs == [] then [] else Seen(l, xs[0]) + SeenAll(Does(l, xs[0]).s, xs[1..])
  }

  function TakenAll(l: Locked, xs: seq<Movement>): seq<FineEvent>
    requires DoesAll(l, xs).Next?
    decreases |xs|
  {
    if xs == [] then [] else Taken(l, xs[0]) + TakenAll(Does(l, xs[0]).s, xs[1..])
  }

  lemma {:induction false} ActsConcat(b: Busy, xs: seq<Action>, ys: seq<Action>)
    requires Acts(b, xs).Next?
    ensures Acts(b, xs + ys) == Acts(Acts(b, xs).s, ys)
    decreases |xs|
  {
    if xs == [] {
      assert xs + ys == ys;
    } else {
      assert (xs + ys)[1..] == xs[1..] + ys;
      ActsConcat(Act(b, xs[0]).s, xs[1..], ys);
    }
  }

  lemma {:induction false} FineRunConcat(f: Fine, xs: seq<FineEvent>, ys: seq<FineEvent>)
    requires FineRun(f, xs).Next?
    ensures FineRun(f, xs + ys) == FineRun(FineRun(f, xs).s, ys)
    decreases |xs|
  {
    if xs == [] {
      assert xs + ys == ys;
    } else {
      assert (xs + ys)[1..] == xs[1..] + ys;
      FineRunConcat(FineStep(f, xs[0]).s, xs[1..], ys);
    }
  }

  lemma {:induction false} RunsMatch(l: Locked, xs: seq<Movement>)
    requires LockedInv(l)
    ensures DoesAll(l, xs) != Fault
    ensures DoesAll(l, xs).Next? ==>
      && LockedInv(DoesAll(l, xs).s)
      && Acts(View(l), SeenAll(l, xs)) == Next(View(DoesAll(l, xs).s))
      && FineRun(l.f, TakenAll(l, xs)) == Next(DoesAll(l, xs).s.f)
    decreases |xs|
  {
    if xs != [] {
      DoesMatches(l, xs[0]);
      if Does(l, xs[0]).Next? {
        var l' := Does(l, xs[0]).s;
        RunsMatch(l', xs[1..]);
        if DoesAll(l, xs).Next? {
          ActsConcat(View(l), Seen(l, xs[0]), SeenAll(l', xs[1..]));
          FineRunConcat(l.f, Taken(l, xs[0]), TakenAll(l', xs[1..]));
        }
      }
    }
  }

  lemma InitialLocked(l: Locked)
    requires LockedInitial(l)
    ensures LockedInv(l) && BusyInitial(View(l))
  {
    FineInitialInv(l.f);
    assert Abs(l.f) == l.f.s;
  }

  /** Every interleaving of operations between the lock operations is a run of the operations
  with critical sections executed one after the other, and a run of the locks; nothing faults. */
  lemma InterleavingsAreOperationRuns(l0: Locked, xs: seq<Movement>)
    requires LockedInitial(l0)
    ensures BusyInitial(View(l0)) && DoesAll(l0, xs) != Fault
    ensures DoesAll(l0, xs).Next? ==>
      && Acts(View(l0), SeenAll(l0, xs)) == Next(View(DoesAll(l0, xs).s))
      && FineRun(l0.f, TakenAll(l0, xs)) == Next(DoesAll(l0, xs).s.f)
  {
    InitialLocked(l0);
    RunsMatch(l0, xs);
  }

  /** So what is known of the operations, and of the locks, holds in every interleaving. */
  lemma LockedAgrees(l: Locked)
    requires LockedReachable(l)
    ensures LockedInv(l) && BusyReachable(View(l)) && FineReachable(l.f)
  {
    var l0, xs :| LockedInitial(l0) && DoesAll(l0, xs) == Next(l);
    InitialLocked(l0);
    RunsMatch(l0, xs);
  }

  // ---------------------------------------------------------------- what a thread does inside a section

  /** Client t itself does x. */
  predicate DoneBy(x: Movement, t: nat) {
    match x
    case Between(Pooled(e)) => ByClient(e) && e.t == t
    case Between(Begin(u, _)) => u == t
    case Between(Call(u, _)) => u == t
    case Between(End(u)) => u == t
    case Within(Lock(th)) => th == ClientThread(t)
    case Within(Wait(th)) => th == ClientThread(t)
    case Within(ChangeList(th)) => th == ClientThread(t)
    case Within(ChangeCount(th)) => th == ClientThread(t)
    case Within(Unlock(th)) => th == ClientThread(t)
    case Within(_) => false
  }

  /** Inside a section a client does nothing but what the section has: it neither begins, calls nor
  ends anything, and takes no second lock. */
  lemma SectionFirst(l: Locked, x: Movement, t: nat)
    requires t < |l.f.at| && !l.f.at[t].Outside? && DoneBy(x, t) && Does(l, x).Next?
    ensures x.Within? && !x.e.Lock?
  {
  }

  /** A lock stays with its owner until the owner drops it, at the end of its section or to wait. */
  lemma OwnerDrops(l: Locked, x: Movement, w: Which)
    requires LockedInv(l) && l.f.owner.Get(w).Some? && Does(l, x).Next?
    ensures || Does(l, x).s.f.owner.Get(w) == l.f.owner.Get(w)
            || x == Within(Unlock(l.f.owner.Get(w).value)) || x == Within(Wait(l.f.owner.Get(w).value))
  {
    if x.Within? && (x.e.Unlock? || x.e.Wait?) {
      var th := x.e.th;
      assert Exists(l.f, th) && LockHeld(l.f, th).Some?;
      assert l.f.owner.Get(w) == Some(th) <==> LockHeld(l.f, th) == Some(w);
    }
  }

  // ---------------------------------------------------------------- steps that lead on

  /** Nothing begins, nothing breaks, and a reconnection goes well. */
  predicate CalmMove(x: Movement) {
    x.Between? ==> Calm(x.a)
  }

  /** Taking a lock, and dropping it again to wait: all that a thread which waits goes on doing. */
  predicate Polls(x: Movement) {
    x.Within? && (x.e.Lock? || x.e.Wait?)
  }

  /** What is left to do from this point to the end of a section. */
  function Owed(at: Section): nat {
    match at
    case Half(_, _) => 2
    case Done(_) => 1
    case _ => 0
  }

  function AllOwed(ats: seq<Section>): nat {
    if ats == [] then 0 else Owed(ats[0]) + AllOwed(ats[1..])
  }

  lemma {:induction false} OwedUpdate(ats: seq<Section>, t: nat, at: Section)
    requires t < |ats|
    ensures AllOwed(ats[t := at]) == AllOwed(ats) - Owed(ats[t]) + Owed(at)
  {
    if t > 0 {
      assert ats[t := at][1..] == ats[1..][t - 1 := at];
      OwedUpdate(ats[1..], t - 1, at);
    } else {
      assert ats[t := at][1..] == ats[1..];
    }
  }

  /** What is left to do before the pool is filled. */
  function Unfilled(f: Fine): nat {
    if !f.s.repair.Starting? then 0
    else
      match f.boot
      case Zero(w) => 3 * f.s.num + (match w case FreeList => 6 case InuseList => 4 case BadList => 2)
      case FillFrom(i) =>
        var filled := if f.repairAt.Half? then i + 1 else i;
        if filled <= f.s.num then 3 * (f.s.num - filled) else 0
  }

  /** The repair thread raises the counter of the free list in a step of its own. */
  function Unraised(f: Fine): nat {
    if f.s.repair.Mended? && !f.repairAt.Ahead? then 1 else 0
  }

  function SectionsLeft(f: Fine): nat {
    AllOwed(f.at) + Owed(f.repairAt) + Unfilled(f) + Unraised(f)
  }

  /** An upper bound for the number of steps, other than polling, that the threads can still take
  by themselves. */
  function MovesLeft(l: Locked): nat
    requires |Abs(l.f).clients| == |l.work|
  {
    3 * StepsLeft(View(l)) + SectionsLeft(l.f)
  }

  /** Polling leaves as much to do. */
  lemma PollingIsIdle(f: Fine, e: FineEvent)
    requires FineInv(f) && (e.Lock? || e.Wait?) && FineStep(f, e).Next?
    ensures SectionsLeft(FineStep(f, e).s) == SectionsLeft(f)
  {
    if e.th.ClientThread? { OwedUpdate(f.at, e.th.t, FineStep(f, e).s.at[e.th.t]); }
  }

  /** A step within a section that commits nothing leaves less. */
  lemma WithinLess(f: Fine, e: FineEvent)
    requires FineInv(f) && !e.Local? && !e.Lock? && !e.Wait? && FineStep(f, e).Next? && Commits(f, e).None?
    ensures SectionsLeft(FineStep(f, e).s) < SectionsLeft(f)
  {
    if e.Unlock? || e.ChangeCount? {
      if e.th.ClientThread? { OwedUpdate(f.at, e.th.t, FineStep(f, e).s.at[e.th.t]); }
    }
  }

  lemma ClientCommitAdds(f: Fine, t: nat)
    requires FineInv(f) && t < |f.at| && FineStep(f, ChangeList(ClientThread(t))).Next?
    ensures SectionsLeft(FineStep(f, ChangeList(ClientThread(t))).s) <= SectionsLeft(f) + 2
  {
    var (e, at) := ClientCommit(f.s.clients[t], t);
    var g := FineStep(f, ChangeList(ClientThread(t))).s;
    assert g.at == f.at[t := at] && g.s.repair == f.s.repair && g.s.num == f.s.num;
    OwedUpdate(f.at, t, at);
  }

  lemma LocalAdds(f: Fine, e: Event)
    requires FineInv(f) && FineStep(f, Local(e)).Next?
    ensures SectionsLeft(FineStep(f, Local(e)).s) <= SectionsLeft(f) + 1
  {
    LocalShape(f, e);
  }

  /** One that commits a step of the protocol adds at most two. */
  lemma CommitAdds(f: Fine, e: FineEvent)
    requires FineInv(f) && FineStep(f, e).Next? && Commits(f, e).Some?
    ensures SectionsLeft(FineStep(f, e).s) <= SectionsLeft(f) + 2
  {
    match e
    case ChangeList(ClientThread(t)) => ClientCommitAdds(f, t);
    case Local(v) => LocalAdds(f, v);
    case _ =>
  }

  lemma SeenIsCalm(l: Locked, x: Movement)
    requires CalmMove(x) && Does(l, x).Next?
    ensures forall a :: a in Seen(l, x) ==> Calm(a)
  {
    if x.Within? && Commits(l.f, x.e).Some? { SectionEvents(l.f, x.e); }
  }

  lemma SeenAdds(l: Locked, x: Movement)
    requires LockedInv(l) && Does(l, x).Next? && Seen(l, x) != []
    ensures SectionsLeft(Does(l, x).s.f) <= SectionsLeft(l.f) + 2
  {
    match x
    case Within(e) => CommitAdds(l.f, e);
    case Between(a) =>
      DoesMatches(l, x);
      if Taken(l, x) != [] {
        OneFine(l.f, Taken(l, x)[0]);
        CommitAdds(l.f, Taken(l, x)[0]);
      }
  }

  /** One step of the threads by themselves, in any interleaving. */
  lemma CalmLess(l: Locked, x: Movement)
    requires LockedInv(l) && CalmMove(x) && Does(l, x).Next?
    ensures LockedInv(Does(l, x).s) && Does(l, x).s.f.s.num == l.f.s.num
    ensures Polls(x) ==> MovesLeft(Does(l, x).s) == MovesLeft(l) && Does(l, x).s.work == l.work
    ensures !Polls(x) ==> MovesLeft(Does(l, x).s) < MovesLeft(l)
  {
    var l' := Does(l, x).s;
    DoesMatches(l, x);
    if Seen(l, x) == [] {
      if Polls(x) { PollingIsIdle(l.f, x.e); } else { WithinLess(l.f, x.e); }
    } else {
      var a := Seen(l, x)[0];
      SeenIsCalm(l, x);
      OneAct(View(l), a);
      CalmIsProgress(View(l), a);
      SeenAdds(l, x);
    }
  }

  // ---------------------------------------------------------------- every interleaving ends

  /** How many of these are more than polling. */
  function Steps(xs: seq<Movement>): nat {
    if xs == [] then 0 else (if Polls(xs[0]) then 0 else 1) + Steps(xs[1..])
  }

  ghost predicate AllCalmMoves(xs: seq<Movement>) {
    forall x :: x in xs ==> CalmMove(x)
  }

  lemma {:induction false} CalmMovesShrink(l: Locked, xs: seq<Movement>)
    requires LockedInv(l) && AllCalmMoves(xs) && DoesAll(l, xs).Next?
    ensures LockedInv(DoesAll(l, xs).s) && DoesAll(l, xs).s.f.s.num == l.f.s.num
    ensures Steps(xs) + MovesLeft(DoesAll(l, xs).s) <= MovesLeft(l)
    ensures Steps(xs) == 0 ==> MovesLeft(DoesAll(l, xs).s) == MovesLeft(l)
    decreases |xs|
  {
    if xs != [] {
      CalmLess(l, xs[0]);
      CalmMovesShrink(Does(l, xs[0]).s, xs[1..]);
    }
  }

  /** xs goes on calmly from l, and the database answers as o says. */
  ghost predicate Course(l: Locked, xs: seq<Movement>, o: Oracle)
    decreases |xs|
  {
    xs == [] ||
    (&& CalmMove(xs[0]) && Does(l, xs[0]).Next?
     && (xs[0].Between? && xs[0].a.Call? ==> xs[0].a.reply == o(View(l)))
     && Course(Does(l, xs[0]).s, xs[1..], o))
  }

  lemma {:induction false} CourseRuns(l: Locked, xs: seq<Movement>, o: Oracle)
    requires Course(l, xs, o)
    ensures DoesAll(l, xs).Next? && AllCalmMoves(xs)
    decreases |xs|
  {
    if xs != [] { CourseRuns(Does(l, xs[0]).s, xs[1..], o); }
  }

  lemma {:induction false} CourseConcat(l: Locked, xs: seq<Movement>, ys: seq<Movement>, o: Oracle)
    requires Course(l, xs, o) && DoesAll(l, xs).Next? && Course(DoesAll(l, xs).s, ys, o)
    ensures Course(l, xs + ys, o) && DoesAll(l, xs + ys) == DoesAll(DoesAll(l, xs).s, ys)
    decreases |xs|
  {
    if xs == [] {
      assert xs + ys == ys;
    } else {
      assert (xs + ys)[1..] == xs[1..] + ys;
      CourseConcat(Does(l, xs[0]).s, xs[1..], ys, o);
    }
  }

  /** xs leads on from l. */
  ghost predicate Leads(l: Locked, xs: seq<Movement>, o: Oracle)
    requires LockedInv(l)
  {
    && Course(l, xs, o) && DoesAll(l, xs).Next? && LockedInv(DoesAll(l, xs).s)
    && MovesLeft(DoesAll(l, xs).s) < MovesLeft(l)
  }

  lemma LeadsOne(l: Locked, x: Movement, o: Oracle)
    requires LockedInv(l) && CalmMove(x) && Does(l, x).Next? && !Polls(x)
    requires x.Between? && x.a.Call? ==> x.a.reply == o(View(l))
    ensures Leads(l, [x], o)
  {
    CalmLess(l, x);
    assert DoesAll(Does(l, x).s, []) == Next(Does(l, x).s);
  }

  lemma LeadsThen(l: Locked, x: Movement, xs: seq<Movement>, o: Oracle)
    requires LockedInv(l) && x.Within? && Does(l, x).Next? && LockedInv(Does(l, x).s) && Leads(Does(l, x).s, xs, o)
    ensures Leads(l, [x] + xs, o)
  {
    CalmLess(l, x);
    assert ([x] + xs)[1..] == xs;
  }

  /** What carries out a step of the protocol between the locks does so for the operations. */
  lemma {:induction false} Replay(l: Locked, es: seq<FineEvent>, o: Oracle) returns (xs: seq<Movement>)
    requires LockedInv(l) && Reaches(l.f, es) && forall e :: e in es ==> !e.Local?
    ensures Leads(l, xs, o)
    decreases |es|
  {
    var x := Within(es[0]);
    if |es| == 1 {
      LeadsOne(l, x, o);
      xs := [x];
    } else {
      CalmLess(l, x);
      xs := Replay(Does(l, x).s, es[1..], o);
      LeadsThen(l, x, xs, o);
      xs := [x] + xs;
    }
  }

  lemma SectionNeeded(f: Fine, e: Event)
    requires Settled(f) && Step(f.s, e).Next? && Calm(Pooled(e)) && !e.Exec? && !e.Release?
    requires |f.at| == |f.s.clients| && !IsLocal(f, e)
    ensures Productive(e) && NeedsOf(f, Actor(e)).Some?
  {
    assert Exists(f, Actor(e)) ==> PointOf(f, Actor(e)).Outside?;
  }

  lemma MayComeNow(l: Locked, a: Action)
    requires LockedInv(l) && Settled(l.f) && Act(View(l), a).Next? && !(a.Pooled? && !IsLocal(l.f, a.e))
    ensures Does(l, Between(a)).Next?
  {
    assert !a.Pooled? ==> PointOf(l.f, ClientThread(a.t)).Outside?;
  }

  /** When nobody is inside a section, what StorageOps says is possible can be carried out. */
  lemma SettledLeads(l: Locked, t: nat, o: Oracle) returns (xs: seq<Movement>)
    requires LockedInv(l) && Settled(l.f) && l.f.s.num >= 1 && t < |l.work| && l.work[t].Doing?
    ensures Leads(l, xs, o)
  {
    var a := GoesOn(View(l), t, o(View(l)));
    if a.Pooled? && !IsLocal(l.f, a.e) {
      SectionNeeded(l.f, a.e);
      var es := CarryOut(l.f, a.e);
      xs := Replay(l, es, o);
    } else {
      MayComeNow(l, a);
      LeadsOne(l, Between(a), o);
      xs := [Between(a)];
    }
  }

  /** From any point of any interleaving with an unfinished operation the threads can go on. */
  lemma {:induction false} LeadsOn(l: Locked, t: nat, o: Oracle) returns (xs: seq<Movement>)
    requires LockedInv(l) && l.f.s.num >= 1 && t < |l.work| && l.work[t].Doing?
    ensures Leads(l, xs, o)
    decreases BootLeft(l.f), Rank(l.f)
  {
    if Settled(l.f) {
      xs := SettledLeads(l, t, o);
    } else {
      var e := Unsettled(l.f);
      var x := Within(e);
      if Polls(x) {
        CalmLess(l, x);
        xs := LeadsOn(Does(l, x).s, t, o);
        LeadsThen(l, x, xs, o);
        xs := [x] + xs;
      } else {
        LeadsOne(l, x, o);
        xs := [x];
      }
    }
  }

  /** However the threads interleave between their lock operations, and whatever the database
  answers: as long as nothing new begins, nothing breaks and reconnections go well, all but a
  bounded number of their steps are polls, and they can go on with more than polling until
  every operation has ended.  So there is no deadlock. */
  lemma EveryInterleavingEnds(l: Locked, xs: seq<Movement>)
    requires LockedReachable(l) && l.f.s.num >= 1 && AllCalmMoves(xs) && DoesAll(l, xs).Next?
    ensures |Abs(l.f).clients| == |l.work| && Steps(xs) <= MovesLeft(l)
    ensures || AllRest(View(DoesAll(l, xs).s))
            || exists ys :: AllCalmMoves(ys) && Steps(ys) > 0 && DoesAll(DoesAll(l, xs).s, ys).Next?
  {
    LockedAgrees(l);
    CalmMovesShrink(l, xs);
    var l' := DoesAll(l, xs).s;
    if t :| 0 <= t < |l'.work| && l'.work[t].Doing? {
      var o := (b: Busy) => Reply(false, 0);
      var ys := LeadsOn(l', t, o);
      CourseRuns(l', ys, o);
      CalmMovesShrink(l', ys);
    }
  }

  lemma {:induction false} LockedCompletes(l: Locked, o: Oracle) returns (xs: seq<Movement>)
    requires LockedInv(l) && l.f.s.num >= 1
    ensures Course(l, xs, o) && DoesAll(l, xs).Next? && AllRest(View(DoesAll(l, xs).s))
    decreases MovesLeft(l)
  {
    xs := [];
    if t :| 0 <= t < |l.work| && l.work[t].Doing? {
      var ys := LeadsOn(l, t, o);
      CourseRuns(l, ys, o);
      CalmMovesShrink(l, ys);
      var zs := LockedCompletes(DoesAll(l, ys).s, o);
      CourseConcat(l, ys, zs, o);
      xs := ys + zs;
    }
  }

  /** From every point of every interleaving, in a pool of one connection or more, the threads
  can bring all operations to their ends, whatever the database answers. */
  lemma OperationsCanEnd(l: Locked, o: Oracle)
    requires LockedReachable(l) && l.f.s.num >= 1
    ensures exists xs :: Course(l, xs, o) && DoesAll(l, xs).Next? && AllRest(View(DoesAll(l, xs).s))
  {
    LockedAgrees(l);
    var xs := LockedCompletes(l, o);
  }
}
