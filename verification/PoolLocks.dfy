/** The connection pool with its three mutexes and three counters spelled out.

Every critical section of src/plugins/storage/pgsql_pool.c is cut into the steps
that other threads can interleave with: take the lock, change the list, change the
counter, drop the lock.  The state keeps the protocol state of PoolProtocol, with
the real lists in it, and says of each thread how far it is in its section.
 */
module PoolLocks {
  import opened Wrappers
  import opened PoolProtocol
  import opened PoolRuns

  datatype Thread = ClientThread(t: nat) | RepairThread

  datatype Section =
    | Outside
    | Entered                     // has the lock, nothing changed yet
    | Half(w: Which, d: int)      // list changed, counter still to be changed by d
    | Ahead                       // counter raised, list still to be appended to
    | Done(w: Which)              // list and counter changed, lock still held

  /** How far pgsql_pool_thread is with its start-up. */
  datatype Boot = Zero(w: Which) | FillFrom(i: nat)

  datatype Fine = Fine(s: State, count: PerList<int>, owner: PerList<Option<Thread>>,
                       at: seq<Section>, repairAt: Section, boot: Boot)

  datatype FineEvent =
    | Lock(th: Thread)
    | Wait(th: Thread)            // nv_timedwait: drop the lock, take it again later
    | ChangeList(th: Thread)
    | ChangeCount(th: Thread)
    | Unlock(th: Thread)
    | Local(e: Event)             // what a thread does outside every section, and Break
    | ZeroCount
    | FillOne
    | FillEnd

  /** The lock of the section that a client enters next. */
  function Needs(cl: Client): Option<Which> {
    match cl
    case Getting => Some(FreeList)
    case Returning(_, _) => Some(FreeList)
    case Admitting(_) => Some(InuseList)
    case Leaving(_, _) => Some(InuseList)
    case Rejecting(_, _) => Some(BadList)
    case _ => None
  }

  function RepairNeeds(r: Repair, boot: Boot): Option<Which> {
    match r
    case Starting => Some(if boot.Zero? then boot.w else BadList)
    case Watching => Some(BadList)
    case Mended(_) => Some(FreeList)
    case Mending(_) => None
  }

  /** The lock that a thread at this point of a section owns. */
  function LockOf(at: Section, needs: Option<Which>): Option<Which> {
    match at
    case Outside => None
    case Entered => needs
    case Half(w, _) => Some(w)
    case Ahead => Some(FreeList)
    case Done(w) => Some(w)
  }

  /** What a client's list operation commits, and by how much its counter is then behind. */
  function ClientCommit(cl: Client, t: nat): (Event, Section)
    requires Needs(cl).Some?
  {
    match cl
    case Getting => (Take(t), Half(FreeList, -1))
    case Returning(_, _) => (PutFree(t), Half(FreeList, 1))
    case Admitting(_) => (PutInuse(t), Half(InuseList, 1))
    case Leaving(_, _) => (Unlink(t), Half(InuseList, -1))
    case Rejecting(_, _) => (PutBad(t), Half(BadList, 1))
  }

  function SetOwner(f: Fine, w: Which, o: Option<Thread>): Fine {
    f.(owner := f.owner.Set(w, o))
  }

  function Move(f: Fine, th: Thread, at: Section): Fine
    requires th.ClientThread? ==> th.t < |f.at|
  {
    if th.RepairThread? then f.(repairAt := at) else f.(at := f.at[th.t := at])
  }

  function PointOf(f: Fine, th: Thread): Section
    requires th.ClientThread? ==> th.t < |f.at|
  {
    if th.RepairThread? then f.repairAt else f.at[th.t]
  }

  function NeedsOf(f: Fine, th: Thread): Option<Which>
    requires th.ClientThread? ==> th.t < |f.s.clients|
  {
    if th.RepairThread? then RepairNeeds(f.s.repair, f.boot) else Needs(f.s.clients[th.t])
  }

  predicate Exists(f: Fine, th: Thread) {
    th.ClientThread? ==> th.t < |f.at| && th.t < |f.s.clients|
  }

  /** The counter test at the top of pgsql_pool_get and of the repair loop. */
  predicate MustWait(f: Fine, th: Thread)
    requires Exists(f, th)
  {
    if th.RepairThread? then f.s.repair.Watching? && f.count.bad == 0
    else f.s.clients[th.t].Getting? && f.count.free == 0
  }

  /** Commit a protocol step on the real lists. */
  function Commit(f: Fine, e: Event, th: Thread, at: Section): Outcome<Fine>
    requires Exists(f, th)
  {
    match Step(f.s, e)
    case Next(s') => Next(Move(f.(s := s'), th, at))
    case _ => Fault
  }

  function ListOp(f: Fine, th: Thread): Outcome<Fine>
    requires Exists(f, th)
  {
    match th
    case ClientThread(t) =>
      if f.at[t].Entered? && Needs(f.s.clients[t]).Some? && !MustWait(f, th) then
        var (e, at) := ClientCommit(f.s.clients[t], t);
        Commit(f, e, th, at)
      else Disabled
    case RepairThread =>
      if f.s.repair.Watching? && f.repairAt.Entered? && !MustWait(f, th) then
        Commit(f, RepairTake, th, Half(BadList, -1))
      else if f.s.repair.Mended? && f.repairAt.Ahead? then
        Commit(f, RepairPut, th, Done(FreeList))
      else Disabled
  }

  function CountOp(f: Fine, th: Thread): Outcome<Fine>
    requires Exists(f, th)
  {
    match PointOf(f, th)
    case Half(w, d) =>
      var g := f.(count := f.count.Set(w, f.count.Get(w) + d));
      if th.RepairThread? && f.s.repair.Starting? && f.boot.FillFrom? then
        Next(g.(repairAt := Entered, boot := FillFrom(f.boot.i + 1)))
      else Next(Move(g, th, Done(w)))
    case Entered =>
      if th.RepairThread? && f.s.repair.Mended? then
        Next(f.(count := f.count.(free := f.count.free + 1), repairAt := Ahead))
      else Disabled
    case _ => Disabled
  }

  predicate IsLocal(f: Fine, e: Event) {
    match e
    case Break(_) => true
    case Mend(_) => f.repairAt.Outside?
    case Start(t) => t < |f.at| && f.at[t].Outside?
    case Inspect(t) => t < |f.at| && f.at[t].Outside?
    case Exec(t) => t < |f.at| && f.at[t].Outside?
    case Release(t, _) => t < |f.at| && f.at[t].Outside?
    case Retest(t) => t < |f.at| && f.at[t].Outside?
    case _ => false
  }

  function FineStep(f: Fine, e: FineEvent): Outcome<Fine> {
    match e
    case Lock(th) =>
      if !Exists(f, th) || !PointOf(f, th).Outside? then Disabled
      else
        (match NeedsOf(f, th)
         case None => Disabled
         case Some(w) =>
           if f.owner.Get(w).None? then Next(SetOwner(Move(f, th, Entered), w, Some(th))) else Disabled)
    case Wait(th) =>
      if Exists(f, th) && PointOf(f, th).Entered? && MustWait(f, th) then
        Next(SetOwner(Move(f, th, Outside), if th.RepairThread? then BadList else FreeList, None))
      else Disabled
    case ChangeList(th) => if Exists(f, th) then ListOp(f, th) else Disabled
    case ChangeCount(th) => if Exists(f, th) then CountOp(f, th) else Disabled
    case Unlock(th) =>
      if Exists(f, th) && PointOf(f, th).Done? then
        Next(SetOwner(Move(f, th, Outside), PointOf(f, th).w, None))
      else Disabled
    case Local(ev) =>
      if !IsLocal(f, ev) then Disabled
      else
        (match Step(f.s, ev)
         case Next(s') => Next(f.(s := s'))
         case Disabled => Disabled
         case Fault => Fault)
    case ZeroCount =>
      if f.s.repair.Starting? && f.repairAt.Entered? && f.boot.Zero? then
        Next(f.(count := f.count.Set(f.boot.w, 0), repairAt := Done(f.boot.w),
                boot := match f.boot.w
                        case FreeList => Zero(InuseList)
                        case InuseList => Zero(BadList)
                        case BadList => FillFrom(0)))
      else Disabled
    case FillOne =>
      if f.s.repair.Starting? && f.repairAt.Entered? && f.boot.FillFrom? && f.boot.i < f.s.num then
        Next(f.(s := Append(f.s, BadList, f.boot.i), repairAt := Half(BadList, 1)))
      else Disabled
    case FillEnd =>
      if f.s.repair.Starting? && f.repairAt.Entered? && f.boot.FillFrom? && f.boot.i >= f.s.num then
        Next(f.(s := f.s.(repair := Watching), repairAt := Done(BadList)))
      else Disabled
  }

  ghost predicate FineInitial(f: Fine) {
    && Initial(f.s)
    && f.count == PerList(0, 0, 0) && f.owner == PerList(None, None, None)
    && |f.at| == |f.s.clients| && (forall t :: 0 <= t < |f.at| ==> f.at[t].Outside?)
    && f.repairAt == Outside && f.boot == Zero(FreeList)
  }

  // ---------------------------------------------------------------- the abstraction

  /** The protocol state that a fine state stands for.  The list that the repair thread is
  still filling, under its lock, counts as empty. */
  function Abs(f: Fine): State {
    if f.s.repair.Starting? then f.s.(lists := f.s.lists.(bad := [])) else f.s
  }

  /** The protocol step that a fine step commits, if any. */
  function Commits(f: Fine, e: FineEvent): Option<Event> {
    match e
    case Local(ev) => Some(ev)
    case FillEnd => Some(Fill)
    case ChangeList(ClientThread(t)) =>
      if t < |f.s.clients| && Needs(f.s.clients[t]).Some? then Some(ClientCommit(f.s.clients[t], t).0) else None
    case ChangeList(RepairThread) => Some(if f.s.repair.Watching? then RepairTake else RepairPut)
    case _ => None
  }

  // ---------------------------------------------------------------- the invariant

  /** How far the counter runs ahead of the list while a thread is at this point. */
  function Skew(at: Section): int {
    match at
    case Half(_, d) => -d
    case Ahead => 1
    case _ => 0
  }

  function SkewOf(f: Fine, w: Which): int {
    match f.owner.Get(w)
    case None => 0
    case Some(th) => if Exists(f, th) then Skew(PointOf(f, th)) else 0
  }

  function LockHeld(f: Fine, th: Thread): Option<Which>
    requires Exists(f, th)
  {
    LockOf(PointOf(f, th), NeedsOf(f, th))
  }

  /** The owner fields say exactly which thread is inside which section. */
  ghost predicate Owners(f: Fine) {
    forall w: Which, th: Thread {:trigger f.owner.Get(w), LockHeld(f, th)} ::
      Exists(f, th) ==> (f.owner.Get(w) == Some(th) <==> LockHeld(f, th) == Some(w))
  }

  ghost predicate OwnersExist(f: Fine) {
    forall w: Which {:trigger f.owner.Get(w)} :: f.owner.Get(w).Some? ==> Exists(f, f.owner.Get(w).value)
  }

  ghost predicate Counters(f: Fine) {
    forall w: Which {:trigger f.count.Get(w)} :: f.count.Get(w) == |f.s.lists.Get(w)| + SkewOf(f, w)
  }

  /** Nobody stands at a point that its program does not have. */
  ghost predicate Points(f: Fine) {
    && |f.at| == |f.s.clients|
    && (forall t :: 0 <= t < |f.at| ==> !f.at[t].Ahead? && (f.at[t].Entered? ==> Needs(f.s.clients[t]).Some?))
    && (f.repairAt.Ahead? ==> f.s.repair.Mended?)
    && (f.repairAt.Entered? ==> !f.s.repair.Mending?)
  }

  /** While it starts, the repair thread alone touches the lists. */
  ghost predicate Booting(f: Fine) {
    f.s.repair.Starting? ==>
      && (f.boot.FillFrom? && f.repairAt.Half? ==> f.repairAt == Half(BadList, 1) && f.boot.i < f.s.num)
      && (f.boot.FillFrom? ==> f.boot.i <= f.s.num)
      && (f.boot.Zero? ==> !f.repairAt.Half?)
      && f.s.lists.bad ==
         (if f.boot.Zero? then [] else AllIds(f.boot.i + if f.repairAt.Half? then 1 else 0))
  }

  ghost predicate FineInv(f: Fine) {
    && Inv(Abs(f)) && Counted(Abs(f))
    && Owners(f) && OwnersExist(f) && Counters(f) && Points(f) && Booting(f)
  }

  lemma FineInitialInv(f: Fine)
    requires FineInitial(f)
    ensures FineInv(f)
  {
    InitialInv(f.s);
    InitialCounted(f.s);
    assert Abs(f) == f.s;
    assert AllIds(0) == [];
  }

  /** What a fine step must keep, and what it commits. */
  ghost predicate Refines(f: Fine, e: FineEvent, g: Fine) {
    && FineInv(g)
    && (match Commits(f, e)
        case None => Abs(g) == Abs(f)
        case Some(ev) => Step(Abs(f), ev) == Next(Abs(g)))
  }

  /** One thread moved, inside the section of lock w or in or out of it. */
  ghost predicate OneMoves(f: Fine, g: Fine, th: Thread, w: Which) {
    && |g.at| == |f.at| == |f.s.clients| == |g.s.clients| && Exists(f, th)
    && (forall t {:trigger g.at[t]} {:trigger g.s.clients[t]} :: 0 <= t < |f.at| && th != ClientThread(t) ==>
          g.at[t] == f.at[t] && g.s.clients[t] == f.s.clients[t])
    && (th.ClientThread? ==> g.repairAt == f.repairAt && g.s.repair == f.s.repair && g.boot == f.boot)
    && (forall v: Which {:trigger g.owner.Get(v)} {:trigger g.count.Get(v)} {:trigger g.s.lists.Get(v)} :: v != w ==>
          g.owner.Get(v) == f.owner.Get(v) && g.count.Get(v) == f.count.Get(v)
          && |g.s.lists.Get(v)| == |f.s.lists.Get(v)|)
    && (LockHeld(f, th).None? || LockHeld(f, th) == Some(w))
    && (LockHeld(g, th).None? || LockHeld(g, th) == Some(w))
    && (f.owner.Get(w).None? || f.owner.Get(w) == Some(th))
    && g.owner.Get(w) == (if LockHeld(g, th) == Some(w) then Some(th) else None)
    && g.count.Get(w) == |g.s.lists.Get(w)| + if LockHeld(g, th) == Some(w) then Skew(PointOf(g, th)) else 0
  }

  lemma OthersStay(f: Fine, g: Fine, th: Thread, w: Which, u: Thread)
    requires OneMoves(f, g, th, w) && u != th && Exists(f, u)
    ensures PointOf(g, u) == PointOf(f, u) && LockHeld(g, u) == LockHeld(f, u)
  {
    match u
    case ClientThread(t) => assert g.at[t] == f.at[t] && g.s.clients[t] == f.s.clients[t];
    case RepairThread => assert th.ClientThread?;
  }

  lemma MovesKeepOwners(f: Fine, g: Fine, th: Thread, w: Which)
    requires Owners(f) && OwnersExist(f) && OneMoves(f, g, th, w)
    ensures Owners(g) && OwnersExist(g)
  {
    forall v: Which, u: Thread | Exists(g, u)
      ensures g.owner.Get(v) == Some(u) <==> LockHeld(g, u) == Some(v)
    {
      if u != th { OthersStay(f, g, th, w, u); }
      assert f.owner.Get(v) == Some(u) <==> LockHeld(f, u) == Some(v);
      assert f.owner.Get(w) == Some(u) <==> LockHeld(f, u) == Some(w);
    }
    forall v: Which | g.owner.Get(v).Some?
      ensures Exists(g, g.owner.Get(v).value)
    {
      assert f.owner.Get(v).Some? ==> Exists(f, f.owner.Get(v).value);
    }
  }

  lemma MovesKeepCounters(f: Fine, g: Fine, th: Thread, w: Which)
    requires Owners(f) && OwnersExist(f) && Counters(f) && OneMoves(f, g, th, w)
    ensures Counters(g)
  {
    forall v: Which
      ensures g.count.Get(v) == |g.s.lists.Get(v)| + SkewOf(g, v)
    {
      assert f.count.Get(v) == |f.s.lists.Get(v)| + SkewOf(f, v);
      assert f.owner.Get(v) == Some(th) <==> LockHeld(f, th) == Some(v);
      match f.owner.Get(v)
      case None =>
      case Some(u) =>
        assert Exists(f, u);
        if u != th { OthersStay(f, g, th, w, u); }
    }
  }

  /** A thread that is inside a section owns its lock, and the counter shows how far it is. */
  lemma Inside(f: Fine, th: Thread, w: Which)
    requires Owners(f) && Counters(f) && Exists(f, th) && LockHeld(f, th) == Some(w)
    ensures f.owner.Get(w) == Some(th)
    ensures f.count.Get(w) == |f.s.lists.Get(w)| + Skew(PointOf(f, th))
  {
  }

  lemma LockRefines(f: Fine, th: Thread)
    requires FineInv(f) && FineStep(f, Lock(th)).Next?
    ensures Refines(f, Lock(th), FineStep(f, Lock(th)).s)
  {
    var g := FineStep(f, Lock(th)).s;
    var w := NeedsOf(f, th).value;
    assert g == SetOwner(Move(f, th, Entered), w, Some(th));
    assert f.count.Get(w) == |f.s.lists.Get(w)| + SkewOf(f, w);
    MovesKeepOwners(f, g, th, w);
    MovesKeepCounters(f, g, th, w);
  }

  lemma WaitRefines(f: Fine, th: Thread)
    requires FineInv(f) && FineStep(f, Wait(th)).Next?
    ensures Refines(f, Wait(th), FineStep(f, Wait(th)).s)
  {
    var g := FineStep(f, Wait(th)).s;
    var w := if th.RepairThread? then BadList else FreeList;
    Inside(f, th, w);
    MovesKeepOwners(f, g, th, w);
    MovesKeepCounters(f, g, th, w);
  }

  lemma UnlockRefines(f: Fine, th: Thread)
    requires FineInv(f) && FineStep(f, Unlock(th)).Next?
    ensures Refines(f, Unlock(th), FineStep(f, Unlock(th)).s)
  {
    var g := FineStep(f, Unlock(th)).s;
    var w := PointOf(f, th).w;
    Inside(f, th, w);
    MovesKeepOwners(f, g, th, w);
    MovesKeepCounters(f, g, th, w);
  }

  lemma CountMoves(f: Fine, th: Thread, w: Which)
    requires Owners(f) && Counters(f) && Points(f) && Booting(f) && FineStep(f, ChangeCount(th)).Next?
    requires w == if PointOf(f, th).Half? then PointOf(f, th).w else FreeList
    ensures OneMoves(f, FineStep(f, ChangeCount(th)).s, th, w) && Points(FineStep(f, ChangeCount(th)).s)
  {
    Inside(f, th, w);
  }

  lemma CountBoots(f: Fine, th: Thread)
    requires Points(f) && Booting(f) && FineStep(f, ChangeCount(th)).Next?
    ensures var g := FineStep(f, ChangeCount(th)).s; Booting(g) && g.s == f.s
  {
  }

  lemma CountRefines(f: Fine, th: Thread)
    requires FineInv(f) && FineStep(f, ChangeCount(th)).Next?
    ensures Refines(f, ChangeCount(th), FineStep(f, ChangeCount(th)).s)
  {
    var g := FineStep(f, ChangeCount(th)).s;
    var w := if PointOf(f, th).Half? then PointOf(f, th).w else FreeList;
    CountMoves(f, th, w);
    CountBoots(f, th);
    MovesKeepOwners(f, g, th, w);
    MovesKeepCounters(f, g, th, w);
  }

  lemma ZeroRefines(f: Fine)
    requires FineInv(f) && FineStep(f, ZeroCount).Next?
    ensures Refines(f, ZeroCount, FineStep(f, ZeroCount).s)
  {
    var g := FineStep(f, ZeroCount).s;
    NobodyHasAnything(Abs(f));
    Inside(f, RepairThread, f.boot.w);
    MovesKeepOwners(f, g, RepairThread, f.boot.w);
    MovesKeepCounters(f, g, RepairThread, f.boot.w);
  }

  lemma FillOneRefines(f: Fine)
    requires FineInv(f) && FineStep(f, FillOne).Next?
    ensures Refines(f, FillOne, FineStep(f, FillOne).s)
  {
    var g := FineStep(f, FillOne).s;
    Inside(f, RepairThread, BadList);
    MovesKeepOwners(f, g, RepairThread, BadList);
    MovesKeepCounters(f, g, RepairThread, BadList);
    assert AllIds(f.boot.i) + [f.boot.i] == AllIds(f.boot.i + 1);
  }

  lemma FillEndRefines(f: Fine)
    requires FineInv(f) && FineStep(f, FillEnd).Next?
    ensures Refines(f, FillEnd, FineStep(f, FillEnd).s)
  {
    var g := FineStep(f, FillEnd).s;
    Inside(f, RepairThread, BadList);
    MovesKeepOwners(f, g, RepairThread, BadList);
    MovesKeepCounters(f, g, RepairThread, BadList);
    assert [] + AllIds(f.s.num) == AllIds(f.s.num);
    StepInv(Abs(f), Fill);
    StepCounted(Abs(f), Fill);
  }

  /** A client that gets past its counter test finds the pool filled. */
  lemma ClientListAfterFill(f: Fine, t: nat)
    requires FineInv(f) && t < |f.at| && FineStep(f, ChangeList(ClientThread(t))) != Disabled
    ensures !f.s.repair.Starting?
  {
    if f.s.repair.Starting? {
      NobodyHasAnything(Abs(f));
      assert f.s.clients[t].Getting?;
      Inside(f, ClientThread(t), FreeList);
    }
  }

  lemma ClientCommits(f: Fine, t: nat)
    requires Owners(f) && Counters(f) && Points(f) && t < |f.at| && FineStep(f, ChangeList(ClientThread(t))) != Disabled
    requires Step(f.s, ClientCommit(f.s.clients[t], t).0) != Fault
    ensures var (e, at) := ClientCommit(f.s.clients[t], t);
      && at.Half?
      && Step(f.s, e).Next?
      && OneMoves(f, Commit(f, e, ClientThread(t), at).s, ClientThread(t), at.w)
      && Points(Commit(f, e, ClientThread(t), at).s)
  {
    Inside(f, ClientThread(t), ClientCommit(f.s.clients[t], t).1.w);
  }

  /** The list operation of a client's section, guarded by the counter and never faulting. */
  lemma ClientListRefines(f: Fine, t: nat)
    requires FineInv(f) && t < |f.at| && FineStep(f, ChangeList(ClientThread(t))) != Disabled
    ensures FineStep(f, ChangeList(ClientThread(t))).Next?
    ensures Refines(f, ChangeList(ClientThread(t)), FineStep(f, ChangeList(ClientThread(t))).s)
  {
    var (e, at) := ClientCommit(f.s.clients[t], t);
    ClientListAfterFill(f, t);
    Inside(f, ClientThread(t), at.w);
    StepInv(f.s, e);
    ClientCommits(f, t);
    StepCounted(f.s, e);
    var g := Commit(f, e, ClientThread(t), at).s;
    MovesKeepOwners(f, g, ClientThread(t), at.w);
    MovesKeepCounters(f, g, ClientThread(t), at.w);
  }

  /** What the repair thread's list operation commits, and on which list. */
  function RepairCommit(f: Fine): (Event, Which) {
    if f.s.repair.Watching? then (RepairTake, BadList) else (RepairPut, FreeList)
  }

  lemma RepairCommits(f: Fine)
    requires Owners(f) && Counters(f) && Points(f) && FineStep(f, ChangeList(RepairThread)) != Disabled
    requires Step(f.s, RepairCommit(f).0) != Fault
    ensures FineStep(f, ChangeList(RepairThread)).Next? && Step(f.s, RepairCommit(f).0).Next?
    ensures var g := FineStep(f, ChangeList(RepairThread)).s;
      && g.s == Step(f.s, RepairCommit(f).0).s && !f.s.repair.Starting? && !g.s.repair.Starting?
      && OneMoves(f, g, RepairThread, RepairCommit(f).1) && Points(g)
  {
    Inside(f, RepairThread, RepairCommit(f).1);
  }

  lemma RepairListRefines(f: Fine)
    requires FineInv(f) && FineStep(f, ChangeList(RepairThread)) != Disabled
    ensures FineStep(f, ChangeList(RepairThread)).Next?
    ensures Refines(f, ChangeList(RepairThread), FineStep(f, ChangeList(RepairThread)).s)
  {
    var (e, w) := RepairCommit(f);
    EventKeepsInv(f.s, e);
    RepairCommits(f);
    var g := FineStep(f, ChangeList(RepairThread)).s;
    MovesKeepOwners(f, g, RepairThread, w);
    MovesKeepCounters(f, g, RepairThread, w);
  }

  /** What happens outside every section touches no list, and no thread inside one. */
  lemma LocalShape(f: Fine, e: Event)
    requires Points(f) && IsLocal(f, e) && Step(f.s, e).Next?
    ensures var s' := Step(f.s, e).s;
      && s'.lists == f.s.lists && s'.num == f.s.num && |s'.clients| == |f.s.clients|
      && (s'.repair.Starting? <==> f.s.repair.Starting?)
      && (s'.repair != f.s.repair ==> f.repairAt.Outside?)
      && (forall t :: 0 <= t < |f.at| && !f.at[t].Outside? ==> s'.clients[t] == f.s.clients[t])
  {
  }

  lemma LocalKeepsBooks(f: Fine, g: Fine, e: Event)
    requires FineInv(f) && IsLocal(f, e) && Step(f.s, e).Next? && g == f.(s := Step(f.s, e).s)
    ensures Owners(g) && OwnersExist(g) && Counters(g) && Points(g) && Booting(g)
  {
    LocalShape(f, e);
    forall v: Which, u: Thread | Exists(g, u)
      ensures g.owner.Get(v) == Some(u) <==> LockHeld(g, u) == Some(v)
    {
      assert f.owner.Get(v) == Some(u) <==> LockHeld(f, u) == Some(v);
    }
    forall v: Which
      ensures g.count.Get(v) == |g.s.lists.Get(v)| + SkewOf(g, v)
    {
      assert f.count.Get(v) == |f.s.lists.Get(v)| + SkewOf(f, v);
    }
  }

  lemma LocalRefines(f: Fine, e: Event)
    requires FineInv(f) && FineStep(f, Local(e)) != Disabled
    ensures FineStep(f, Local(e)).Next?
    ensures Refines(f, Local(e), FineStep(f, Local(e)).s)
  {
    StepInv(Abs(f), e);
    assert Step(f.s, e).Next?;
    StepCounted(Abs(f), e);
    LocalKeepsBooks(f, f.(s := Step(f.s, e).s), e);
  }

  /** Every step between two lock operations keeps the invariant, never faults, and is either
  invisible to the protocol or exactly one of its steps. */
  lemma FineStepRefines(f: Fine, e: FineEvent)
    requires FineInv(f)
    ensures FineStep(f, e) != Fault
    ensures FineStep(f, e).Next? ==> Refines(f, e, FineStep(f, e).s)
  {
    if FineStep(f, e) != Disabled {
      match e
      case Lock(th) => LockRefines(f, th);
      case Wait(th) => WaitRefines(f, th);
      case Unlock(th) => UnlockRefines(f, th);
      case ChangeCount(th) => CountRefines(f, th);
      case ChangeList(ClientThread(t)) => ClientListRefines(f, t);
      case ChangeList(RepairThread) => RepairListRefines(f);
      case Local(ev) => LocalRefines(f, ev);
      case ZeroCount => ZeroRefines(f);
      case FillOne => FillOneRefines(f);
      case FillEnd => FillEndRefines(f);
    }
  }

  // ---------------------------------------------------------------- whole runs

  function FineRun(f: Fine, es: seq<FineEvent>): Outcome<Fine>
    decreases |es|
  {
    if es == [] then Next(f)
    else
      match FineStep(f, es[0])
      case Next(g) => FineRun(g, es[1..])
      case Disabled => Disabled
      case Fault => Fault
  }

  ghost predicate FineReachable(f: Fine) {
    exists f0, es :: FineInitial(f0) && FineRun(f0, es) == Next(f)
  }

  /** The protocol steps that a fine run commits, in order. */
  function Committed(f: Fine, es: seq<FineEvent>): seq<Event>
    requires FineRun(f, es).Next?
    decreases |es|
  {
    if es == [] then []
    else
      (if Commits(f, es[0]).Some? then [Commits(f, es[0]).value] else [])
      + Committed(FineStep(f, es[0]).s, es[1..])
  }

  lemma {:induction false} FineRunRefines(f: Fine, es: seq<FineEvent>)
    requires FineInv(f)
    ensures FineRun(f, es) != Fault
    ensures FineRun(f, es).Next? ==>
      FineInv(FineRun(f, es).s) && Run(Abs(f), Committed(f, es)) == Next(Abs(FineRun(f, es).s))
    decreases |es|
  {
    if es != [] {
      FineStepRefines(f, es[0]);
      if FineStep(f, es[0]).Next? {
        var g := FineStep(f, es[0]).s;
        FineRunRefines(g, es[1..]);
        if FineRun(f, es).Next? && Commits(f, es[0]).Some? {
          assert Committed(f, es)[1..] == Committed(g, es[1..]);
        } else if FineRun(f, es).Next? {
          assert Committed(f, es) == Committed(g, es[1..]);
        }
      }
    }
  }

  /** Every interleaving of the threads between their lock operations is, seen through the
  protocol, one run of critical sections executed one after the other. */
  lemma InterleavingsAreProtocolRuns(f0: Fine, es: seq<FineEvent>)
    requires FineInitial(f0)
    ensures FineRun(f0, es) != Fault
    ensures FineRun(f0, es).Next? ==> Run(f0.s, Committed(f0, es)) == Next(Abs(FineRun(f0, es).s))
  {
    FineInitialInv(f0);
    FineRunRefines(f0, es);
    assert Abs(f0) == f0.s;
  }

  lemma FineReachableInv(f: Fine)
    requires FineReachable(f)
    ensures FineInv(f) && Reachable(Abs(f))
  {
    var f0, es :| FineInitial(f0) && FineRun(f0, es) == Next(f);
    FineInitialInv(f0);
    FineRunRefines(f0, es);
    assert Initial(Abs(f0)) && Run(Abs(f0), Committed(f0, es)) == Next(Abs(f));
  }

  /** No thread ever owns two pool locks. */
  lemma OneLockEach(f: Fine, th: Thread, v: Which, w: Which)
    requires FineReachable(f) && f.owner.Get(v) == Some(th) && f.owner.Get(w) == Some(th)
    ensures v == w
  {
    FineReachableInv(f);
    assert Exists(f, th) && LockHeld(f, th) == Some(v) && LockHeld(f, th) == Some(w);
  }

  /** Two threads are never inside sections of the same lock. */
  lemma MutualExclusion(f: Fine, th: Thread, u: Thread)
    requires FineReachable(f) && Exists(f, th) && Exists(f, u)
    requires LockHeld(f, th).Some? && LockHeld(f, th) == LockHeld(f, u)
    ensures th == u
  {
    FineReachableInv(f);
    var w := LockHeld(f, th).value;
    assert f.owner.Get(w) == Some(th) && f.owner.Get(w) == Some(u);
  }

  /** Whenever a lock is free, its counter is the length of its list. */
  lemma CountersAgree(f: Fine, w: Which)
    requires FineReachable(f) && f.owner.Get(w).None?
    ensures f.count.Get(w) == |f.s.lists.Get(w)|
  {
    FineReachableInv(f);
  }

  /** So a thread that has passed its counter test never dequeues from an empty list. */
  lemma GuardMeansNonEmpty(f: Fine, th: Thread)
    requires FineReachable(f) && Exists(f, th) && PointOf(f, th).Entered? && !MustWait(f, th)
    ensures th.ClientThread? && f.s.clients[th.t].Getting? ==> f.s.lists.free != []
    ensures th.RepairThread? && f.s.repair.Watching? ==> f.s.lists.bad != []
  {
    FineReachableInv(f);
    if th.ClientThread? && f.s.clients[th.t].Getting? {
      Inside(f, th, FreeList);
    }
    if th.RepairThread? && f.s.repair.Watching? {
      Inside(f, th, BadList);
    }
  }

  // ---------------------------------------------------------------- no stuck interleaving

  /** es runs from f, and its last step, and no earlier one, need be the one that commits a
  productive step of the protocol. */
  predicate Reaches(f: Fine, es: seq<FineEvent>)
    decreases |es|
  {
    es != [] && FineStep(f, es[0]).Next?
    && if |es| == 1 then Commits(f, es[0]).Some? && Productive(Commits(f, es[0]).value)
       else Reaches(FineStep(f, es[0]).s, es[1..])
  }

  function Weight(at: Section): nat {
    match at
    case Outside => 0
    case Done(_) => 1
    case Half(_, _) => 2
    case Ahead => 3
    case Entered => 4
  }

  function Weights(ats: seq<Section>): nat {
    if ats == [] then 0 else Weight(ats[0]) + Weights(ats[1..])
  }

  lemma {:induction false} WeightsUpdate(ats: seq<Section>, t: nat, at: Section)
    requires t < |ats|
    ensures Weights(ats[t := at]) == Weights(ats) - Weight(ats[t]) + Weight(at)
  {
    if t > 0 {
      assert ats[t := at][1..] == ats[1..][t - 1 := at];
      WeightsUpdate(ats[1..], t - 1, at);
    } else {
      assert ats[t := at][1..] == ats[1..];
    }
  }

  /** How many steps the repair thread still has to take before the pool is filled. */
  function BootLeft(f: Fine): nat {
    if !f.s.repair.Starting? then 0
    else
      var n := f.s.num;
      match (f.boot, f.repairAt)
      case (FillFrom(i), Entered) => 2 * (if i <= n then n - i else 0) + 2
      case (FillFrom(i), Half(_, _)) => 2 * (if i <= n then n - i else 0) + 1
      case (FillFrom(i), Outside) => 2 * (if i <= n then n - i else 0) + 3
      case (FillFrom(i), _) => 2 * (if i <= n then n - i else 0) + 4
      case (Zero(w), at) =>
        2 * n + (match w case BadList => 5 case InuseList => 8 case FreeList => 11)
        + if at.Entered? then 0 else if at.Outside? then 1 else 2
  }

  function Rank(f: Fine): nat {
    Weights(f.at) + Weight(f.repairAt)
  }

  /** Nearer to a productive commit, or there. */
  ghost predicate Nearer(f: Fine, e: FineEvent) {
    FineStep(f, e).Next?
    && var g := FineStep(f, e).s;
      if Commits(f, e).Some? then Productive(Commits(f, e).value)
      else BootLeft(g) < BootLeft(f) || (BootLeft(g) == BootLeft(f) && Rank(g) < Rank(f))
  }

  lemma UnlockNearer(f: Fine, th: Thread)
    requires FineInv(f) && Exists(f, th) && PointOf(f, th).Done?
    ensures Nearer(f, Unlock(th))
  {
    if th.ClientThread? { WeightsUpdate(f.at, th.t, Outside); }
  }

  lemma WaitNearer(f: Fine, th: Thread)
    requires FineInv(f) && Exists(f, th) && PointOf(f, th).Entered? && MustWait(f, th)
    ensures Nearer(f, Wait(th))
  {
    if th.ClientThread? { WeightsUpdate(f.at, th.t, Outside); }
  }

  lemma CountNearer(f: Fine, th: Thread)
    requires FineInv(f) && Exists(f, th)
    requires PointOf(f, th).Half? || (PointOf(f, th).Entered? && th.RepairThread? && f.s.repair.Mended?)
    ensures Nearer(f, ChangeCount(th))
  {
    if th.ClientThread? { WeightsUpdate(f.at, th.t, Done(PointOf(f, th).w)); }
  }

  /** The list operation of a thread that need not wait. */
  function ListEvent(f: Fine, th: Thread): FineEvent {
    if th.ClientThread? || f.s.repair.Watching? then ChangeList(th)
    else if f.boot.Zero? then ZeroCount
    else if f.boot.i < f.s.num then FillOne
    else FillEnd
  }

  lemma AheadNearer(f: Fine, th: Thread)
    requires FineInv(f) && Exists(f, th) && PointOf(f, th).Ahead?
    ensures Nearer(f, ChangeList(th))
  {
    FineStepRefines(f, ChangeList(th));
  }

  lemma ListNearer(f: Fine, th: Thread)
    requires FineInv(f) && Exists(f, th) && PointOf(f, th).Entered? && !MustWait(f, th)
    requires th.RepairThread? ==> !f.s.repair.Mended?
    ensures Nearer(f, ListEvent(f, th))
  {
    FineStepRefines(f, ListEvent(f, th));
  }

  /** A thread inside a section can leave it or commit, and gets nearer to that each time. */
  lemma InsideMoves(f: Fine, th: Thread) returns (e: FineEvent)
    requires FineInv(f) && Exists(f, th) && !PointOf(f, th).Outside?
    ensures Nearer(f, e) && !e.Local?
  {
    match PointOf(f, th)
    case Done(_) =>
      UnlockNearer(f, th);
      e := Unlock(th);
    case Half(_, _) =>
      CountNearer(f, th);
      e := ChangeCount(th);
    case Ahead =>
      AheadNearer(f, th);
      e := ChangeList(th);
    case Entered =>
      if MustWait(f, th) {
        WaitNearer(f, th);
        e := Wait(th);
      } else if th.RepairThread? && f.s.repair.Mended? {
        CountNearer(f, th);
        e := ChangeCount(th);
      } else {
        ListNearer(f, th);
        e := ListEvent(f, th);
      }
  }

  /** The thread whose section commits the protocol step e. */
  function Actor(e: Event): Thread {
    if ByClient(e) then ClientThread(e.t) else RepairThread
  }

  ghost predicate AllOutside(f: Fine) {
    forall th: Thread {:trigger PointOf(f, th)} :: Exists(f, th) ==> PointOf(f, th).Outside?
  }

  lemma OwnerIsInside(f: Fine, w: Which)
    requires Owners(f) && OwnersExist(f)
    ensures f.owner.Get(w).None? || !PointOf(f, f.owner.Get(w).value).Outside?
  {
    assert f.owner.Get(w).None? || LockHeld(f, f.owner.Get(w).value) == Some(w);
  }

  /** With every thread outside, the locks are free. */
  lemma NoOwners(f: Fine, w: Which)
    requires FineInv(f) && AllOutside(f)
    ensures f.owner.Get(w).None? && f.count.Get(w) == |f.s.lists.Get(w)|
  {
    OwnerIsInside(f, w);
  }

  /** Nobody is inside a section, and the pool is filled. */
  ghost predicate Settled(f: Fine) {
    AllOutside(f) && !f.s.repair.Starting?
  }

  /** Until then some thread can go on inside a section, or the repair thread can enter its first. */
  lemma Unsettled(f: Fine) returns (e: FineEvent)
    requires FineInv(f) && !Settled(f)
    ensures Nearer(f, e) && !e.Local?
  {
    if th :| Exists(f, th) && !PointOf(f, th).Outside? {
      e := InsideMoves(f, th);
    } else {
      NoOwners(f, if f.boot.Zero? then f.boot.w else BadList);
      e := Lock(RepairThread);
    }
  }

  lemma ReachesThen(f: Fine, e: FineEvent, es: seq<FineEvent>)
    requires FineStep(f, e).Next? && Reaches(FineStep(f, e).s, es)
    ensures Reaches(f, [e] + es)
  {
    assert ([e] + es)[1..] == es;
  }

  /** With its lock taken, the repair thread puts back what it has mended. */
  lemma PutBack(g: Fine) returns (es: seq<FineEvent>)
    requires FineInv(g) && g.s.repair.Mended? && g.repairAt.Entered?
    ensures Reaches(g, es) && forall x :: x in es ==> !x.Local?
  {
    CountNearer(g, RepairThread);
    FineStepRefines(g, ChangeCount(RepairThread));
    var h := FineStep(g, ChangeCount(RepairThread)).s;
    FineStepRefines(h, ChangeList(RepairThread));
    assert Reaches(h, [ChangeList(RepairThread)]);
    ReachesThen(g, ChangeCount(RepairThread), [ChangeList(RepairThread)]);
    es := [ChangeCount(RepairThread)] + [ChangeList(RepairThread)];
  }

  lemma LockFree(f: Fine, th: Thread)
    requires FineInv(f) && AllOutside(f) && Exists(f, th) && NeedsOf(f, th).Some?
    ensures FineStep(f, Lock(th)).Next? && FineInv(FineStep(f, Lock(th)).s)
    ensures var g := FineStep(f, Lock(th)).s; g.s == f.s && g.boot == f.boot && g.count == f.count
    ensures PointOf(FineStep(f, Lock(th)).s, th).Entered?
  {
    NoOwners(f, NeedsOf(f, th).value);
    FineStepRefines(f, Lock(th));
  }

  lemma ListReaches(g: Fine, th: Thread, e: Event)
    requires FineInv(g) && Exists(g, th) && PointOf(g, th).Entered? && th == Actor(e) && !g.s.repair.Starting?
    requires Productive(e) && Step(g.s, e).Next? && NeedsOf(g, th).Some? && !(th.RepairThread? && g.s.repair.Mended?)
    requires forall w: Which {:trigger g.count.Get(w)} :: g.count.Get(w) == |g.s.lists.Get(w)|
    ensures Reaches(g, [ChangeList(th)])
  {
    assert g.count.Get(FreeList) == |g.s.lists.free| && g.count.Get(BadList) == |g.s.lists.bad|;
    FineStepRefines(g, ChangeList(th));
  }

  /** A step of the protocol that needs a lock can be carried out by taking it and changing the list. */
  lemma CarryOut(f: Fine, e: Event) returns (es: seq<FineEvent>)
    requires FineInv(f) && Settled(f)
    requires Productive(e) && Step(f.s, e).Next? && NeedsOf(f, Actor(e)).Some?
    ensures Reaches(f, es) && forall x :: x in es ==> !x.Local?
  {
    var th := Actor(e);
    assert Exists(f, th) && PointOf(f, th).Outside?;
    forall w: Which
      ensures f.count.Get(w) == |f.s.lists.Get(w)|
    {
      NoOwners(f, w);
    }
    LockFree(f, th);
    var g := FineStep(f, Lock(th)).s;
    if th.RepairThread? && f.s.repair.Mended? {
      es := PutBack(g);
    } else {
      ListReaches(g, th, e);
      es := [ChangeList(th)];
    }
    ReachesThen(f, Lock(th), es);
    es := [Lock(th)] + es;
  }

  /** A step of the protocol that needs no lock can be carried out as it is. */
  lemma LocalReaches(f: Fine, e: Event)
    requires Settled(f) && |f.at| == |f.s.clients|
    requires Productive(e) && Step(f.s, e).Next? && NeedsOf(f, Actor(e)).None?
    ensures Reaches(f, [Local(e)])
  {
    assert PointOf(f, Actor(e)).Outside?;
  }

  lemma SettledGoesOn(f: Fine, t: nat) returns (es: seq<FineEvent>)
    requires FineInv(f) && Settled(f) && Reachable(f.s)
    requires f.s.num >= 1 && t < |f.s.clients| && !f.s.clients[t].Idle?
    ensures InUse(f.s) || Reaches(f, es)
  {
    es := [];
    NeverStuck(f.s, t);
    if !InUse(f.s) {
      var e :| Productive(e) && Step(f.s, e).Next?;
      if NeedsOf(f, Actor(e)).None? {
        LocalReaches(f, e);
        es := [Local(e)];
      } else {
        es := CarryOut(f, e);
      }
    }
  }

  /** From every reachable state in which some client has work to do, some schedule of the
  threads carries out a step of the pool's own code, or some client is using a connection: no
  interleaving leaves the pool stuck by itself. */
  lemma {:induction false} NeverStuckBetweenLocks(f: Fine, t: nat) returns (es: seq<FineEvent>)
    requires FineInv(f) && Reachable(Abs(f)) && f.s.num >= 1 && t < |f.s.clients| && !f.s.clients[t].Idle?
    ensures InUse(f.s) || Reaches(f, es)
    decreases BootLeft(f), Rank(f)
  {
    es := [];
    if Settled(f) {
      es := SettledGoesOn(f, t);
    } else {
      var e := Unsettled(f);
      if Commits(f, e).None? {
        FineStepRefines(f, e);
        var g := FineStep(f, e).s;
        es := NeverStuckBetweenLocks(g, t);
        assert g.s.clients == Abs(g).clients == f.s.clients;
        assert InUse(g.s) ==> InUse(f.s);
      }
      var es' := [e] + es;
      assert es'[1..] == es;
      es := es';
    }
  }

  lemma ReachableNeverStuck(f: Fine, t: nat)
    requires FineReachable(f) && f.s.num >= 1 && t < |f.s.clients| && !f.s.clients[t].Idle?
    ensures InUse(f.s) || exists es :: Reaches(f, es)
  {
    FineReachableInv(f);
    var es := NeverStuckBetweenLocks(f, t);
  }
}
