/** What each storage operation of src/plugins/storage/pgsql.c does, told from its history on the
pool: which connections it gets, which statements are answered on them, and when it gives back.
 */
module StorageHistory {
  import opened Wrappers
  import opened PoolProtocol
  import opened StorageOps

  /** One deed of an operation.  `good` is what PQstatus says of the connection after the answer. */
  datatype Deed =
    | Gets(c: Id)
    | Asks(c: Id, st: Statement, good: bool, failed: bool, rows: nat)
    | Gives(c: Id)

  // ---------------------------------------------------------------- what a history should be

  /** The history without the attempts at a statement that found their connection BAD: each of
  them got a connection, asked on it, and gave it back. */
  function Retried(st: Statement, ds: seq<Deed>): (r: seq<Deed>)
    ensures |r| <= |ds|
  {
    if |ds| >= 3 && ds[0].Gets? && ds[1].Asks? && ds[1].st == st && !ds[1].good
       && ds[2].Gives? && ds[0].c == ds[1].c == ds[2].c
    then Retried(st, ds[3..]) else ds
  }

  /** A connection is got and this statement is answered on it while it is good. */
  predicate Answered(st: Statement, ds: seq<Deed>) {
    |ds| >= 3 && ds[0].Gets? && ds[1].Asks? && ds[1].c == ds[0].c && ds[1].st == st && ds[1].good
  }

  /** The connection is given back, and that is all. */
  predicate Ends(ds: seq<Deed>, c: Id) {
    ds == [Gives(c)]
  }

  /** The table is created on the same connection, whatever comes of it. */
  predicate Creates(ds: seq<Deed>, c: Id) {
    |ds| == 2 && ds[0].Asks? && ds[0].c == c && ds[0].st == CreateTable && ds[1] == Gives(c)
  }

  /** One more statement, on a connection got for it. */
  predicate Stores(st: Statement, ds: seq<Deed>) {
    var r := Retried(st, ds);
    Answered(st, r) && Ends(r[2..], r[0].c)
  }

  /** The whole history of an operation: its first statement until it is answered on a good
  connection; after that an update of the time gives the connection back, and inserts the row if
  there was none and changes it otherwise; and a table that was not found is created. */
  predicate Whole(op: Operation, ds: seq<Deed>) {
    var r := Retried(First(op), ds);
    && Answered(First(op), r)
    && var c, last := r[0].c, r[2..];
      if r[1].failed then Ends(last, c)
      else
        match op
        case StoreTime => last[0] == Gives(c) && Stores(if r[1].rows == 0 then InsertTime else UpdateTime, last[1..])
        case InitTable => if r[1].rows == 0 then Creates(last, c) else Ends(last, c)
        case _ => Ends(last, c)
  }

  // ---------------------------------------------------------------- the history of a run

  /** What thread t does in an action: it is seen from what becomes of its connection. */
  function DeedOf(b: Busy, a: Action, t: nat): seq<Deed>
    requires Act(b, a).Next?
  {
    match a
    case Pooled(PutInuse(u)) => if u == t && Carried(b.s.clients[t]) then [Gets(b.s.clients[t].c)] else []
    case Call(u, reply) =>
      if u != t then []
      else
        var c, pc := b.s.clients[t].c, b.work[t].pc;
        if Act(b, a).s.s.clients[t] == b.s.clients[t]
        then [Asks(c, if pc.AtQuery? then pc.st else CreateTable, c in b.s.ok, reply.failed, reply.rows)]
        else [Gives(c)]
    case _ => []
  }

  function Deeds(b: Busy, xs: seq<Action>, t: nat): seq<Deed>
    requires Acts(b, xs).Next?
    decreases |xs|
  {
    if xs == [] then [] else DeedOf(b, xs[0], t) + Deeds(Act(b, xs[0]).s, xs[1..], t)
  }

  /** Where an operation is, and the connection it has. */
  datatype Place = Place(pc: Pc, held: Option<Id>)

  function PlaceOf(b: Busy, t: nat): Place
    requires t < |b.work| && b.work[t].Doing? && t < |b.s.clients|
  {
    Place(b.work[t].pc, if Calls(b.work[t]) && Carried(b.s.clients[t]) then Some(b.s.clients[t].c) else None)
  }

  function After(op: Operation, p: Place, d: Deed): Option<Place> {
    match d
    case Gets(c) =>
      if p.pc.AtGet? && p.held.None? then Some(Place(AtQuery(p.pc.st), Some(c))) else None
    case Asks(c, st, good, failed, rows) =>
      if p.held == Some(c) && IsQuery(p.pc) && st == (if p.pc.AtQuery? then p.pc.st else CreateTable)
      then Some(Place(NextCall(op, p.pc, Answer(!good, failed, rows)), Some(c))) else None
    case Gives(c) =>
      if p.held == Some(c) && IsRelease(p.pc)
      then Some(Place(NextCall(op, p.pc, Answer(false, false, 0)), None)) else None
  }

  function AfterAll(op: Operation, p: Place, ds: seq<Deed>): Option<Place>
    decreases |ds|
  {
    if ds == [] then Some(p)
    else
      match After(op, p, ds[0])
      case None => None
      case Some(q) => AfterAll(op, q, ds[1..])
  }

  // ---------------------------------------------------------------- runs follow the program

  lemma CallPlace(b: Busy, t: nat, reply: Reply)
    requires AllFit(b) && t < |b.work| && b.work[t].Doing? && Act(b, Call(t, reply)).Next?
    ensures var b' := Act(b, Call(t, reply)).s;
      && t < |b'.work| == |b'.s.clients| && b'.work[t].Doing? && b'.work[t].op == b.work[t].op
      && |DeedOf(b, Call(t, reply), t)| == 1
      && After(b.work[t].op, PlaceOf(b, t), DeedOf(b, Call(t, reply), t)[0]) == Some(PlaceOf(b', t))
  {
    assert Fits(b.s.clients[t], b.work[t]);
  }

  lemma PooledPlace(b: Busy, e: Event, t: nat)
    requires AllFit(b) && t < |b.work| && b.work[t].Doing? && Act(b, Pooled(e)).Next?
    ensures var b' := Act(b, Pooled(e)).s;
      && t < |b'.work| == |b'.s.clients| && b'.work[t].Doing? && b'.work[t].op == b.work[t].op
      && (if DeedOf(b, Pooled(e), t) == [] then PlaceOf(b', t) == PlaceOf(b, t)
          else |DeedOf(b, Pooled(e), t)| == 1
               && After(b.work[t].op, PlaceOf(b, t), DeedOf(b, Pooled(e), t)[0]) == Some(PlaceOf(b', t)))
  {
    assert Fits(b.s.clients[t], b.work[t]);
  }

  lemma AfterOne(op: Operation, p: Place, d: Deed)
    ensures AfterAll(op, p, [d]) == After(op, p, d) && AfterAll(op, p, []) == Some(p)
  {
    assert [d][1..] == [];
  }

  lemma StepPlace(b: Busy, a: Action, t: nat)
    requires AllFit(b) && t < |b.work| && b.work[t].Doing? && Act(b, a).Next? && a != End(t)
    ensures var b' := Act(b, a).s;
      && t < |b'.work| == |b'.s.clients| && b'.work[t].Doing? && b'.work[t].op == b.work[t].op
      && AfterAll(b.work[t].op, PlaceOf(b, t), DeedOf(b, a, t)) == Some(PlaceOf(b', t))
  {
    if DeedOf(b, a, t) != [] { AfterOne(b.work[t].op, PlaceOf(b, t), DeedOf(b, a, t)[0]); }
    match a
    case Pooled(e) => PooledPlace(b, e, t);
    case Call(u, reply) => if u == t { CallPlace(b, t, reply); }
    case _ =>
  }

  lemma {:induction false} AfterAllConcat(op: Operation, p: Place, xs: seq<Deed>, ys: seq<Deed>)
    ensures AfterAll(op, p, xs + ys) == match AfterAll(op, p, xs) case None => None case Some(q) => AfterAll(op, q, ys)
    decreases |xs|
  {
    if xs == [] {
      assert xs + ys == ys;
    } else {
      assert (xs + ys)[1..] == xs[1..] + ys;
      match After(op, p, xs[0])
      case None =>
      case Some(q) => AfterAllConcat(op, q, xs[1..], ys);
    }
  }

  /** Wherever its operation is, a thread has come there by its deeds. */
  lemma {:induction false} RunPlace(b: Busy, xs: seq<Action>, t: nat)
    requires Together(b) && t < |b.work| && b.work[t].Doing? && Acts(b, xs).Next? && End(t) !in xs
    ensures var b' := Acts(b, xs).s;
      && Together(b') && t < |b'.work| && b'.work[t].Doing? && b'.work[t].op == b.work[t].op
      && AfterAll(b.work[t].op, PlaceOf(b, t), Deeds(b, xs, t)) == Some(PlaceOf(b', t))
    decreases |xs|
  {
    if xs != [] {
      ActKeeps(b, xs[0]);
      StepPlace(b, xs[0], t);
      var b1 := Act(b, xs[0]).s;
      RunPlace(b1, xs[1..], t);
      AfterAllConcat(b.work[t].op, PlaceOf(b, t), DeedOf(b, xs[0], t), Deeds(b1, xs[1..], t));
    }
  }

  // ---------------------------------------------------------------- the program makes whole histories

  const ENDED := Some(Place(AtEnd, None))

  function Begun(st: Statement): Place {
    Place(AtGet(st), None)
  }

  lemma TwoDeeds(op: Operation, p: Place, ds: seq<Deed>)
    requires AfterAll(op, p, ds) == ENDED && p.pc.AtGet?
    ensures |ds| >= 3 && ds[0].Gets? && ds[1].Asks? && ds[1].c == ds[0].c && ds[1].st == p.pc.st
    ensures var pc := NextCall(op, AtQuery(p.pc.st), Answer(!ds[1].good, ds[1].failed, ds[1].rows));
      AfterAll(op, Place(pc, Some(ds[0].c)), ds[2..]) == ENDED
  {
    var q := After(op, p, ds[0]).value;
    assert AfterAll(op, q, ds[1..]) == ENDED && ds[1..] != [] && ds[1..][0] == ds[1];
    assert ds[1..][1..] == ds[2..];
    assert AfterAll(op, After(op, q, ds[1]).value, ds[2..]) == ENDED;
  }

  lemma {:induction false} RetriedEnds(op: Operation, st: Statement, ds: seq<Deed>)
    requires AfterAll(op, Begun(st), ds) == ENDED
    ensures Answered(st, Retried(st, ds)) && AfterAll(op, Begun(st), Retried(st, ds)) == ENDED
    decreases |ds|
  {
    TwoDeeds(op, Begun(st), ds);
    if !ds[1].good {
      assert ds[2..][0] == ds[2] && ds[2..][1..] == ds[3..];
      RetriedEnds(op, st, ds[3..]);
    }
  }

  lemma CleanupEnds(op: Operation, c: Id, ds: seq<Deed>)
    requires AfterAll(op, Place(AtCleanup, Some(c)), ds) == ENDED
    ensures Ends(ds, c)
  {
    assert AfterAll(op, Place(AtEnd, None), ds[1..]) == ENDED;
    assert ds[1..] == [];
  }

  lemma CreateEnds(op: Operation, c: Id, ds: seq<Deed>)
    requires AfterAll(op, Place(AtCreate, Some(c)), ds) == ENDED
    ensures Creates(ds, c)
  {
    CleanupEnds(op, c, ds[1..]);
  }

  /** The second phase of an update of the time. */
  lemma StoresEnds(st: Statement, ds: seq<Deed>)
    requires AfterAll(StoreTime, Begun(st), ds) == ENDED && Late(st)
    ensures Stores(st, ds)
  {
    RetriedEnds(StoreTime, st, ds);
    var r := Retried(st, ds);
    TwoDeeds(StoreTime, Begun(st), r);
    CleanupEnds(StoreTime, r[0].c, r[2..]);
  }

  lemma SwitchEnds(st: Statement, c: Id, ds: seq<Deed>)
    requires AfterAll(StoreTime, Place(AtSwitch(st), Some(c)), ds) == ENDED && Late(st)
    ensures ds != [] && ds[0] == Gives(c) && Stores(st, ds[1..])
  {
    StoresEnds(st, ds[1..]);
  }

  lemma WholeEnds(op: Operation, ds: seq<Deed>)
    requires AfterAll(op, Begun(First(op)), ds) == ENDED
    ensures Whole(op, ds)
  {
    RetriedEnds(op, First(op), ds);
    var r := Retried(First(op), ds);
    TwoDeeds(op, Begun(First(op)), r);
    var c, last := r[0].c, r[2..];
    if r[1].failed {
      CleanupEnds(op, c, last);
    } else if op == StoreTime {
      SwitchEnds(if r[1].rows == 0 then InsertTime else UpdateTime, c, last);
    } else if op == InitTable && r[1].rows == 0 {
      CreateEnds(op, c, last);
    } else {
      CleanupEnds(op, c, last);
    }
  }

  /** In every run, whatever the other threads do and the database answers, an operation that
  begins and comes to its end has a whole history. */
  lemma OperationIsWhole(b: Busy, t: nat, op: Operation, xs: seq<Action>)
    requires BusyReachable(b) && Act(b, Begin(t, op)).Next? && End(t) !in xs
    requires var b1 := Act(b, Begin(t, op)).s; Acts(b1, xs).Next? && Act(Acts(b1, xs).s, End(t)).Next?
    ensures Whole(op, Deeds(Act(b, Begin(t, op)).s, xs, t))
  {
    AlwaysAgree(b);
    ActKeeps(b, Begin(t, op));
    var b1 := Act(b, Begin(t, op)).s;
    RunPlace(b1, xs, t);
    WholeEnds(op, Deeds(b1, xs, t));
  }

  // ---------------------------------------------------------------- when nothing goes wrong

  predicate Smooth(ds: seq<Deed>) {
    forall i :: 0 <= i < |ds| && ds[i].Asks? ==> ds[i].good && !ds[i].failed
  }

  /** A statement answered on a good connection that is then given back. */
  function Plain(c: Id, st: Statement, rows: nat): seq<Deed> {
    [Gets(c), Asks(c, st, true, false, rows), Gives(c)]
  }

  /** When every query is answered on a good connection and succeeds: an update of the time has two,
  each on a connection got for it; a table that is not found takes two on one; and everything else
  has one. */
  lemma SmoothHistories(op: Operation, ds: seq<Deed>)
    requires Whole(op, ds) && Smooth(ds)
    ensures |ds| >= 3 && ds[0].Gets? && ds[1].Asks?
    ensures var c, rows := ds[0].c, ds[1].rows;
      match op
      case StoreTime =>
        && |ds| == 6 && ds[..3] == Plain(c, SelectTime, rows) && ds[3].Gets? && ds[4].Asks?
        && ds[3..] == Plain(ds[3].c, if rows == 0 then InsertTime else UpdateTime, ds[4].rows)
      case InitTable =>
        if rows == 0 then
          && |ds| == 4 && ds[..2] == Plain(c, FindTable, 0)[..2] && ds[2].Asks? && ds[2].st == CreateTable
          && ds[2].c == c && ds[3] == Gives(c)
        else ds == Plain(c, FindTable, rows)
      case GetData => ds == Plain(c, SelectRows, rows)
      case LoadTime => ds == Plain(c, SelectTime, rows)
      case AddRow => ds == Plain(c, InsertRow, rows)
  {
    SmoothStart(First(op), ds);
    if op == StoreTime {
      assert ds[2..][1..] == ds[3..];
      SmoothStart(if ds[1].rows == 0 then InsertTime else UpdateTime, ds[3..]);
    }
  }

  lemma SmoothStart(st: Statement, ds: seq<Deed>)
    requires Answered(st, Retried(st, ds)) && (forall i :: 0 <= i < |ds| && ds[i].Asks? ==> ds[i].good)
    ensures Retried(st, ds) == ds
  {
  }
}
