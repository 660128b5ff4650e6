/** A client session of src/plugins/proto/net.c from the bytes that come in to the answers that
go out: readline, the parsing of a line, the search for a data set, the list that storage builds,
and the down-sampling whose tally lives as long as the session.
 */
module Server {
  import opened Wrappers
  import opened NvList
  import opened LineReader
  import opened Request
  import opened RequestServer
  import opened Linker
  import opened ConfGraph
  import opened Service
  import Sampler

  datatype Reply =
    | Data(points: seq<Sampler.Point>)     // lines 103, then 104
    | Listing(lines: seq<Line>)            // lines 105 and 106, then 107
    | Rejected                             // 200
    | Goodbye                              // 102

  /** The rows that stor_get_ts_data finds: for the n-th call of the session, the data set, the two
  times and the resolution. */
  type Store = (nat, NvDataSet, int, int, int) -> seq<Sampler.Row>

  /** What the session runs on: the data sets with the names of their systems and their own, what
  ENUM lists, and storage. */
  datatype World = World(dsets: seq<NvDataSet>, names: seq<(string, string)>, listing: seq<Line>, store: Store)

  function FirstNamed(names: seq<(string, string)>, system: string, dset: string): (found: Option<nat>)
    ensures found.Some? ==> found.value < |names| && names[found.value] == (system, dset)
  {
    if names == [] then None
    else if names[0] == (system, dset) then Some(0)
    else
      match FirstNamed(names[1..], system, dset)
      case None => None
      case Some(k) => Some(k + 1)
  }

  predicate Known(w: World, r: Request)
    requires r.Fetch?
  {
    FirstNamed(w.names, r.system, r.dset).Some?
  }

  /** What one request does to a session that has made n calls to storage. */
  datatype Reaction =
    | Says(reply: Reply, s: Sampler.Session, n: nat)
    | Ignores
    | Leaves
    | Dies                                 // the division by zero

  function React(w: World, s: Sampler.Session, n: nat, r: Request): Reaction
    requires |w.names| == |w.dsets|
  {
    match r
    case Blank => Ignores
    case Quit => Leaves
    case Enum => Says(Listing(w.listing), s, n)
    case Invalid => Says(Rejected, s, n)
    case Fetch(system, dset, start, end, res) =>
      match FirstNamed(w.names, system, dset)
      case None => Says(Rejected, s, n)
      case Some(k) =>
        match Sampler.Fetch(s, w.store(n, w.dsets[k], start, end, res), res)
        case None => Dies
        case Some(p) => Says(Data(p.out), p.s, n + 1)
  }

  /** All answers of a session, whether it died, and the tally that was left. */
  datatype Log = Log(replies: seq<Reply>, died: bool, tally: real)

  function Cons(reply: Reply, log: Log): Log {
    log.(replies := [reply] + log.replies)
  }

  /** What the server answers to a whole stream. */
  function Answers(w: World, s: Sampler.Session, n: nat, stream: string): Log
    requires |w.names| == |w.dsets|
    decreases |stream|
  {
    if stream == "" then Log([], false, s.tally)
    else
      var piece := Piece(stream, ROOM);
      var rest := stream[|piece|..];
      match React(w, s, n, Serve(piece))
      case Ignores => Answers(w, s, n, rest)
      case Leaves => Log([Goodbye], false, s.tally)
      case Dies => Log([], true, s.tally)
      case Says(reply, s', n') => Cons(reply, Answers(w, s', n', rest))
  }

  // ---------------------------------------------------------------- the program

  /** pgsql_get_ts_data: the rows of a result, appended one by one to a new list. */
  method BuildRows(rows: seq<Sampler.Row>) returns (result: Node<Sampler.Row>, ghost ns: seq<Node<Sampler.Row>>)
    ensures Lists(result, ns, rows) && fresh(Cells(result, ns))
  {
    result := new Node(None);
    ns := [];
    for i := 0 to |rows|
      invariant Lists(result, ns, rows[..i]) && fresh(Cells(result, ns))
    {
      var n := new Node(Some(rows[i]));
      ListAppend(result, n, ns, rows[..i]);
      ns := ns + [n];
      assert rows[..i + 1] == rows[..i] + [rows[i]];
    }
    assert rows[..|rows|] == rows;
  }

  /** The data sets of the configuration are those of the world, under the same names. */
  ghost predicate Depicts(w: World, ds: seq<NvDataSet>)
    reads (set d | d in ds)
  {
    && w.dsets == ds && |w.names| == |ds|
    && (forall k :: 0 <= k < |ds| ==> ds[k].sys != null && w.names[k] == (ds[k].sys.name, ds[k].name))
  }

  lemma {:induction false} FirstNamedIs(names: seq<(string, string)>, system: string, dset: string, k: nat)
    requires k < |names| && names[k] == (system, dset) && forall j :: 0 <= j < k ==> names[j] != (system, dset)
    ensures FirstNamed(names, system, dset) == Some(k)
  {
    if k > 0 {
      FirstNamedIs(names[1..], system, dset, k - 1);
    }
  }

  lemma {:induction false} NoneNamed(names: seq<(string, string)>, system: string, dset: string)
    requires forall j :: 0 <= j < |names| ==> names[j] != (system, dset)
    ensures FirstNamed(names, system, dset) == None
  {
    if names != [] {
      NoneNamed(names[1..], system, dset);
    }
  }

  /** The search of FETCH, by name. */
  method Search(ds: seq<NvDataSet>, system: string, dset: string, ghost w: World) returns (found: NvDataSet?)
    requires Depicts(w, ds)
    ensures var k := FirstNamed(w.names, system, dset);
      if k.None? then found == null else found == w.dsets[k.value]
  {
    found := FindDataSet(ds, system, dset);
    if found == null {
      NoneNamed(w.names, system, dset);
    } else {
      ghost var k :| 0 <= k < |ds| && ds[k] == found && IsFirst(ds, k, system, dset);
      FirstNamedIs(w.names, system, dset, k);
    }
  }

  /** What the program does next: it says something, goes on reading, leaves or dies. */
  datatype Move = Say(reply: Reply) | Skip | Leave | Die

  function MoveOf(a: Reaction): Move {
    match a
    case Says(reply, _, _) => Say(reply)
    case Ignores => Skip
    case Leaves => Leave
    case Dies => Die
  }

  function After(a: Reaction, s: Sampler.Session): Sampler.Session {
    if a.Says? then a.s else s
  }

  /** FETCH: search, call storage, down-sample and send, with the session's own variables. */
  method FetchRequest(session: Sampler.ClientSession, n: nat, r: Request, ds: seq<NvDataSet>, store: Store,
                      ghost w: World)
    returns (move: Move)
    requires r.Fetch? && Depicts(w, ds) && w.store == store
    modifies session
    ensures var a := React(w, old(session.State()), n, r);
      move == MoveOf(a) && session.State() == After(a, old(session.State()))
  {
    var found := Search(ds, r.system, r.dset, w);
    if found == null {
      return Say(Rejected);
    }
    var rows := store(n, found, r.start, r.end, r.res);
    var result, ns := BuildRows(rows);
    var ok, out := session.FetchCommand(result, r.res, ns, rows);
    move := if ok then Say(Data(out)) else Die;
  }

  /** One request of any kind. */
  method Respond(session: Sampler.ClientSession, n: nat, r: Request, ds: seq<NvDataSet>, syss: seq<NvSystem>,
                 store: Store, ghost w: World)
    returns (move: Move)
    requires Depicts(w, ds) && w.store == store && w.listing == EnumLines(syss, ds)
    modifies session
    ensures var a := React(w, old(session.State()), n, r);
      move == MoveOf(a) && session.State() == After(a, old(session.State()))
  {
    match r
    case Blank => move := Skip;
    case Quit => move := Leave;
    case Invalid => move := Say(Rejected);
    case Enum =>
      var lines := ConfGraph.Enum(syss, ds);
      move := Say(Listing(lines));
    case Fetch(_, _, _, _, _) => move := FetchRequest(session, n, r, ds, store, w);
  }

  /** Storage has been called once more when points were sent. */
  function Calls(move: Move, n: nat): nat {
    if move.Say? && move.reply.Data? then n + 1 else n
  }

  lemma ReactCalls(w: World, s: Sampler.Session, n: nat, r: Request)
    requires |w.names| == |w.dsets|
    ensures var a := React(w, s, n, r); a.Says? ==> a.n == Calls(MoveOf(a), n)
  {
  }

  /** What is still to come after some answers. */
  ghost predicate Joins(done: seq<Reply>, rest: Log, all: Log) {
    all == rest.(replies := done + rest.replies)
  }

  lemma JoinsSay(done: seq<Reply>, reply: Reply, rest: Log, all: Log)
    requires Joins(done, Cons(reply, rest), all)
    ensures Joins(done + [reply], rest, all)
  {
    assert done + ([reply] + rest.replies) == done + [reply] + rest.replies;
  }

  /** One turn of the main loop: a line, and what the program does about it. */
  method Turn(reader: Reader, buf: array<char>, session: Sampler.ClientSession, n: nat, ds: seq<NvDataSet>,
              syss: seq<NvSystem>, store: Store, ghost w: World)
    returns (more: bool, move: Move)
    requires reader.Valid() && buf != reader.buf && buf.Length == BUF_LEN
    requires Depicts(w, ds) && w.store == store && w.listing == EnumLines(syss, ds)
    modifies reader, reader.buf, buf, session
    ensures reader.Valid() && Depicts(w, ds) && w.listing == EnumLines(syss, ds)
    ensures more <==> old(reader.pending) != ""
    ensures !more ==> session.State() == old(session.State())
    ensures more ==> |reader.pending| < |old(reader.pending)|
    ensures more ==>
      Goes(w, old(session.State()), n, old(reader.pending), move, session.State(), reader.pending)
  {
    move := Skip;
    var r;
    more, r := Receive(reader, buf);
    if more {
      move := Respond(session, n, r, ds, syss, store, w);
    }
  }

  /** The first line of the stream makes this move, and leaves s' and rest. */
  ghost predicate Goes(w: World, s: Sampler.Session, n: nat, stream: string, move: Move, s': Sampler.Session,
                       rest: string)
    requires |w.names| == |w.dsets|
  {
    && stream != "" && rest == stream[|Piece(stream, ROOM)|..]
    && var a := React(w, s, n, Serve(Piece(stream, ROOM))); move == MoveOf(a) && s' == After(a, s)
  }

  lemma AnswersGo(w: World, s: Sampler.Session, n: nat, stream: string, move: Move, s': Sampler.Session, rest: string)
    requires |w.names| == |w.dsets| && Goes(w, s, n, stream, move, s', rest)
    ensures var log := Answers(w, s, n, stream);
      match move
      case Say(reply) => log == Cons(reply, Answers(w, s', Calls(move, n), rest))
      case Skip => s' == s && log == Answers(w, s, n, rest)
      case Leave => s' == s && log == Log([Goodbye], false, s.tally)
      case Die => s' == s && log == Log([], true, s.tally)
  {
    ReactCalls(w, s, n, Serve(Piece(stream, ROOM)));
  }

  /** How a session that has answered with replies, and called storage n times, goes on. */
  ghost predicate OnTheWay(w: World, s: Sampler.Session, n: nat, rest: string, replies: seq<Reply>, all: Log)
    requires |w.names| == |w.dsets|
  {
    Joins(replies, Answers(w, s, n, rest), all)
  }

  /** What a move adds to the replies. */
  function Replied(replies: seq<Reply>, move: Move): seq<Reply> {
    match move
    case Say(reply) => replies + [reply]
    case Leave => replies + [Goodbye]
    case _ => replies
  }

  lemma GoOn(w: World, s: Sampler.Session, n: nat, stream: string, move: Move, s': Sampler.Session, rest: string,
             replies: seq<Reply>, all: Log)
    requires |w.names| == |w.dsets| && OnTheWay(w, s, n, stream, replies, all)
    requires Goes(w, s, n, stream, move, s', rest)
    ensures move.Say? || move.Skip? ==> OnTheWay(w, s', Calls(move, n), rest, Replied(replies, move), all)
    ensures move.Leave? || move.Die? ==> all == Log(Replied(replies, move), move.Die?, s'.tally)
  {
    AnswersGo(w, s, n, stream, move, s', rest);
    if move.Say? {
      JoinsSay(replies, move.reply, Answers(w, s', Calls(move, n), rest), all);
    }
  }

  lemma AtEnd(w: World, s: Sampler.Session, n: nat, replies: seq<Reply>, all: Log)
    requires |w.names| == |w.dsets| && OnTheWay(w, s, n, "", replies, all)
    ensures all == Log(replies, false, s.tally)
  {
    assert replies + [] == replies;
  }

  /** The main loop: what goes out is what the stream of bytes calls for. */
  method ServeClient(reader: Reader, buf: array<char>, session: Sampler.ClientSession, ds: seq<NvDataSet>,
                     syss: seq<NvSystem>, store: Store, ghost w: World)
    returns (replies: seq<Reply>, died: bool)
    requires reader.Valid() && buf != reader.buf && buf.Length == BUF_LEN
    requires Depicts(w, ds) && w.store == store && w.listing == EnumLines(syss, ds)
    modifies reader, reader.buf, buf, session
    ensures Log(replies, died, session.tally) == Answers(w, old(session.State()), 0, old(reader.pending))
  {
    replies, died := [], false;
    var n: nat := 0;
    ghost var all := Answers(w, session.State(), 0, reader.pending);
    while true
      invariant reader.Valid() && Depicts(w, ds) && w.listing == EnumLines(syss, ds)
      invariant !died && OnTheWay(w, session.State(), n, reader.pending, replies, all)
      decreases |reader.pending|
    {
      ghost var s, stream := session.State(), reader.pending;
      var more, move := Turn(reader, buf, session, n, ds, syss, store, w);
      if !more {
        AtEnd(w, s, n, replies, all);
        break;
      }
      GoOn(w, s, n, stream, move, session.State(), reader.pending, replies, all);
      replies, n, died := Replied(replies, move), Calls(move, n), move.Die?;
      if move.Leave? || move.Die? {
        break;
      }
    }
  }

  // ---------------------------------------------------------------- a reply for every request

  /** The reply is of the kind that the request calls for. */
  predicate Suits(w: World, r: Request, reply: Reply) {
    match r
    case Quit => reply == Goodbye
    case Enum => reply == Listing(w.listing)
    case Fetch(_, _, _, _, _) => if Known(w, r) then reply.Data? else reply == Rejected
    case _ => reply == Rejected
  }

  ghost predicate SuitAll(w: World, rs: seq<Request>, replies: seq<Reply>) {
    |replies| <= |rs| && forall k :: 0 <= k < |replies| ==> Suits(w, rs[k], replies[k])
  }

  /** Every request has its reply, or the session died on the first that has none. */
  ghost predicate Replies(w: World, rs: seq<Request>, log: Log) {
    && SuitAll(w, rs, log.replies)
    && (!log.died ==> |log.replies| == |rs|)
    && (log.died ==> |log.replies| < |rs| && rs[|log.replies|].Fetch? && Known(w, rs[|log.replies|]))
  }

  lemma RepliesFirst(w: World, r: Request, reply: Reply, rs: seq<Request>, log: Log)
    requires Suits(w, r, reply) && Replies(w, rs, log) && r != Quit && r != Blank
    ensures Replies(w, Then(r, rs), Cons(reply, log))
  {
  }

  lemma ReactSuits(w: World, s: Sampler.Session, n: nat, r: Request)
    requires |w.names| == |w.dsets|
    ensures var a := React(w, s, n, r);
      && (a.Ignores? <==> r == Blank) && (a.Leaves? <==> r == Quit)
      && (a.Dies? ==> r.Fetch? && Known(w, r)) && (a.Says? ==> Suits(w, r, a.reply))
  {
  }

  /** Each request of a session gets one reply of its kind, in order, until the client quits or
  hangs up; only a FETCH of a known data set can end the session before. */
  lemma {:induction false} OneReplyEach(w: World, s: Sampler.Session, n: nat, stream: string)
    requires |w.names| == |w.dsets|
    ensures Replies(w, Session(stream), Answers(w, s, n, stream))
    decreases |stream|
  {
    if stream != "" {
      var piece := Piece(stream, ROOM);
      var r, rest := Serve(piece), stream[|piece|..];
      SessionUnfold(stream);
      ReactSuits(w, s, n, r);
      match React(w, s, n, r)
      case Says(reply, s', n') =>
        OneReplyEach(w, s', n', rest);
        RepliesFirst(w, r, reply, Session(rest), Answers(w, s', n', rest));
      case Ignores => OneReplyEach(w, s, n, rest);
      case _ =>
    }
  }

  // ---------------------------------------------------------------- conservation over a session

  /** The sum of all points sent. */
  function SumSent(replies: seq<Reply>): real {
    if replies == [] then 0.0
    else (if replies[0].Data? then Sampler.SumPoints(replies[0].points) else 0.0) + SumSent(replies[1..])
  }

  /** The sum of all rows that storage gave to the requests that were answered. */
  function SumRead(w: World, s: Sampler.Session, n: nat, stream: string): real
    requires |w.names| == |w.dsets|
    decreases |stream|
  {
    if stream == "" then 0.0
    else
      var piece := Piece(stream, ROOM);
      var r := Serve(piece);
      match React(w, s, n, r)
      case Ignores => SumRead(w, s, n, stream[|piece|..])
      case Says(reply, s', n') =>
        (if reply.Data? then Sampler.SumRows(RowsFor(w, n, r)) else 0.0) + SumRead(w, s', n', stream[|piece|..])
      case _ => 0.0
  }

  /** What storage gives to this request. */
  function RowsFor(w: World, n: nat, r: Request): seq<Sampler.Row>
    requires |w.names| == |w.dsets|
  {
    if r.Fetch? && Known(w, r)
    then w.store(n, w.dsets[FirstNamed(w.names, r.system, r.dset).value], r.start, r.end, r.res)
    else []
  }

  lemma ReactConserves(w: World, s: Sampler.Session, n: nat, r: Request)
    requires |w.names| == |w.dsets| && React(w, s, n, r).Says?
    ensures var a := React(w, s, n, r);
      if a.reply.Data? then Sampler.SumPoints(a.reply.points) + a.s.tally == s.tally + Sampler.SumRows(RowsFor(w, n, r))
      else a.s == s
  {
    if React(w, s, n, r).reply.Data? {
      var rows := RowsFor(w, n, r);
      Sampler.FeedConserves(Sampler.Progress(Sampler.Plan(s, rows, r.res).value, 1, []), rows);
    }
  }

  /** Over every session, whatever bytes arrive, the points sent and the tally that is left add up
  to the rows that storage gave: nothing is counted twice and nothing is dropped. */
  lemma {:induction false} BytesConserve(w: World, s: Sampler.Session, n: nat, stream: string)
    requires |w.names| == |w.dsets|
    ensures var log := Answers(w, s, n, stream);
      SumSent(log.replies) + log.tally == s.tally + SumRead(w, s, n, stream)
    decreases |stream|
  {
    if stream != "" {
      var piece := Piece(stream, ROOM);
      var r, rest := Serve(piece), stream[|piece|..];
      match React(w, s, n, r)
      case Says(reply, s', n') =>
        BytesConserve(w, s', n', rest);
        ReactConserves(w, s, n, r);
        SumSentCons(reply, Answers(w, s', n', rest).replies);
      case Ignores => BytesConserve(w, s, n, rest);
      case Leaves => SumSentCons(Goodbye, []);
      case Dies =>
    }
  }

  lemma SumSentCons(reply: Reply, replies: seq<Reply>)
    ensures SumSent([reply] + replies)
         == (if reply.Data? then Sampler.SumPoints(reply.points) else 0.0) + SumSent(replies)
  {
    assert ([reply] + replies)[1..] == replies;
  }

  // ---------------------------------------------------------------- when a session dies

  /** What storage gives to the FETCH requests of known data sets, in order, from call n on. */
  function StorageCalls(w: World, n: nat, rs: seq<Request>): seq<Sampler.Request>
    requires |w.names| == |w.dsets|
    decreases |rs|
  {
    if rs == [] then []
    else if rs[0].Fetch? && Known(w, rs[0]) then
      [Sampler.Request(RowsFor(w, n, rs[0]), rs[0].res)] + StorageCalls(w, n + 1, rs[1..])
    else StorageCalls(w, n, rs[1..])
  }

  ghost predicate SomeTrap(calls: seq<Sampler.Request>) {
    exists i :: 0 <= i < |calls| && Sampler.Traps(calls[i].rows, calls[i].res)
  }

  lemma SomeTrapCons(call: Sampler.Request, calls: seq<Sampler.Request>)
    ensures SomeTrap([call] + calls) <==> Sampler.Traps(call.rows, call.res) || SomeTrap(calls)
  {
    var all := [call] + calls;
    assert all[0] == call && forall i :: 1 <= i < |all| ==> all[i] == calls[i - 1];
    if i :| 0 <= i < |calls| && Sampler.Traps(calls[i].rows, calls[i].res) {
      assert all[i + 1] == calls[i];
    }
  }

  /** One request's part in it. */
  lemma CallsFirst(w: World, s: Sampler.Session, n: nat, r: Request, rs: seq<Request>)
    requires |w.names| == |w.dsets| && r != Quit
    ensures var calls := StorageCalls(w, n, Then(r, rs));
      match React(w, s, n, r)
      case Says(_, _, n') => SomeTrap(calls) <==> SomeTrap(StorageCalls(w, n', rs))
      case Ignores => calls == StorageCalls(w, n, rs)
      case _ => SomeTrap(calls)
  {
    if r != Blank {
      assert ([r] + rs)[1..] == rs;
      if r.Fetch? && Known(w, r) {
        var rows := RowsFor(w, n, r);
        Sampler.FetchTraps(s, rows, r.res);
        SomeTrapCons(Sampler.Request(rows, r.res), StorageCalls(w, n + 1, rs));
      }
    }
  }

  /** The bytes of a client end the process exactly if storage answers one of their requests with
  rows that trap. */
  lemma {:induction false} DiesExactly(w: World, s: Sampler.Session, n: nat, stream: string)
    requires |w.names| == |w.dsets|
    ensures Answers(w, s, n, stream).died <==> SomeTrap(StorageCalls(w, n, Session(stream)))
    decreases |stream|
  {
    if stream != "" {
      var piece := Piece(stream, ROOM);
      var r, rest := Serve(piece), stream[|piece|..];
      SessionUnfold(stream);
      ReactSuits(w, s, n, r);
      if r == Quit {
        assert [Quit][1..] == [];
      } else {
        CallsFirst(w, s, n, r, Session(rest));
      }
      match React(w, s, n, r)
      case Says(_, s', n') => DiesExactly(w, s', n', rest);
      case Ignores => DiesExactly(w, s, n, rest);
      case _ =>
    }
  }

  // ---------------------------------------------------------------- the points of a session

  /** The points of each answered FETCH, in order. */
  function PointsSent(replies: seq<Reply>): seq<seq<Sampler.Point>> {
    if replies == [] then []
    else (if replies[0].Data? then [replies[0].points] else []) + PointsSent(replies[1..])
  }

  lemma PointsCons(reply: Reply, replies: seq<Reply>)
    ensures PointsSent([reply] + replies) == (if reply.Data? then [reply.points] else []) + PointsSent(replies)
  {
    assert ([reply] + replies)[1..] == replies;
  }

  /** One request's part in them. */
  lemma SendsFirst(w: World, s: Sampler.Session, n: nat, r: Request, rs: seq<Request>)
    requires |w.names| == |w.dsets| && r != Quit
    ensures var sends := Sampler.Sends(s, StorageCalls(w, n, Then(r, rs)));
      match React(w, s, n, r)
      case Says(reply, s', n') =>
        sends == (if reply.Data? then [reply.points] else []) + Sampler.Sends(s', StorageCalls(w, n', rs))
      case Ignores => sends == Sampler.Sends(s, StorageCalls(w, n, rs))
      case _ => sends == []
  {
    if r != Blank {
      assert ([r] + rs)[1..] == rs;
      if r.Fetch? && Known(w, r) {
        var call := Sampler.Request(RowsFor(w, n, r), r.res);
        assert ([call] + StorageCalls(w, n + 1, rs))[1..] == StorageCalls(w, n + 1, rs);
      }
    }
  }

  /** The points that go out are those of the session of storage's answers. */
  lemma {:induction false} PointsAreSends(w: World, s: Sampler.Session, n: nat, stream: string)
    requires |w.names| == |w.dsets|
    ensures PointsSent(Answers(w, s, n, stream).replies) == Sampler.Sends(s, StorageCalls(w, n, Session(stream)))
    decreases |stream|
  {
    if stream != "" {
      var piece := Piece(stream, ROOM);
      var r, rest := Serve(piece), stream[|piece|..];
      SessionUnfold(stream);
      ReactSuits(w, s, n, r);
      if r == Quit {
        PointsCons(Goodbye, []);
        assert [Quit][1..] == [];
      } else {
        SendsFirst(w, s, n, r, Session(rest));
      }
      match React(w, s, n, r)
      case Says(reply, s', n') =>
        PointsAreSends(w, s', n', rest);
        PointsCons(reply, Answers(w, s', n', rest).replies);
      case Ignores => PointsAreSends(w, s, n, rest);
      case _ =>
    }
  }

  /** From the bytes of a client to its points: the i-th FETCH of a known data set, unless it or one
  before it divides by zero, is answered with the buckets of the rows that storage gives for it, by
  the plan of the last FETCH of two rows or more, and with what the ones before it have left. */
  lemma BytesToPoints(w: World, stream: string, i: nat)
    requires |w.names| == |w.dsets| && i < |StorageCalls(w, 0, Session(stream))|
    ensures var calls := StorageCalls(w, 0, Session(stream));
      var sent := PointsSent(Answers(w, Sampler.NEW_SESSION, 0, stream).replies);
      && (i < |sent| <==> Sampler.NoTraps(calls, i + 1))
      && (i < |sent| ==> sent[i] == Sampler.LastPoints(calls[..i + 1]))
  {
    PointsAreSends(w, Sampler.NEW_SESSION, 0, stream);
    Sampler.SessionPoints(StorageCalls(w, 0, Session(stream)), i);
  }

  // ---------------------------------------------------------------- the client's side

  /** How the calls of a client end: in full if the data set is known, refused otherwise. */
  function EndsOf(w: World, rs: seq<Request>): (ends: seq<Ending>)
    requires AllGood(rs)
    ensures |ends| == |rs| && forall k :: 0 <= k < |rs| ==> ends[k] == if Known(w, rs[k]) then Complete else Refused
  {
    seq(|rs|, k requires 0 <= k < |rs| => if Known(w, rs[k]) then Complete else Refused)
  }

  lemma {:induction false} SeenShape(rs: seq<Request>, ends: seq<Ending>, k: nat)
    requires |rs| == |ends| && k < |SeenOf(rs, ends)|
    ensures k < |rs| && (SeenOf(rs, ends)[k] == rs[k] || SeenOf(rs, ends)[k] == Quit)
  {
    if k > 0 && ends[0].Refused? {
      SeenShape(rs[1..], ends[1..], k - 1);
    }
  }

  /** A client that calls getData again and again on one connection: a call gets its points if
  and only if its data set is known and no earlier call's was; and what the client's program
  takes for the end of each served call is what the server sent. */
  lemma OneFullAnswer(w: World, s: Sampler.Session, n: nat, rs: seq<Request>, k: nat)
    requires |w.names| == |w.dsets| && AllGood(rs) && k < |rs|
    requires !Answers(w, s, n, SentBy(rs, EndsOf(w, rs))).died
    ensures var replies := Answers(w, s, n, SentBy(rs, EndsOf(w, rs))).replies;
      && ((k < |replies| && replies[k].Data?) <==> Known(w, rs[k]) && forall j :: 0 <= j < k ==> !Known(w, rs[j]))
      && (k < |replies| && replies[k] != Goodbye ==> (replies[k].Data? <==> EndsOf(w, rs)[k] == Complete))
  {
    var ends := EndsOf(w, rs);
    OneReplyEach(w, s, n, SentBy(rs, ends));
    SessionOfCalls(rs, ends);
    SeenCall(rs, ends, k);
    if k < |SeenOf(rs, ends)| {
      SeenShape(rs, ends, k);
    }
    assert (forall j :: 0 <= j < k ==> ends[j].Refused?) <==> forall j :: 0 <= j < k ==> !Known(w, rs[j]);
  }
}
