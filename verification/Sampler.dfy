/** The down-sampling loop of a FETCH request, src/plugins/proto/net.c, client_thread.

`skip`, `skipt`, `tally` and `midtime` belong to the client session and outlive the
request; only the row counter starts afresh.  Values are exact reals, and the seconds of a
resolution and the spacing of two rows are ints that wrap around.
 */
module Sampler {
  import opened CInts
  import opened Wrappers
  import opened NvList

  datatype Row = Row(time: int, value: real)

  /** One line sent to the client: the time picked and the sum of the bucket. */
  datatype Point = Point(time: int, sum: real)

  /** The variables of client_thread that survive from one request to the next. */
  datatype Session = Session(skip: int, skipt: int, tally: real, midtime: int)

  const NEW_SESSION := Session(0, 0, 0.0, 0)

  /** `res*60`, an int. */
  function Seconds(res: int): int {
    ToInt(res * 60)
  }

  /** `d2->time-d1->time`, assigned to an int, for the first two rows. */
  function Spacing(rows: seq<Row>): int
    requires |rows| >= 2
  {
    ToInt(rows[1].time - rows[0].time)
  }

  /** Rows per reported point; None is the division by zero that ends the process. */
  function PlanSkip(seconds: int, diff: int): Option<int> {
    if seconds <= diff then Some(1)
    else if diff == 0 then None
    else Some(CDiv(seconds, diff))
  }

  /** Which row of a bucket lends its time. */
  function PlanSkipT(skip: int): int {
    if skip == 1 || skip == 2 then 1 else CDiv(skip, 2) + 1
  }

  /** The plan is made anew only for two rows or more. */
  function Plan(s: Session, rows: seq<Row>, res: int): Option<Session> {
    if |rows| < 2 then Some(s)
    else
      match PlanSkip(Seconds(res), Spacing(rows))
      case None => None
      case Some(k) => Some(s.(skip := k, skipt := PlanSkipT(k)))
  }

  /** What the loop has done after some rows. */
  datatype Progress = Progress(s: Session, cnt: int, out: seq<Point>)

  function OneRow(p: Progress, d: Row): Progress {
    var tally := p.s.tally + d.value;
    var midtime := if p.cnt == p.s.skipt then d.time else p.s.midtime;
    if p.cnt == p.s.skip
    then Progress(p.s.(tally := 0.0, midtime := midtime), 1, p.out + [Point(midtime, tally)])
    else Progress(p.s.(tally := tally, midtime := midtime), p.cnt + 1, p.out)
  }

  function Feed(p: Progress, rows: seq<Row>): Progress
    decreases |rows|
  {
    if rows == [] then p else Feed(OneRow(p, rows[0]), rows[1..])
  }

  /** One FETCH: plan, then feed every row. */
  function Fetch(s: Session, rows: seq<Row>, res: int): Option<Progress> {
    match Plan(s, rows, res)
    case None => None
    case Some(s') => Some(Feed(Progress(s', 1, []), rows))
  }

  function SumRows(rows: seq<Row>): real {
    if rows == [] then 0.0 else rows[0].value + SumRows(rows[1..])
  }

  function SumPoints(ps: seq<Point>): real {
    if ps == [] then 0.0 else ps[0].sum + SumPoints(ps[1..])
  }

  lemma {:induction false} FeedMore(p: Progress, rows: seq<Row>, d: Row)
    ensures Feed(p, rows + [d]) == OneRow(Feed(p, rows), d)
    decreases |rows|
  {
    if rows == [] {
      assert Feed(OneRow(p, d), []) == OneRow(p, d) && (rows + [d])[1..] == [];
    } else {
      assert (rows + [d])[1..] == rows[1..] + [d];
      FeedMore(OneRow(p, rows[0]), rows[1..], d);
    }
  }

  lemma {:induction false} FeedConcat(p: Progress, xs: seq<Row>, ys: seq<Row>)
    ensures Feed(p, xs + ys) == Feed(Feed(p, xs), ys)
    decreases |xs|
  {
    if xs == [] {
      assert xs + ys == ys;
    } else {
      assert (xs + ys)[1..] == xs[1..] + ys;
      FeedConcat(OneRow(p, xs[0]), xs[1..], ys);
    }
  }

  // ---------------------------------------------------------------- conservation

  lemma {:induction false} SumPointsMore(ps: seq<Point>, q: Point)
    ensures SumPoints(ps + [q]) == SumPoints(ps) + q.sum
  {
    if ps == [] {
      assert ps + [q] == [q];
    } else {
      assert (ps + [q])[1..] == ps[1..] + [q];
      SumPointsMore(ps[1..], q);
    }
  }

  /** Whatever the plan, what has been reported and what is still in the tally add up to
  what has been read. */
  lemma {:induction false} FeedConserves(p: Progress, rows: seq<Row>)
    ensures SumPoints(Feed(p, rows).out) + Feed(p, rows).s.tally == SumPoints(p.out) + p.s.tally + SumRows(rows)
    decreases |rows|
  {
    if rows != [] {
      var q := OneRow(p, rows[0]);
      if p.cnt == p.s.skip {
        SumPointsMore(p.out, q.out[|p.out|]);
      }
      FeedConserves(q, rows[1..]);
    }
  }

  datatype Request = Request(rows: seq<Row>, res: int)

  /** A whole session: the requests one after the other, all points reported so far. */
  function Serve(p: Progress, requests: seq<Request>): Option<Progress>
    decreases |requests|
  {
    if requests == [] then Some(p)
    else
      match Plan(p.s, requests[0].rows, requests[0].res)
      case None => None
      case Some(s) => Serve(Feed(p.(s := s, cnt := 1), requests[0].rows), requests[1..])
  }

  function SumRequests(requests: seq<Request>): real {
    if requests == [] then 0.0 else SumRows(requests[0].rows) + SumRequests(requests[1..])
  }

  /** At every row of every request of a session, reported sums plus the tally equal the sum
  of all rows read since the session began. */
  lemma {:induction false} SessionConserves(p: Progress, done: seq<Request>, res: int, rows: seq<Row>)
    requires Serve(p, done).Some? && Plan(Serve(p, done).value.s, rows, res).Some?
    ensures forall n :: 0 <= n <= |rows| ==>
      var q := Serve(p, done).value;
      var now := Feed(q.(s := Plan(q.s, rows, res).value, cnt := 1), rows[..n]);
      SumPoints(now.out) + now.s.tally == SumPoints(p.out) + p.s.tally + SumRequests(done) + SumRows(rows[..n])
    decreases |done|
  {
    if done == [] {
      forall n | 0 <= n <= |rows| {
        FeedConserves(p.(s := Plan(p.s, rows, res).value, cnt := 1), rows[..n]);
      }
    } else {
      var s := Plan(p.s, done[0].rows, done[0].res).value;
      FeedConserves(p.(s := s, cnt := 1), done[0].rows);
      SessionConserves(Feed(p.(s := s, cnt := 1), done[0].rows), done[1..], res, rows);
    }
  }

  // ---------------------------------------------------------------- buckets

  /** Fewer rows than the bucket still needs: nothing is reported. */
  lemma {:induction false} BucketOpen(p: Progress, rows: seq<Row>)
    requires 1 <= p.cnt && p.cnt + |rows| <= p.s.skip
    ensures var q := Feed(p, rows);
      q.out == p.out && q.s.tally == p.s.tally + SumRows(rows) && q.cnt == p.cnt + |rows|
      && q.s.skip == p.s.skip && q.s.skipt == p.s.skipt
    decreases |rows|
  {
    if rows != [] { BucketOpen(OneRow(p, rows[0]), rows[1..]); }
  }

  /** The rows that fill the bucket report its sum, at the time of row skipt of the bucket. */
  lemma {:induction false} BucketCloses(p: Progress, rows: seq<Row>)
    requires 1 <= p.cnt && |rows| >= 1 && p.cnt + |rows| == p.s.skip + 1
    requires 1 <= p.s.skipt <= p.s.skip
    ensures var q := Feed(p, rows);
      var time := if p.cnt <= p.s.skipt then rows[p.s.skipt - p.cnt].time else p.s.midtime;
      q == Progress(p.s.(tally := 0.0, midtime := time), 1, p.out + [Point(time, p.s.tally + SumRows(rows))])
    decreases |rows|
  {
    var p' := OneRow(p, rows[0]);
    if |rows| == 1 {
      assert rows[1..] == [];
      assert SumRows(rows) == rows[0].value;
    } else {
      BucketCloses(p', rows[1..]);
    }
  }

  /** The points of consecutive buckets of k rows, the first one on top of tally t0. */
  function BucketPoints(rows: seq<Row>, k: int, skipt: int, t0: real): seq<Point>
    requires 1 <= skipt <= k
    decreases |rows|
  {
    if |rows| < k then []
    else [Point(rows[skipt - 1].time, t0 + SumRows(rows[..k]))] + BucketPoints(rows[k..], k, skipt, 0.0)
  }

  /** What the last, unreported bucket leaves in the tally. */
  function BucketRest(rows: seq<Row>, k: int, t0: real): real
    requires 1 <= k
    decreases |rows|
  {
    if |rows| < k then t0 + SumRows(rows) else BucketRest(rows[k..], k, 0.0)
  }

  /** The loop with its three counters is bucketing. */
  lemma {:induction false} FeedIsBucketing(p: Progress, rows: seq<Row>)
    requires p.cnt == 1 && 1 <= p.s.skipt <= p.s.skip
    ensures var q := Feed(p, rows);
      && q.out == p.out + BucketPoints(rows, p.s.skip, p.s.skipt, p.s.tally)
      && q.s.tally == BucketRest(rows, p.s.skip, p.s.tally)
      && q.s.skip == p.s.skip && q.s.skipt == p.s.skipt
    decreases |rows|
  {
    var k := p.s.skip;
    if |rows| < k {
      BucketOpen(p, rows);
    } else {
      BucketCloses(p, rows[..k]);
      var q := Feed(p, rows[..k]);
      FeedIsBucketing(q, rows[k..]);
      assert rows == rows[..k] + rows[k..];
      FeedConcat(p, rows[..k], rows[k..]);
    }
  }

  lemma MulAtMostZero(q: int, b: int)
    requires q <= 0 && b > 0
    ensures q * b <= 0
  {
  }

  lemma MulAtLeast(q: int, b: int)
    requires q >= 1 && b > 0
    ensures q * b >= b
  {
  }

  lemma DivUnique(n: int, k: int, q: int, r: int)
    requires k > 0 && n == q * k + r && 0 <= r < k
    ensures n / k == q
    ensures n >= 0 ==> q >= 0
  {
    var d := n / k - q;
    assert n == n / k * k + n % k;
    assert d * k == r - n % k;
    if d >= 1 { MulAtLeast(d, k); }
    if d <= -1 { MulAtLeast(-d, k); }
    if q <= -1 { MulAtLeast(-q, k); }
  }

  lemma TakeOneMultiple(n: int, k: int)
    requires k >= 1
    ensures (n - k) / k == n / k - 1
    ensures 0 <= n < k ==> n / k == 0
    ensures n >= k ==> n / k >= 1
  {
    var q, r := n / k, n % k;
    assert n == q * k + r;
    assert (q - 1) * k == q * k - k;
    DivUnique(n - k, k, q - 1, r);
    if 0 <= n < k { DivUnique(n, k, 0, n); }
    if q <= 0 { MulAtMostZero(q, k); }
  }

  /** j buckets of k rows come before bucket j. */
  function Start(j: int, k: int): int { j * k }

  lemma StartNext(j: int, k: int)
    ensures Start(j + 1, k) == Start(j, k) + k
  {
  }

  lemma StartInRange(n: int, k: int, j: int)
    requires k >= 1 && 0 <= j < n / k
    ensures 0 <= Start(j, k) && Start(j, k) + k <= n
  {
    var q, r := n / k, n % k;
    assert n == q * k + r;
    MulMonotone(j + 1, q, k);
    MulMonotone(0, j, k);
    StartNext(j, k);
  }

  lemma MulMonotone(a: int, b: int, k: int)
    requires a <= b && k >= 0
    ensures a * k <= b * k
  {
    assert b * k == a * k + (b - a) * k;
    if b > a && k > 0 {
      MulAtLeast(b - a, k);
    }
  }

  /** The point of the k rows from row a on, on top of tally t. */
  function Bucket(rows: seq<Row>, k: int, skipt: int, a: int, t: real): Point
    requires 1 <= skipt <= k && 0 <= a && a + k <= |rows|
  {
    Point(rows[a + skipt - 1].time, SumRows(rows[a..a + k]) + t)
  }

  lemma BucketShift(rows: seq<Row>, k: int, skipt: int, a: int, t: real)
    requires 1 <= skipt <= k && 0 <= a && a + k + k <= |rows|
    ensures Bucket(rows[k..], k, skipt, a, t) == Bucket(rows, k, skipt, a + k, t)
  {
    assert rows[k..][a..a + k] == rows[a + k..a + k + k];
  }

  /** floor(n / k) points; point j has the sum of rows jk, ..., jk + k - 1 and the time of
  row jk + skipt - 1 of the same bucket; the carried tally goes to the first. */
  lemma {:induction false} BucketPointAt(rows: seq<Row>, k: int, skipt: int, t0: real, j: int)
    requires 1 <= skipt <= k
    ensures |BucketPoints(rows, k, skipt, t0)| == |rows| / k
    ensures 0 <= j < |rows| / k ==>
      && 0 <= Start(j, k) && Start(j, k) + k <= |rows|
      && BucketPoints(rows, k, skipt, t0)[j] == Bucket(rows, k, skipt, Start(j, k), if j == 0 then t0 else 0.0)
    decreases |rows|
  {
    TakeOneMultiple(|rows|, k);
    if |rows| >= k {
      BucketPointAt(rows[k..], k, skipt, 0.0, j - 1);
      if 0 < j < |rows| / k {
        StartInRange(|rows|, k, j);
        StartNext(j - 1, k);
        BucketShift(rows, k, skipt, Start(j - 1, k), 0.0);
      } else if j == 0 {
        FirstBucket(rows, k, skipt, t0);
      }
    }
  }

  lemma FirstBucket(rows: seq<Row>, k: int, skipt: int, t0: real)
    requires 1 <= skipt <= k <= |rows|
    ensures Start(0, k) == 0 && BucketPoints(rows, k, skipt, t0)[0] == Bucket(rows, k, skipt, 0, t0)
  {
    assert rows[0..0 + k] == rows[..k];
  }

  /** The tally carried out: the unreported tail, and the tally carried in if nothing was reported. */
  lemma {:induction false} BucketRestIs(rows: seq<Row>, k: int, t0: real)
    requires 1 <= k
    ensures 0 <= Start(|rows| / k, k) <= |rows|
    ensures BucketRest(rows, k, t0) == SumRows(rows[Start(|rows| / k, k)..]) + if |rows| < k then t0 else 0.0
    decreases |rows|
  {
    TakeOneMultiple(|rows|, k);
    if |rows| < k {
      assert Start(0, k) == 0 && rows[0..] == rows;
    } else {
      BucketRestIs(rows[k..], k, 0.0);
      StartNext(|rows| / k - 1, k);
      assert rows[k..][Start(|rows| / k - 1, k)..] == rows[Start(|rows| / k, k)..];
    }
  }

  /** With no plan yet, or a plan below one, nothing is ever reported. */
  lemma {:induction false} NoPlanNoReport(p: Progress, rows: seq<Row>)
    requires p.s.skip < 1 <= p.cnt
    ensures Feed(p, rows).out == p.out
    ensures Feed(p, rows).s.skip == p.s.skip && Feed(p, rows).s.skipt == p.s.skipt
    decreases |rows|
  {
    if rows != [] { NoPlanNoReport(OneRow(p, rows[0]), rows[1..]); }
  }

  // ---------------------------------------------------------------- resolution

  lemma DivBounds(a: int, b: int)
    requires b > 0
    ensures a / b * b <= a < a / b * b + b
  {
    assert a == a / b * b + a % b;
  }

  /** The plan asks for one row or more exactly when the rows move forward, or the request is
  at most their spacing; for less than one when they go back and the request is more than
  that; and there is no plan, but a division by zero, when they stand still and some time is
  asked for. */
  lemma PlanPositive(seconds: int, diff: int)
    ensures (PlanSkip(seconds, diff).Some? && PlanSkip(seconds, diff).value >= 1) <==> (seconds <= diff || diff > 0)
    ensures (PlanSkip(seconds, diff).Some? && PlanSkip(seconds, diff).value < 1) <==> (seconds > diff && diff < 0)
    ensures PlanSkip(seconds, diff).None? <==> diff == 0 && seconds > 0
  {
    if seconds > diff {
      if diff > 0 {
        DivBounds(seconds, diff);
        if seconds / diff <= 0 { MulAtMostZero(seconds / diff, diff); }
      } else if diff < 0 {
        if seconds >= 0 {
          DivUnique(seconds, -diff, seconds / -diff, seconds % -diff);
        } else {
          DivBounds(-seconds, -diff);
          if -seconds / -diff >= 1 { MulAtLeast(-seconds / -diff, -diff); }
        }
      }
    }
  }

  /** For rows that move forward: every row when the request is at least as fine as the data,
  otherwise the largest number of rows that fits the requested time, and more than half of it. */
  lemma PlanIsLargest(seconds: int, diff: int)
    requires diff > 0
    ensures PlanSkip(seconds, diff).Some?
    ensures var k := PlanSkip(seconds, diff).value;
      && k >= 1
      && (seconds < diff ==> k == 1)
      && (seconds >= diff ==> k * diff <= seconds < k * diff + diff)
      && (seconds >= diff ==> seconds < k * diff + k * diff)
  {
    PlanPositive(seconds, diff);
    var k := PlanSkip(seconds, diff).value;
    if seconds > diff { DivBounds(seconds, diff); }
    MulAtLeast(k, diff);
  }

  /** The largest resolution whose seconds fit an int. */
  const RES_MAX: int := 35_791_394

  /** The resolution is taken for what it says exactly within these bounds. */
  lemma SecondsAre(res: int)
    ensures Seconds(res) == 60 * res <==> -RES_MAX <= res <= RES_MAX
  {
  }

  /** The rows and the resolution that end the process. */
  predicate Traps(rows: seq<Row>, res: int) {
    |rows| >= 2 && Spacing(rows) == 0 && Seconds(res) > 0
  }

  /** For times that are ints and a resolution within bounds: two first rows at the same time,
  and a minute or more. */
  lemma TrapsMeans(rows: seq<Row>, res: int)
    requires |rows| >= 2 && IsInt(rows[0].time) && IsInt(rows[1].time)
    ensures Spacing(rows) == 0 <==> rows[1].time == rows[0].time
    ensures -RES_MAX <= res <= RES_MAX ==> (Traps(rows, res) <==> rows[1].time == rows[0].time && res >= 1)
  {
    SecondsAre(res);
    ZeroSpacing(rows[1].time - rows[0].time);
  }

  lemma ZeroSpacing(n: int)
    requires -0x1_0000_0000 < n < 0x1_0000_0000
    ensures ToInt(n) == 0 <==> n == 0
  {
  }

  /** A FETCH divides by zero exactly on those rows at those resolutions. */
  lemma FetchTraps(s: Session, rows: seq<Row>, res: int)
    ensures Fetch(s, rows, res).None? <==> Traps(rows, res)
  {
    if |rows| >= 2 {
      PlanPositive(Seconds(res), Spacing(rows));
    }
  }

  /** One minute traps on two such rows.  Past the bounds it is the other way about: a negative
  resolution traps and a positive one does not. */
  lemma FetchTrapsOnce()
    ensures Fetch(NEW_SESSION, [Row(0, 1.0), Row(0, 2.0)], 1).None?
    ensures Fetch(NEW_SESSION, [Row(0, 1.0), Row(0, 2.0)], -RES_MAX - 1).None?
    ensures Fetch(NEW_SESSION, [Row(0, 1.0), Row(0, 2.0)], RES_MAX + 1).Some?
  {
    var rows := [Row(0, 1.0), Row(0, 2.0)];
    FetchTraps(NEW_SESSION, rows, 1);
    FetchTraps(NEW_SESSION, rows, -RES_MAX - 1);
    FetchTraps(NEW_SESSION, rows, RES_MAX + 1);
  }

  /** A session survives exactly if none of its requests does that. */
  lemma {:induction false} SessionTraps(p: Progress, requests: seq<Request>)
    ensures Serve(p, requests).None? <==>
      exists i :: 0 <= i < |requests| && Traps(requests[i].rows, requests[i].res)
    decreases |requests|
  {
    if requests != [] {
      var first := requests[0];
      FetchTraps(p.s, first.rows, first.res);
      if !Traps(first.rows, first.res) {
        SessionTraps(Feed(p.(s := Plan(p.s, first.rows, first.res).value, cnt := 1), first.rows), requests[1..]);
        assert forall i :: 1 <= i < |requests| ==> requests[i] == requests[1..][i - 1];
      }
    }
  }

  lemma SkipTInBucket(k: int)
    requires k >= 1
    ensures 1 <= PlanSkipT(k) <= k
  {
  }

  /** The request gets a plan of one row or more. */
  predicate Planned(rows: seq<Row>, res: int) {
    |rows| >= 2 && (Seconds(res) <= Spacing(rows) || Spacing(rows) > 0)
  }

  function SkipFor(rows: seq<Row>, res: int): (k: int)
    requires Planned(rows, res)
    ensures k >= 1 && 1 <= PlanSkipT(k) <= k
  {
    PlanPositive(Seconds(res), Spacing(rows));
    SkipTInBucket(PlanSkip(Seconds(res), Spacing(rows)).value);
    PlanSkip(Seconds(res), Spacing(rows)).value
  }

  /** Two rows that move forward by what an int can hold do so at any resolution. */
  lemma ForwardIsPlanned(rows: seq<Row>, res: int)
    requires |rows| >= 2 && 0 < rows[1].time - rows[0].time <= INT_MAX
    ensures Planned(rows, res) && Spacing(rows) == rows[1].time - rows[0].time
  {
  }

  lemma FetchIsBucketing(s: Session, rows: seq<Row>, res: int)
    requires Planned(rows, res)
    ensures Fetch(s, rows, res).Some?
    ensures var q := Fetch(s, rows, res).value;
      var k := SkipFor(rows, res);
      && q.out == BucketPoints(rows, k, PlanSkipT(k), s.tally)
      && q.s.tally == BucketRest(rows, k, s.tally)
  {
    PlanPositive(Seconds(res), Spacing(rows));
    FeedIsBucketing(Progress(Plan(s, rows, res).value, 1, []), rows);
  }

  /** How many rows of a bucket of k stand before the one that lends its time, and how many after. */
  predicate InMiddle(before: int, after: int, k: int) {
    before + 1 + after == k && (if k <= 2 then before == 0 else 0 <= before - after <= 1)
  }

  lemma SkipTIsMiddle(k: int)
    requires k >= 1
    ensures InMiddle(PlanSkipT(k) - 1, k - PlanSkipT(k), k)
  {
  }

  /** The number of rows in a bucket: one if the request is no coarser than the spacing of the rows,
  and otherwise as many spacings as fit the seconds asked for. */
  lemma SkipForFits(rows: seq<Row>, res: int)
    requires Planned(rows, res)
    ensures Seconds(res) <= Spacing(rows) ==> SkipFor(rows, res) == 1
    ensures Seconds(res) > Spacing(rows) ==>
      var k, diff := SkipFor(rows, res), Spacing(rows); k * diff <= Seconds(res) < k * diff + diff
  {
    if Seconds(res) > Spacing(rows) { PlanIsLargest(Seconds(res), Spacing(rows)); }
  }

  /** A FETCH that gets a plan of one row or more reports each full bucket once: its sum, at the
  time of its middle row, and of the later one of two middle rows if there are more than two. */
  lemma FetchReports(s: Session, rows: seq<Row>, res: int, j: int)
    requires Planned(rows, res)
    ensures Fetch(s, rows, res).Some?
    ensures var q := Fetch(s, rows, res).value;
      var k := SkipFor(rows, res);
      && |q.out| == |rows| / k
      && InMiddle(PlanSkipT(k) - 1, k - PlanSkipT(k), k)
      && (0 <= j < |rows| / k ==>
            && 0 <= Start(j, k) && Start(j, k) + k <= |rows|
            && q.out[j] == Bucket(rows, k, PlanSkipT(k), Start(j, k), if j == 0 then s.tally else 0.0))
      && 0 <= Start(|rows| / k, k) <= |rows|
      && q.s.tally == SumRows(rows[Start(|rows| / k, k)..]) + if |rows| < k then s.tally else 0.0
  {
    FetchIsBucketing(s, rows, res);
    var k := SkipFor(rows, res);
    SkipTIsMiddle(k);
    BucketPointAt(rows, k, PlanSkipT(k), s.tally, j);
    BucketRestIs(rows, k, s.tally);
  }

  /** And one that gets a smaller plan reports nothing. */
  lemma FetchReportsNothing(s: Session, rows: seq<Row>, res: int)
    requires |rows| >= 2 && Spacing(rows) < 0 && Seconds(res) > Spacing(rows)
    ensures Fetch(s, rows, res).Some? && Fetch(s, rows, res).value.out == []
  {
    PlanPositive(Seconds(res), Spacing(rows));
    NoPlanNoReport(Progress(Plan(s, rows, res).value, 1, []), rows);
  }

  /** Evenly spaced rows give evenly spaced points, k rows apart, and at a resolution coarser
  than the data that is more than half of the time asked for and never more than all. */
  lemma EvenlySpacedPoints(s: Session, rows: seq<Row>, res: int, diff: int, j: int)
    requires |rows| >= 2 && 0 < diff <= INT_MAX
    requires forall i :: 0 <= i < |rows| - 1 ==> rows[i + 1].time - rows[i].time == diff
    ensures Planned(rows, res) && Fetch(s, rows, res).Some?
    ensures var q := Fetch(s, rows, res).value;
      0 <= j && j + 1 < |q.out| ==>
        var gap := q.out[j + 1].time - q.out[j].time;
        && gap == SkipFor(rows, res) * diff
        && (Seconds(res) >= diff ==> gap <= Seconds(res) < gap + gap)
  {
    assert rows[0 + 1].time - rows[0].time == diff;
    ForwardIsPlanned(rows, res);
    PlanIsLargest(Seconds(res), diff);
    var k := SkipFor(rows, res);
    ReportedTime(s, rows, res, j);
    ReportedTime(s, rows, res, j + 1);
    if 0 <= j && j + 1 < |rows| / k {
      StartNext(j, k);
      EvenGap(rows, diff, Start(j, k) + PlanSkipT(k) - 1, k);
    }
  }

  /** For evenly spaced rows the time of a point is within half a spacing of the middle of the
  times of its bucket. */
  lemma EvenlySpacedTimes(s: Session, rows: seq<Row>, res: int, diff: int, j: int)
    requires |rows| >= 2 && 0 < diff <= INT_MAX
    requires forall i :: 0 <= i < |rows| - 1 ==> rows[i + 1].time - rows[i].time == diff
    ensures Planned(rows, res) && Fetch(s, rows, res).Some?
    ensures var k := SkipFor(rows, res);
      0 <= j < |Fetch(s, rows, res).value.out| ==>
        && 0 <= Start(j, k) && Start(j, k) + k <= |rows|
        && var first, last := rows[Start(j, k)].time, rows[Start(j, k) + k - 1].time;
           -diff <= 2 * Fetch(s, rows, res).value.out[j].time - (first + last) <= diff
  {
    assert rows[0 + 1].time - rows[0].time == diff;
    ForwardIsPlanned(rows, res);
    FetchReports(s, rows, res, j);
    var k := SkipFor(rows, res);
    if 0 <= j < |rows| / k {
      var a, before, after := Start(j, k), PlanSkipT(k) - 1, k - PlanSkipT(k);
      EvenGap(rows, diff, a, before);
      EvenGap(rows, diff, a + before, after);
      MiddleGap(before, after, k, diff);
    }
  }

  lemma MiddleGap(before: int, after: int, k: int, diff: int)
    requires InMiddle(before, after, k) && k >= 1 && diff > 0
    ensures -diff <= before * diff - after * diff <= diff
  {
    assert before - after == -1 || before - after == 0 || before - after == 1;
    assert before * diff - after * diff == (before - after) * diff;
  }

  /** Which row lends its time to point j. */
  lemma ReportedTime(s: Session, rows: seq<Row>, res: int, j: int)
    requires Planned(rows, res)
    ensures Fetch(s, rows, res).Some?
    ensures var k := SkipFor(rows, res);
      && |Fetch(s, rows, res).value.out| == |rows| / k
      && (0 <= j < |rows| / k ==>
            && 0 <= Start(j, k) + PlanSkipT(k) - 1 < |rows|
            && Fetch(s, rows, res).value.out[j].time == rows[Start(j, k) + PlanSkipT(k) - 1].time)
  {
    FetchReports(s, rows, res, j);
  }

  lemma {:induction false} EvenGap(rows: seq<Row>, diff: int, i: nat, k: nat)
    requires forall i :: 0 <= i < |rows| - 1 ==> rows[i + 1].time - rows[i].time == diff
    requires i + k < |rows|
    ensures rows[i + k].time - rows[i].time == k * diff
  {
    if k > 0 {
      EvenGap(rows, diff, i, k - 1);
      assert rows[(i + k - 1) + 1].time - rows[i + k - 1].time == diff;
      assert k * diff == (k - 1) * diff + diff;
    }
  }

  // ---------------------------------------------------------------- every FETCH of a session

  /** The plan that holds after some requests: that of the last one with two rows or more. */
  function LastPlan(done: seq<Request>): (p: (int, int))
    ensures p.0 >= 1 ==> 1 <= p.1 <= p.0
  {
    if done == [] then (0, 0)
    else
      var last := done[|done| - 1];
      if |last.rows| < 2 || Traps(last.rows, last.res) then LastPlan(done[..|done| - 1])
      else
        var k := PlanSkip(Seconds(last.res), Spacing(last.rows)).value;
        (k, PlanSkipT(k))
  }

  /** What some requests leave in the tally: the rows behind the last full bucket of the last one,
  with what it was given if it filled none. */
  function Carried(done: seq<Request>): real {
    if done == [] then 0.0
    else
      var last, before := done[|done| - 1], Carried(done[..|done| - 1]);
      var k := LastPlan(done).0;
      if k >= 1 then BucketRest(last.rows, k, before) else before + SumRows(last.rows)
  }

  /** The points of the last of some requests: the consecutive buckets of its rows by the plan that
  holds, the first on top of what the requests before have left; none without a plan. */
  function LastPoints(done: seq<Request>): seq<Point>
    requires done != []
  {
    var (k, skipt) := LastPlan(done);
    if k >= 1 then BucketPoints(done[|done| - 1].rows, k, skipt, Carried(done[..|done| - 1])) else []
  }

  /** What a session sends from here on, request by request, until one traps. */
  function Sends(s: Session, requests: seq<Request>): seq<seq<Point>>
    decreases |requests|
  {
    if requests == [] then []
    else
      match Fetch(s, requests[0].rows, requests[0].res)
      case None => []
      case Some(p) => [p.out] + Sends(p.s, requests[1..])
  }

  predicate Stands(s: Session, done: seq<Request>) {
    s.skip == LastPlan(done).0 && s.skipt == LastPlan(done).1 && s.tally == Carried(done)
  }

  lemma LastNext(done: seq<Request>, r: Request)
    ensures Carried(done + [r]) ==
      var k := LastPlan(done + [r]).0;
      if k >= 1 then BucketRest(r.rows, k, Carried(done)) else Carried(done) + SumRows(r.rows)
    ensures LastPoints(done + [r]) ==
      var (k, skipt) := LastPlan(done + [r]);
      if k >= 1 then BucketPoints(r.rows, k, skipt, Carried(done)) else []
  {
    assert (done + [r])[..|done|] == done && (done + [r])[|done|] == r;
  }

  lemma PlanStands(s: Session, done: seq<Request>, r: Request)
    requires Stands(s, done) && !Traps(r.rows, r.res)
    ensures Plan(s, r.rows, r.res).Some?
    ensures var s' := Plan(s, r.rows, r.res).value;
      s' == s.(skip := LastPlan(done + [r]).0, skipt := LastPlan(done + [r]).1)
  {
    assert (done + [r])[..|done|] == done && (done + [r])[|done|] == r;
    if |r.rows| >= 2 { PlanPositive(Seconds(r.res), Spacing(r.rows)); }
  }

  lemma FetchStands(s: Session, done: seq<Request>, r: Request)
    requires Stands(s, done) && !Traps(r.rows, r.res)
    ensures Fetch(s, r.rows, r.res).Some?
    ensures var p := Fetch(s, r.rows, r.res).value;
      p.out == LastPoints(done + [r]) && Stands(p.s, done + [r])
  {
    PlanStands(s, done, r);
    LastNext(done, r);
    var start := Progress(Plan(s, r.rows, r.res).value, 1, []);
    if start.s.skip >= 1 {
      FeedIsBucketing(start, r.rows);
      assert [] + LastPoints(done + [r]) == LastPoints(done + [r]);
    } else {
      NoPlanNoReport(start, r.rows);
      FeedConserves(start, r.rows);
    }
  }

  /** None of the first n requests traps. */
  predicate NoTraps(requests: seq<Request>, n: nat)
    requires n <= |requests|
  {
    forall j :: 0 <= j < n ==> !Traps(requests[j].rows, requests[j].res)
  }

  lemma NoTrapsRest(requests: seq<Request>, n: nat)
    requires 0 < n <= |requests| && NoTraps(requests, n)
    ensures !Traps(requests[0].rows, requests[0].res) && NoTraps(requests[1..], n - 1)
  {
    assert forall j :: 0 <= j < n - 1 ==> requests[1..][j] == requests[j + 1];
  }

  /** The session's variables when n requests have been answered. */
  function Before(s: Session, requests: seq<Request>, n: nat): Session
    requires n <= |requests| && NoTraps(requests, n)
    decreases n
  {
    if n == 0 then s
    else
      NoTrapsRest(requests, n);
      FetchTraps(s, requests[0].rows, requests[0].res);
      Before(Fetch(s, requests[0].rows, requests[0].res).value.s, requests[1..], n - 1)
  }

  lemma {:induction false} BeforeNext(s: Session, requests: seq<Request>, n: nat)
    requires n < |requests| && NoTraps(requests, n + 1)
    ensures var p := Fetch(Before(s, requests, n), requests[n].rows, requests[n].res);
      && p.Some? && Before(s, requests, n + 1) == p.value.s
      && n < |Sends(s, requests)| && Sends(s, requests)[n] == p.value.out
    decreases n
  {
    NoTrapsRest(requests, n + 1);
    FetchTraps(s, requests[0].rows, requests[0].res);
    if n > 0 {
      BeforeNext(Fetch(s, requests[0].rows, requests[0].res).value.s, requests[1..], n - 1);
    }
  }

  lemma FetchAt(s: Session, requests: seq<Request>, n: nat)
    requires n < |requests| && Stands(s, requests[..n]) && !Traps(requests[n].rows, requests[n].res)
    ensures var p := Fetch(s, requests[n].rows, requests[n].res);
      p.Some? && p.value.out == LastPoints(requests[..n + 1]) && Stands(p.value.s, requests[..n + 1])
  {
    FetchStands(s, requests[..n], requests[n]);
    assert requests[..n] + [requests[n]] == requests[..n + 1];
  }

  lemma {:induction false} BeforeStands(requests: seq<Request>, n: nat)
    requires n <= |requests| && NoTraps(requests, n)
    ensures Stands(Before(NEW_SESSION, requests, n), requests[..n])
  {
    if n > 0 {
      BeforeStands(requests, n - 1);
      BeforeNext(NEW_SESSION, requests, n - 1);
      FetchAt(Before(NEW_SESSION, requests, n - 1), requests, n - 1);
    }
  }

  lemma SendsAt(requests: seq<Request>, i: nat)
    requires i < |requests| && NoTraps(requests, i + 1)
    ensures i < |Sends(NEW_SESSION, requests)|
    ensures Sends(NEW_SESSION, requests)[i] == LastPoints(requests[..i + 1])
  {
    BeforeStands(requests, i);
    BeforeNext(NEW_SESSION, requests, i);
    FetchAt(Before(NEW_SESSION, requests, i), requests, i);
  }

  lemma {:induction false} SendsUntilTrap(s: Session, requests: seq<Request>)
    ensures |Sends(s, requests)| <= |requests|
    ensures forall i :: 0 <= i < |Sends(s, requests)| ==> !Traps(requests[i].rows, requests[i].res)
    ensures |Sends(s, requests)| < |requests| ==>
      var r := requests[|Sends(s, requests)|]; Traps(r.rows, r.res)
    decreases |requests|
  {
    if requests != [] {
      var r := requests[0];
      FetchTraps(s, r.rows, r.res);
      if !Traps(r.rows, r.res) {
        var p := Fetch(s, r.rows, r.res).value;
        SendsUntilTrap(p.s, requests[1..]);
        assert forall i :: 1 <= i < |requests| ==> requests[i] == requests[1..][i - 1];
      }
    }
  }

  /** In a whole session every FETCH before the first that divides by zero sends the buckets of its
  rows, by the plan of the last FETCH of two rows or more, and with what the ones before it have
  left in the tally. */
  lemma SessionPoints(requests: seq<Request>, i: nat)
    requires i < |requests|
    ensures i < |Sends(NEW_SESSION, requests)| <==> NoTraps(requests, i + 1)
    ensures i < |Sends(NEW_SESSION, requests)| ==> Sends(NEW_SESSION, requests)[i] == LastPoints(requests[..i + 1])
  {
    SendsUntilTrap(NEW_SESSION, requests);
    if NoTraps(requests, i + 1) { SendsAt(requests, i); }
  }

  // ---------------------------------------------------------------- the loop itself

  class ClientSession {
    var skip: int
    var skipt: int
    var tally: real
    var midtime: int

    ghost function State(): Session
      reads this
    {
      Session(skip, skipt, tally, midtime)
    }

    constructor ()
      ensures State() == NEW_SESSION
    {
      skip, skipt, tally, midtime := 0, 0, 0.0, 0;
    }

    /** Work out skip and skipt from the first two rows; false where the division traps. */
    method MakePlan(result: Node<Row>, res: int, ghost ns: seq<Node<Row>>, ghost rows: seq<Row>) returns (ok: bool)
      requires Lists(result, ns, rows)
      modifies this`skip, this`skipt
      ensures ok <==> Plan(old(State()), rows, res).Some?
      ensures State() == if ok then Plan(old(State()), rows, res).value else old(State())
    {
      NullLinksExactlyWhenEmpty(result, ns);
      assert At(result, ns, -1) == result && (|ns| > 0 ==> At(result, ns, 0) == ns[0]);
      assert |ns| > 0 ==> ns[0].Succ() == At(result, ns, 1);
      if result.Next() != null && result.Next().Next() != result {
        assert |ns| >= 2 && result.Succ() == ns[0] && result.Succ().Succ() == ns[1];
        var d1 := result.Next().Data().value;
        var d2 := result.Next().Next().Data().value;
        var diff := ToInt(d2.time - d1.time);
        var seconds := ToInt(res * 60);
        if seconds <= diff {
          skip := 1;
        } else if diff == 0 {
          return false;
        } else {
          skip := CDiv(seconds, diff);
        }
        if skip == 1 {
          skipt := 1;
        } else if skip == 2 {
          skipt := 1;
        } else {
          skipt := CDiv(skip, 2) + 1;
        }
      }
      return true;
    }

    /** The body of the loop, as far as counting and reporting go. */
    method Count(d: Row, cnt: int, out: seq<Point>) returns (cnt': int, out': seq<Point>)
      modifies this`tally, this`midtime
      ensures Progress(State(), cnt', out') == OneRow(Progress(old(State()), cnt, out), d)
    {
      cnt', out' := cnt, out;
      tally := tally + d.value;
      if cnt == skipt {
        midtime := d.time;
      }
      if cnt == skip {
        out' := out + [Point(midtime, tally)];
        cnt' := 1;
        tally := 0.0;
      } else {
        cnt' := cnt + 1;
      }
    }

    /** One turn of the loop: count the row and free the node before it. */
    method SendRow(i: Node<Row>, t: Node?<Row>, cnt: int, out: seq<Point>, ghost result: Node<Row>,
                   ghost ns: seq<Node<Row>>, ghost rows: seq<Row>, ghost k: nat, ghost start: Progress)
      returns (t': Node<Row>, i': Node?<Row>, cnt': int, out': seq<Point>)
      requires Behind(result, ns, rows, k, t, i) && k < |ns|
      requires Progress(State(), cnt, out) == Feed(start, rows[..k])
      modifies this, Cells(result, ns)
      ensures Behind(result, ns, rows, k + 1, t', i')
      ensures Progress(State(), cnt', out') == Feed(start, rows[..k + 1])
    {
      BehindHere(result, ns, rows, k, t, i);
      FeedMore(start, rows[..k], rows[k]);
      assert rows[..k] + [rows[k]] == rows[..k + 1];
      cnt', out' := Count(i.Data().value, cnt, out);
      t', i' := DeleteBehind(i, t, result, ns, rows, k);
    }

    /** Send the rows and free them, each node one turn late, then the list itself. */
    method SendRows(result: Node<Row>, ghost ns: seq<Node<Row>>, ghost rows: seq<Row>) returns (out: seq<Point>)
      requires Lists(result, ns, rows)
      modifies this, Cells(result, ns)
      ensures var p := Feed(Progress(old(State()), 1, []), rows); out == p.out && State() == p.s
      ensures forall n :: n in Cells(result, ns) ==> n.Freed()
    {
      out := [];
      var cnt := 1;
      var t: Node?<Row> := null;
      var i := result.Next();
      ghost var start, k := Progress(State(), 1, []), 0;
      BehindStarts(result, ns, rows);
      while i != result && i != null
        invariant Behind(result, ns, rows, k, t, i)
        invariant Progress(State(), cnt, out) == Feed(start, rows[..k])
        decreases |ns| - k
      {
        BehindHere(result, ns, rows, k, t, i);
        t, i, cnt, out := SendRow(i, t, cnt, out, result, ns, rows, k, start);
        k := k + 1;
      }
      BehindHere(result, ns, rows, k, t, i);
      assert rows[..k] == rows;
      DeleteLast(t, result, ns, rows, i);
      var _ := NvFree(result);
    }

    /** The FETCH branch once the data is there; false where the process ends in a trap. */
    method FetchCommand(result: Node<Row>, res: int, ghost ns: seq<Node<Row>>, ghost rows: seq<Row>)
      returns (ok: bool, out: seq<Point>)
      requires Lists(result, ns, rows)
      modifies this, Cells(result, ns)
      ensures ok <==> Fetch(old(State()), rows, res).Some?
      ensures ok ==> out == Fetch(old(State()), rows, res).value.out
      ensures ok ==> State() == Fetch(old(State()), rows, res).value.s
      ensures ok ==> forall n :: n in Cells(result, ns) ==> n.Freed()
      ensures !ok ==> State() == old(State())
    {
      out := [];
      ok := MakePlan(result, res, ns, rows);
      if ok {
        out := SendRows(result, ns, rows);
      }
    }
  }
}
