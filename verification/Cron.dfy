/** Turning due points into dispatches (cron/schedule.py, cron/scheduler.py). Times are whole
    seconds, as the store writes them. */
module CronSchedule {
  import opened Wrappers

  datatype Schedule = Interval(seconds: int) | Once(runAt: int)

  predicate ValidSchedule(s: Schedule) {
    s.Interval? ==> s.seconds >= 60
  }

  function NextAfter(s: Schedule, base: int): Option<int> {
    match s
    case Once(target) => if target > base then Some(target) else None
    case Interval(seconds) => Some(base + seconds)
  }

  function NextFuture(s: Schedule, scheduledAt: int, now: int): Option<int>
    requires ValidSchedule(s)
  {
    match s
    case Once(_) => None
    case Interval(seconds) =>
      var passed := (now - scheduledAt) / seconds + 1;
      Some(scheduledAt + seconds * if passed < 1 then 1 else passed)
  }

  /** The closed form is the first later point of the schedule's own grid that is after now. */
  lemma NextFutureIsFirst(seconds: int, at: int, now: int)
    requires seconds >= 60
    ensures var f := NextFuture(Interval(seconds), at, now);
            && f.Some? && f.value > at && f.value > now && (f.value - at) % seconds == 0
            && (f.value == at + seconds || f.value - seconds <= now)
  {
    var passed := (now - at) / seconds + 1;
    var k := if passed < 1 then 1 else passed;
    GridModulo(k, seconds);
    assert now - at < seconds * passed && seconds * (passed - 1) <= now - at;
    if passed < 1 {
      NegativeProduct(seconds, passed);
    }
  }

  lemma GridModulo(k: int, seconds: int)
    requires seconds > 0
    ensures seconds * k % seconds == 0
  {
    assert seconds * k == k * seconds + 0;
    DivisionUnique(seconds * k, seconds, k, 0);
  }

  lemma DivisionUnique(x: int, d: int, q: int, r: int)
    requires d > 0 && 0 <= r < d && x == d * q + r
    ensures x / d == q && x % d == r
  {
    assert x == d * (x / d) + x % d;
    assert d * (q - x / d) == x % d - r;
    if q - x / d >= 1 {
      ProductAtLeast(d, q - x / d);
    } else if q - x / d <= -1 {
      ProductAtLeast(d, x / d - q);
    }
  }

  lemma ProductAtLeast(d: int, k: int)
    requires d > 0 && k >= 1
    ensures d * k >= d
  {
  }

  lemma NegativeProduct(d: int, k: int)
    requires d > 0 && k <= 0
    ensures d * k <= 0
  {
  }
}

module CronScheduler {
  import opened Wrappers
  import opened CronSchedule

  datatype Policy = Skip | FireOnce | CatchUp

  datatype Outcome = Pending | OverlapSkipped | MisfireSkipped

  datatype Dispatch = Dispatch(scheduledFor: int, coalesced: nat, outcome: Outcome)

  /** scheduled: neither paused nor completed nor deleted. */
  datatype Job = Job(schedule: Schedule, policy: Policy, next: Option<int>, scheduled: bool, overlapping: bool,
                     missed: nat, overlapSkipped: nat, revision: nat)

  const LIMIT: nat := 100000
  const CAPACITY: nat := 10

  /** The dispatches to insert and the cursor to store; created == [] means nothing is stored. */
  datatype Due = Due(created: seq<Dispatch>, next: Option<int>)

  /** How many grid points of an interval lie in due .. now. */
  function CountDue(due: int, seconds: int, now: int): (n: int)
    requires seconds > 0 && due <= now
    ensures n >= 1
  {
    assert (now - due) / seconds >= 0;
    (now - due) / seconds + 1
  }

  function Grid(due: int, seconds: int, n: nat): seq<int> {
    seq(n, i => due + i * seconds)
  }

  /** The points the bounded loop collects, and where its cursor ends. */
  function Points(s: Schedule, due: int, now: int): seq<int>
    requires ValidSchedule(s) && due <= now
  {
    match s
    case Interval(seconds) => Grid(due, seconds, Min(LIMIT, CountDue(due, seconds, now)))
    case Once(runAt) => if NextAfter(s, due).Some? && runAt <= now then [due, runAt] else [due]
  }

  function CursorAfter(s: Schedule, due: int, now: int): int
    requires ValidSchedule(s) && due <= now
  {
    match s
    case Interval(seconds) => due + |Points(s, due, now)| * seconds
    case Once(runAt) => if runAt > due then runAt else due
  }

  /** _materialize_due as a function of the job, the time and the number of pending dispatches. */
  function Materialized(job: Job, now: int, pending: nat): Due
    requires ValidSchedule(job.schedule)
  {
    if !job.scheduled || job.next.None? || job.next.value > now then Due([], job.next)
    else
      var due := job.next.value;
      var points := Points(job.schedule, due, now);
      var cursor := CursorAfter(job.schedule, due, now);
      var ahead := if cursor > now then Some(cursor) else None;
      if job.overlapping || job.policy != CatchUp then
        Due([Dispatch(points[|points| - 1], |points|, if job.overlapping then OverlapSkipped
                      else if job.policy == Skip then MisfireSkipped else Pending)], ahead)
      else
        var m := Min(Monus(CAPACITY, pending), |points|);
        Due(seq(m, i requires 0 <= i < m => Dispatch(points[i], 1, Pending)),
            if m == |points| then ahead else Some(points[m]))
  }

  lemma CountDueBounds(due: int, seconds: int, now: int, k: int)
    requires seconds > 0 && due <= now && 0 <= k
    ensures due + k * seconds <= now <==> k < CountDue(due, seconds, now)
  {
    var q := (now - due) / seconds;
    assert seconds * q <= now - due < seconds * (q + 1);
    if k <= q {
      ProductMonotone(seconds, k, q);
    } else {
      ProductMonotone(seconds, q + 1, k);
    }
  }

  lemma ProductMonotone(d: int, a: int, b: int)
    requires d > 0 && a <= b
    ensures a * d <= b * d && d * a <= d * b
  {
  }

  /** i rounds of the loop have been completed. */
  ghost predicate Collected(s: Schedule, due: int, now: int, i: nat, occurrences: seq<int>, cursor: int) {
    match s
    case Interval(seconds) =>
      occurrences == Grid(due, seconds, i) && cursor == due + i * seconds && (i > 0 ==> cursor - seconds <= now)
    case Once(runAt) =>
      if i == 0 then occurrences == [] && cursor == due
      else i == 1 && occurrences == [due] && runAt > due && cursor == runAt
  }

  lemma CollectedMore(s: Schedule, due: int, now: int, i: nat, occurrences: seq<int>, cursor: int)
    requires ValidSchedule(s) && Collected(s, due, now, i, occurrences, cursor) && cursor <= now
    requires NextAfter(s, cursor).Some?
    ensures Collected(s, due, now, i + 1, occurrences + [cursor], NextAfter(s, cursor).value)
  {
    if s.Interval? {
      assert (i + 1) * s.seconds == i * s.seconds + s.seconds;
      assert Grid(due, s.seconds, i + 1) == Grid(due, s.seconds, i) + [due + i * s.seconds];
    }
  }

  lemma CollectedAll(s: Schedule, due: int, now: int, i: nat, occurrences: seq<int>, cursor: int)
    requires ValidSchedule(s) && due <= now && i <= LIMIT && Collected(s, due, now, i, occurrences, cursor)
    requires cursor > now || i == LIMIT
    ensures occurrences == Points(s, due, now) && cursor == CursorAfter(s, due, now)
  {
    if s.Interval? {
      CountDueBounds(due, s.seconds, now, i);
      if i > 0 {
        assert (i - 1) * s.seconds == i * s.seconds - s.seconds;
        CountDueBounds(due, s.seconds, now, i - 1);
      }
      assert i == Min(LIMIT, CountDue(due, s.seconds, now));
    }
  }

  lemma CollectedLast(s: Schedule, due: int, now: int, i: nat, occurrences: seq<int>, cursor: int)
    requires ValidSchedule(s) && due <= now && Collected(s, due, now, i, occurrences, cursor) && cursor <= now
    requires NextAfter(s, cursor).None?
    ensures occurrences + [cursor] == Points(s, due, now) && cursor == CursorAfter(s, due, now)
  {
  }

  /** The loop of the source: bounded, one occurrence at a time. */
  method CollectOccurrences(s: Schedule, due: int, now: int) returns (occurrences: seq<int>, cursor: int)
    requires ValidSchedule(s) && due <= now
    ensures occurrences == Points(s, due, now)
    ensures cursor == CursorAfter(s, due, now)
  {
    occurrences, cursor := [], due;
    var i := 0;
    while i < LIMIT && cursor <= now
      invariant 0 <= i <= LIMIT && Collected(s, due, now, i, occurrences, cursor)
    {
      var next := NextAfter(s, cursor);
      if next.None? {
        CollectedLast(s, due, now, i, occurrences, cursor);
        occurrences := occurrences + [cursor];
        return;
      }
      CollectedMore(s, due, now, i, occurrences, cursor);
      occurrences := occurrences + [cursor];
      cursor := next.value;
      i := i + 1;
    }
    CollectedAll(s, due, now, i, occurrences, cursor);
  }

  method MaterializeDue(job: Job, now: int, pending: nat) returns (r: Due)
    requires ValidSchedule(job.schedule)
    ensures r == Materialized(job, now, pending)
  {
    if !job.scheduled || job.next.None? || job.next.value > now {
      return Due([], job.next);
    }
    var occurrences, cursor := CollectOccurrences(job.schedule, job.next.value, now);
    var ahead := if cursor > now then Some(cursor) else None;
    var last := occurrences[|occurrences| - 1];
    if job.overlapping {
      return Due([Dispatch(last, |occurrences|, OverlapSkipped)], ahead);
    } else if job.policy == Skip {
      return Due([Dispatch(last, |occurrences|, MisfireSkipped)], ahead);
    } else if job.policy == FireOnce {
      return Due([Dispatch(last, |occurrences|, Pending)], ahead);
    }
    var capacity := Monus(CAPACITY, pending);
    var selected := occurrences[..Min(capacity, |occurrences|)];
    var created: seq<Dispatch> := [];
    var i := 0;
    while i < |selected|
      invariant 0 <= i <= |selected|
      invariant created == seq(i, k requires 0 <= k < i => Dispatch(selected[k], 1, Pending))
    {
      created := created + [Dispatch(selected[i], 1, Pending)];
      i := i + 1;
    }
    return Due(created, if |selected| == |occurrences| then ahead else Some(occurrences[|selected|]));
  }

  // ---- the cursor -------------------------------------------------------------------

  predicate IsDue(job: Job, now: int) {
    job.scheduled && job.next.Some? && job.next.value <= now
  }

  predicate Coalesces(job: Job) {
    job.overlapping || job.policy != CatchUp
  }

  /** Under skip, fire_once and overlap the stored cursor is the closed form next_future, if and
      only if at most LIMIT points are due; past that the job silently loses its cursor. */
  lemma CoalescingCursorIsNextFuture(job: Job, now: int, pending: nat)
    requires ValidSchedule(job.schedule) && job.schedule.Interval? && Coalesces(job)
    requires IsDue(job, now)
    ensures var next := Materialized(job, now, pending).next;
            var few := CountDue(job.next.value, job.schedule.seconds, now) <= LIMIT;
            && (next == NextFuture(job.schedule, job.next.value, now) <==> few)
            && (next == None <==> !few)
  {
    var due, seconds := job.next.value, job.schedule.seconds;
    var n := CountDue(due, seconds, now);
    CountDueBounds(due, seconds, now, n);
    CountDueBounds(due, seconds, now, LIMIT);
    assert NextFuture(job.schedule, due, now) == Some(due + seconds * n);
    assert seconds * n == n * seconds;
  }

  // ---- what one look at a job creates ---------------------------------------------------

  /** A time at which a job that is due since due should have run by now. */
  ghost predicate IsDuePoint(s: Schedule, due: int, now: int, t: int) {
    && t <= now
    && (t == due || match s
                    case Interval(seconds) => seconds > 0 && t > due && (t - due) % seconds == 0
                    case Once(runAt) => t == runAt > due)
  }

  /** All due points in order, as far as the limit allows. */
  ghost predicate AreDuePoints(s: Schedule, due: int, now: int, points: seq<int>)
    requires ValidSchedule(s)
  {
    && 0 < |points| <= LIMIT
    && (forall i, k :: 0 <= i < k < |points| ==> points[i] < points[k])
    && (forall t :: t in points ==> IsDuePoint(s, due, now, t))
    && (forall t :: IsDuePoint(s, due, now, t) ==> t in points || (|points| == LIMIT && t > points[|points| - 1]))
  }

  lemma GridPointIsDue(seconds: int, due: int, now: int, i: nat)
    requires seconds >= 60 && due <= now && i < CountDue(due, seconds, now)
    ensures IsDuePoint(Interval(seconds), due, now, due + i * seconds)
  {
    CountDueBounds(due, seconds, now, i);
    ProductMonotone(seconds, 0, i);
    assert seconds * i == i * seconds;
    GridModulo(i, seconds);
    if i > 0 {
      ProductMonotone(seconds, 1, i);
    }
  }

  lemma DuePointIsOnGrid(seconds: int, due: int, now: int, t: int) returns (i: nat)
    requires seconds >= 60 && due <= now && IsDuePoint(Interval(seconds), due, now, t)
    ensures t == due + i * seconds && i < CountDue(due, seconds, now)
  {
    i := (t - due) / seconds;
    CountDueBounds(due, seconds, now, i);
  }

  lemma GridIncreases(due: int, seconds: int, i: nat, k: nat)
    requires seconds >= 60 && i < k
    ensures due + i * seconds < due + k * seconds
  {
    ProductMonotone(seconds, i + 1, k);
    SumTimes(i, 1, seconds);
  }

  lemma PointsAreDue(s: Schedule, due: int, now: int)
    requires ValidSchedule(s) && due <= now
    ensures AreDuePoints(s, due, now, Points(s, due, now))
  {
    if s.Interval? {
      var points, n := Points(s, due, now), CountDue(due, s.seconds, now);
      forall i, k | 0 <= i < k < |points| ensures points[i] < points[k] {
        GridIncreases(due, s.seconds, i, k);
      }
      forall t | t in points ensures IsDuePoint(s, due, now, t) {
        var i :| 0 <= i < |points| && points[i] == t;
        GridPointIsDue(s.seconds, due, now, i);
      }
      forall t | IsDuePoint(s, due, now, t) ensures t in points || (|points| == LIMIT && t > points[|points| - 1]) {
        var i := DuePointIsOnGrid(s.seconds, due, now, t);
        if i < |points| {
          assert points[i] == t;
        } else {
          GridIncreases(due, s.seconds, |points| - 1, i);
        }
      }
    }
  }

  /** What one look at a job creates, for every schedule, policy and number of pending dispatches.
      Nothing unless it is due. Otherwise an overlapping job skips, and so does one whose policy is
      to skip: one row for all the due points, timed at the last. Fire-once makes one such row that
      will run, and catch-up one that will run for each of the first due points, up to ten pending. */
  lemma OutcomesFollowPolicy(job: Job, now: int, pending: nat)
    requires ValidSchedule(job.schedule)
    ensures !IsDue(job, now) ==> Materialized(job, now, pending) == Due([], job.next)
    ensures IsDue(job, now) ==>
              exists points :: AreDuePoints(job.schedule, job.next.value, now, points)
                               && CreatedFor(job, points, pending, Materialized(job, now, pending).created)
  {
    if IsDue(job, now) {
      PointsAreDue(job.schedule, job.next.value, now);
      assert CreatedFor(job, Points(job.schedule, job.next.value, now), pending, Materialized(job, now, pending).created);
    }
  }

  ghost predicate CreatedFor(job: Job, points: seq<int>, pending: nat, created: seq<Dispatch>) {
    && (forall d :: d in created ==> (d.outcome == Pending <==> !job.overlapping && job.policy != Skip))
    && (job.overlapping || job.policy != CatchUp ==>
          |created| == 1 && created[0].coalesced == |points| > 0 && created[0].scheduledFor == points[|points| - 1])
    && (job.overlapping ==> created[0].outcome == OverlapSkipped)
    && (!job.overlapping && job.policy == Skip ==> created[0].outcome == MisfireSkipped)
    && (!job.overlapping && job.policy == CatchUp ==>
          && |created| <= |points| && (pending < 10 ==> |created| == Min(10 - pending, |points|)) && (pending >= 10 ==> created == [])
          && forall i :: 0 <= i < |created| ==> created[i].scheduledFor == points[i] && created[i].coalesced == 1)
  }

  /** Under catch-up the cursor is the oldest due point without a dispatch, if one is left over;
      and otherwise the first point after now, if and only if at most LIMIT were due. */
  lemma CatchUpCursorIsOldestLeft(job: Job, now: int, pending: nat)
    requires ValidSchedule(job.schedule) && job.schedule.Interval? && !Coalesces(job) && IsDue(job, now)
    ensures var d, due, seconds := Materialized(job, now, pending), job.next.value, job.schedule.seconds;
            var n := CountDue(due, seconds, now);
            && (|d.created| < Min(LIMIT, n) ==> d.next == Some(due + |d.created| * seconds))
            && (|d.created| == Min(LIMIT, n) ==> d.next == if n <= LIMIT then NextFuture(job.schedule, due, now) else None)
  {
    var due, seconds := job.next.value, job.schedule.seconds;
    var n := CountDue(due, seconds, now);
    CountDueBounds(due, seconds, now, n);
    CountDueBounds(due, seconds, now, LIMIT);
    assert NextFuture(job.schedule, due, now) == Some(due + seconds * n);
    assert seconds * n == n * seconds;
  }

  /** A job that runs once gets one dispatch, at its time, and no next run; only catch-up with ten
      pending leaves it due. */
  lemma OnceIsMaterializedOnce(job: Job, now: int, pending: nat)
    requires job.schedule.Once? && IsDue(job, now) && job.next == Some(job.schedule.runAt)
    ensures var d := Materialized(job, now, pending);
            if !Coalesces(job) && pending >= 10 then d == Due([], job.next)
            else d.next.None? && |d.created| == 1 && d.created[0].scheduledFor == job.schedule.runAt && d.created[0].coalesced == 1
  {
  }

  // ---- conservation over runs ---------------------------------------------------------

  /** It happens: a job due every minute that is looked at 100000 minutes late has no next run. */
  lemma TooManyDuePoints(revision: nat, pending: nat)
    ensures var job := Job(Interval(60), Skip, Some(0), true, false, 0, 0, revision);
            Coalesces(job) && Materialized(job, 6000000, pending).next == None
  {
    CoalescingCursorIsNextFuture(Job(Interval(60), Skip, Some(0), true, false, 0, 0, revision), 6000000, pending);
  }

  function Sum(rows: seq<Dispatch>): nat {
    if rows == [] then 0 else Sum(rows[..|rows| - 1]) + rows[|rows| - 1].coalesced
  }

  function SkippedSum(rows: seq<Dispatch>, overlapOnly: bool): nat {
    if rows == [] then 0
    else
      var d := rows[|rows| - 1];
      SkippedSum(rows[..|rows| - 1], overlapOnly)
      + if d.outcome == OverlapSkipped || (d.outcome == MisfireSkipped && !overlapOnly) then d.coalesced else 0
  }

  lemma {:induction false} SumAppend(a: seq<Dispatch>, b: seq<Dispatch>)
    ensures Sum(a + b) == Sum(a) + Sum(b)
    ensures SkippedSum(a + b, true) == SkippedSum(a, true) + SkippedSum(b, true)
    ensures SkippedSum(a + b, false) == SkippedSum(a, false) + SkippedSum(b, false)
    decreases |b|
  {
    if b == [] {
      assert a + b == a;
    } else {
      assert (a + b)[..|a + b| - 1] == a + b[..|b| - 1];
      SumAppend(a, b[..|b| - 1]);
    }
  }

  /** What the skip counters count: a skipped row counts for all the points it stands for, in the
      overlap counter only if it was an overlap; a row that runs counts for nothing. */
  lemma OneRowSkipped(d: Dispatch)
    ensures SkippedSum([d], false) == if d.outcome == Pending then 0 else d.coalesced
    ensures SkippedSum([d], true) == if d.outcome == OverlapSkipped then d.coalesced else 0
    ensures Sum([d]) == d.coalesced
  {
    assert [d][..0] == [];
  }

  /** The job row, its scheduled dispatches in order of insertion, and the job rows that
      concurrent schedulers have read. */
  datatype World = World(job: Job, rows: seq<Dispatch>, held: map<nat, Job>)

  /** Look reads a job; Materialize acts on whatever was read, under the revision check of
      due_materialize; Touch is any other write of the job, which may pause or resume it, change its
      policy and whether a dispatch is active, but not its schedule or cursor. */
  datatype Act =
    | Look(worker: nat)
    | Materialize(worker: nat, now: int, pending: nat)
    | Touch(policy: Policy, scheduled: bool, overlapping: bool)

  function Store(w: World, job: Job, d: Due): World {
    if d.created == [] || w.job.revision != job.revision then w
    else
      w.(rows := w.rows + d.created,
         job := job.(next := d.next, missed := job.missed + SkippedSum(d.created, false),
                     overlapSkipped := job.overlapSkipped + SkippedSum(d.created, true), revision := job.revision + 1))
  }

  function Next(w: World, a: Act): World
    requires HeldOk(w)
  {
    match a
    case Look(k) => w.(held := w.held[k := w.job])
    case Materialize(k, now, pending) =>
      if k in w.held then Store(w, w.held[k], Materialized(w.held[k], now, pending)) else w
    case Touch(policy, scheduled, overlapping) =>
      w.(job := w.job.(policy := policy, scheduled := scheduled, overlapping := overlapping, revision := w.job.revision + 1))
  }

  predicate HeldOk(w: World) {
    && ValidSchedule(w.job.schedule)
    && forall k :: k in w.held ==>
         ValidSchedule(w.held[k].schedule) && w.held[k].revision <= w.job.revision
         && (w.held[k].revision == w.job.revision ==> w.held[k] == w.job)
  }

  lemma NextHeldOk(w: World, a: Act)
    requires HeldOk(w)
    ensures HeldOk(Next(w, a))
  {
  }

  function Trace(w: World, acts: seq<Act>): World
    requires HeldOk(w)
    decreases |acts|
  {
    if acts == [] then w else NextHeldOk(w, acts[0]); Trace(Next(w, acts[0]), acts[1..])
  }

  /** Row i stands for the grid points from the sum of the rows before it up to its own
      scheduled point: rows tile the grid from first without gap or overlap. */
  predicate Tiles(rows: seq<Dispatch>, first: int, seconds: int) {
    forall i :: 0 <= i < |rows| ==> TileAt(rows, first, seconds, i)
  }

  predicate TileAt(rows: seq<Dispatch>, first: int, seconds: int, i: nat)
    requires i < |rows|
  {
    rows[i].coalesced >= 1 && rows[i].scheduledFor == first + (Sum(rows[..i + 1]) - 1) * seconds
  }

  predicate Conserved(w: World, first: int) {
    && w.job.schedule.Interval? && ValidSchedule(w.job.schedule)
    && Tiles(w.rows, first, w.job.schedule.seconds)
    && (w.job.next.Some? ==> w.job.next.value == first + Sum(w.rows) * w.job.schedule.seconds)
    && w.job.missed == SkippedSum(w.rows, false)
    && w.job.overlapSkipped == SkippedSum(w.rows, true)
  }

  lemma TileShifts(a: seq<Dispatch>, b: seq<Dispatch>, first: int, seconds: int, k: nat)
    requires k < |b| && TileAt(b, first + Sum(a) * seconds, seconds, k)
    ensures TileAt(a + b, first, seconds, |a| + k)
  {
    assert (a + b)[..|a| + k + 1] == a + b[..k + 1];
    SumAppend(a, b[..k + 1]);
    SumTimes(Sum(a), Sum(b[..k + 1]) - 1, seconds);
  }

  lemma TilesAppend(a: seq<Dispatch>, b: seq<Dispatch>, first: int, seconds: int)
    requires Tiles(a, first, seconds) && Tiles(b, first + Sum(a) * seconds, seconds)
    ensures Tiles(a + b, first, seconds)
  {
    forall i | 0 <= i < |a + b| ensures TileAt(a + b, first, seconds, i) {
      if i < |a| {
        assert (a + b)[..i + 1] == a[..i + 1];
        assert TileAt(a, first, seconds, i);
      } else {
        assert TileAt(b, first + Sum(a) * seconds, seconds, i - |a|);
        TileShifts(a, b, first, seconds, i - |a|);
      }
    }
  }

  lemma {:induction false} OnesSum(rows: seq<Dispatch>)
    requires forall d :: d in rows ==> d.coalesced == 1
    ensures Sum(rows) == |rows|
    decreases |rows|
  {
    if rows != [] {
      OnesSum(rows[..|rows| - 1]);
    }
  }

  /** One materialisation tiles the grid from its due point, and its cursor is where it ends. */
  lemma MaterializedTiles(job: Job, now: int, pending: nat)
    requires ValidSchedule(job.schedule) && job.schedule.Interval? && job.next.Some?
    requires Materialized(job, now, pending).created != []
    ensures var d := Materialized(job, now, pending);
            && Tiles(d.created, job.next.value, job.schedule.seconds)
            && (d.next.Some? ==> d.next.value == job.next.value + Sum(d.created) * job.schedule.seconds)
  {
    var d := Materialized(job, now, pending);
    var due, seconds := job.next.value, job.schedule.seconds;
    var points := Points(job.schedule, due, now);
    if Coalesces(job) {
      assert d.created[..1] == d.created;
      assert d.created[..0] == [];
      assert TileAt(d.created, due, seconds, 0);
    } else {
      forall i | 0 <= i < |d.created| ensures TileAt(d.created, due, seconds, i) {
        OnesSum(d.created[..i + 1]);
      }
      OnesSum(d.created);
    }
  }

  lemma CursorMoves(rows: seq<Dispatch>, created: seq<Dispatch>, first: int, seconds: int)
    ensures first + Sum(rows) * seconds + Sum(created) * seconds == first + Sum(rows + created) * seconds
  {
    SumAppend(rows, created);
    SumTimes(Sum(rows), Sum(created), seconds);
  }

  lemma RowsConserve(rows: seq<Dispatch>, created: seq<Dispatch>, first: int, seconds: int)
    requires Tiles(rows, first, seconds) && Tiles(created, first + Sum(rows) * seconds, seconds)
    ensures Tiles(rows + created, first, seconds)
    ensures SkippedSum(rows + created, false) == SkippedSum(rows, false) + SkippedSum(created, false)
    ensures SkippedSum(rows + created, true) == SkippedSum(rows, true) + SkippedSum(created, true)
  {
    SumAppend(rows, created);
    TilesAppend(rows, created, first, seconds);
  }

  lemma StoreConserves(w: World, now: int, pending: nat, first: int)
    requires Conserved(w, first) && Materialized(w.job, now, pending).created != []
    ensures Conserved(Store(w, w.job, Materialized(w.job, now, pending)), first)
  {
    var d := Materialized(w.job, now, pending);
    var seconds := w.job.schedule.seconds;
    MaterializedTiles(w.job, now, pending);
    RowsConserve(w.rows, d.created, first, seconds);
    CursorMoves(w.rows, d.created, first, seconds);
  }

  lemma SumTimes(a: int, b: int, seconds: int)
    ensures a * seconds + b * seconds == (a + b) * seconds
  {
  }

  lemma NextConserves(w: World, a: Act, first: int)
    requires HeldOk(w) && Conserved(w, first)
    ensures Conserved(Next(w, a), first)
  {
    if a.Materialize? && a.worker in w.held && w.held[a.worker].revision == w.job.revision {
      if Materialized(w.job, a.now, a.pending).created != [] {
        StoreConserves(w, a.now, a.pending, first);
      }
    }
  }

  lemma {:induction false} TraceConserves(w: World, acts: seq<Act>, first: int)
    requires HeldOk(w) && Conserved(w, first)
    ensures Conserved(Trace(w, acts), first)
    decreases |acts|
  {
    if acts != [] {
      NextConserves(w, acts[0], first);
      NextHeldOk(w, acts[0]);
      TraceConserves(Next(w, acts[0]), acts[1..], first);
    }
  }

  lemma {:induction false} SumMonotone(rows: seq<Dispatch>, i: nat, k: nat)
    requires i <= k <= |rows| && forall x :: 0 <= x < |rows| ==> rows[x].coalesced >= 1
    ensures Sum(rows[..i]) + (k - i) <= Sum(rows[..k])
    decreases k
  {
    if i < k {
      assert rows[..k][..k - 1] == rows[..k - 1];
      SumMonotone(rows, i, k - 1);
    }
  }

  predicate Positive(rows: seq<Dispatch>) {
    forall x :: 0 <= x < |rows| ==> rows[x].coalesced >= 1
  }

  lemma TilesArePositive(rows: seq<Dispatch>, first: int, seconds: int)
    requires Tiles(rows, first, seconds)
    ensures Positive(rows)
  {
    forall i | 0 <= i < |rows| ensures rows[i].coalesced >= 1 {
      assert TileAt(rows, first, seconds, i);
    }
  }

  lemma TileInside(rows: seq<Dispatch>, first: int, seconds: int, i: nat)
    requires i < |rows| && Positive(rows) && TileAt(rows, first, seconds, i) && seconds > 0
    ensures first <= rows[i].scheduledFor < first + Sum(rows) * seconds
  {
    SumMonotone(rows, 0, i + 1);
    SumMonotone(rows, i + 1, |rows|);
    assert rows[..|rows|] == rows && rows[..0] == [];
    var last := Sum(rows[..i + 1]) - 1;
    ProductMonotone(seconds, 0, last);
    ProductMonotone(seconds, last + 1, Sum(rows));
    SumTimes(last, 1, seconds);
  }

  lemma TileBefore(rows: seq<Dispatch>, first: int, seconds: int, i: nat, k: nat)
    requires i < k < |rows| && Positive(rows) && seconds > 0
    requires TileAt(rows, first, seconds, i) && TileAt(rows, first, seconds, k)
    ensures rows[i].scheduledFor < rows[k].scheduledFor
  {
    SumMonotone(rows, i + 1, k + 1);
    var x, y := Sum(rows[..i + 1]) - 1, Sum(rows[..k + 1]) - 1;
    ProductMonotone(seconds, x + 1, y);
    SumTimes(x, 1, seconds);
  }

  lemma TilesAreOrdered(rows: seq<Dispatch>, first: int, seconds: int)
    requires Tiles(rows, first, seconds) && seconds > 0
    ensures forall i :: 0 <= i < |rows| ==> first <= rows[i].scheduledFor < first + Sum(rows) * seconds
    ensures forall i, k :: 0 <= i < k < |rows| ==> rows[i].scheduledFor < rows[k].scheduledFor
  {
    TilesArePositive(rows, first, seconds);
    forall i | 0 <= i < |rows|
      ensures first <= rows[i].scheduledFor < first + Sum(rows) * seconds
    {
      assert TileAt(rows, first, seconds, i);
      TileInside(rows, first, seconds, i);
    }
    forall i, k | 0 <= i < k < |rows|
      ensures rows[i].scheduledFor < rows[k].scheduledFor
    {
      assert TileAt(rows, first, seconds, i) && TileAt(rows, first, seconds, k);
      TileBefore(rows, first, seconds, i, k);
    }
  }

  /** Conservation, for every run of ticks, races and policy changes: the coalesced counts add up
      to the grid points passed, scheduled times increase strictly and lie before the cursor, and
      the skip counters account for exactly the skipped rows. */
  lemma CronConservation(w: World, acts: seq<Act>, first: int)
    requires HeldOk(w) && w.rows == [] && w.job.next == Some(first)
    requires w.job.schedule.Interval? && w.job.missed == 0 && w.job.overlapSkipped == 0
    ensures var w' := Trace(w, acts);
            && w'.job.schedule.Interval? && w'.job.schedule.seconds >= 60
            && (w'.job.next.Some? ==> Sum(w'.rows) == (w'.job.next.value - first) / w'.job.schedule.seconds)
            && (w'.job.next.Some? ==> (w'.job.next.value - first) % w'.job.schedule.seconds == 0)
            && (w'.job.next.Some? ==> forall i :: 0 <= i < |w'.rows| ==> first <= w'.rows[i].scheduledFor < w'.job.next.value)
            && (forall i, k :: 0 <= i < k < |w'.rows| ==> w'.rows[i].scheduledFor < w'.rows[k].scheduledFor)
            && w'.job.missed == SkippedSum(w'.rows, false) && w'.job.overlapSkipped == SkippedSum(w'.rows, true)
  {
    TraceConserves(w, acts, first);
    var w' := Trace(w, acts);
    var seconds := w'.job.schedule.seconds;
    if w'.job.next.Some? {
      DivisionUnique(w'.job.next.value - first, seconds, Sum(w'.rows), 0);
    }
    TilesAreOrdered(w'.rows, first, seconds);
  }

  predicate OnlyCatchUp(acts: seq<Act>) {
    forall a :: a in acts && a.Touch? ==> a.policy == CatchUp && !a.overlapping
  }

  predicate HeldCatchUp(w: World) {
    && !Coalesces(w.job)
    && (forall k :: k in w.held ==> !Coalesces(w.held[k]))
    && (forall d :: d in w.rows ==> d.coalesced == 1 && d.outcome == Pending)
  }

  lemma {:induction false} CatchUpRowsAreSingle(w: World, acts: seq<Act>)
    requires HeldOk(w) && HeldCatchUp(w) && OnlyCatchUp(acts)
    ensures HeldCatchUp(Trace(w, acts))
    decreases |acts|
  {
    if acts != [] {
      assert acts[0] in acts;
      NextHeldOk(w, acts[0]);
      CatchUpRowsAreSingle(Next(w, acts[0]), acts[1..]);
    }
  }

  /** Under catch_up no grid point is missed: dispatch number i is for grid point number i. */
  lemma CatchUpMissesNothing(w: World, acts: seq<Act>, first: int)
    requires HeldOk(w) && w.rows == [] && w.held == map[] && w.job.next == Some(first)
    requires w.job.schedule.Interval? && w.job.missed == 0 && w.job.overlapSkipped == 0
    requires !Coalesces(w.job) && OnlyCatchUp(acts)
    ensures var w' := Trace(w, acts);
            && w'.job.schedule.Interval?
            && forall i :: 0 <= i < |w'.rows| ==> w'.rows[i] == Dispatch(first + i * w'.job.schedule.seconds, 1, Pending)
  {
    TraceConserves(w, acts, first);
    CatchUpRowsAreSingle(w, acts);
    var w' := Trace(w, acts);
    forall i | 0 <= i < |w'.rows|
      ensures w'.rows[i] == Dispatch(first + i * w'.job.schedule.seconds, 1, Pending)
    {
      assert TileAt(w'.rows, first, w'.job.schedule.seconds, i);
      OnesSum(w'.rows[..i + 1]);
    }
  }
}
