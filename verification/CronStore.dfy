/** The job and dispatch tables of cron/store.py: every write checks the revision of the rows it
    was computed from. */
module CronStore {
  import opened Wrappers

  /** Row identities and tokens: only their equality matters. */
  type Key = nat

  datatype JobState = Scheduled | Paused | Completed | Deleted

  datatype Status = Pending | Claimed | Running | Succeeded | Failed | Cancelled | Skipped | RecoveryRequired

  datatype Job = Job(state: JobState, once: bool, current: Option<Key>, runCount: nat, failureCount: nat,
                     consecutive: nat, revision: nat)

  datatype Dispatch = Dispatch(job: Key, status: Status, token: Option<Key>, run: Option<Key>, revision: nat)

  datatype Tables = Tables(jobs: map<Key, Job>, dispatches: map<Key, Dispatch>)

  predicate Active(d: Dispatch) {
    d.status in {Claimed, Running, RecoveryRequired}
  }

  predicate Bound(d: Dispatch) {
    d.status in {Running, RecoveryRequired}
  }

  predicate Finished(d: Dispatch) {
    d.status in {Succeeded, Failed, Cancelled} && d.run.Some?
  }

  predicate Unsuccessful(d: Dispatch) {
    Finished(d) && d.status != Succeeded
  }

  function ActiveOf(t: Tables, job: Key): set<Key> {
    set id | id in t.dispatches && t.dispatches[id].job == job && Active(t.dispatches[id])
  }

  function BoundOf(t: Tables, job: Key): set<Key> {
    set id | id in t.dispatches && t.dispatches[id].job == job && Bound(t.dispatches[id])
  }

  function FinishedOf(t: Tables, job: Key): set<Key> {
    set id | id in t.dispatches && t.dispatches[id].job == job && Finished(t.dispatches[id])
  }

  function UnsuccessfulOf(t: Tables, job: Key): set<Key> {
    set id | id in t.dispatches && t.dispatches[id].job == job && Unsuccessful(t.dispatches[id])
  }

  // ---- the operations, as functions of the tables and of the rows read earlier ------------

  function NewRows(job: Key, added: map<Key, Status>): map<Key, Dispatch> {
    map id | id in added :: Dispatch(job, added[id], None, None, 1)
  }

  /** due_materialize: new rows are pending or skipped. */
  function Materialize(t: Tables, job: Key, read: Job, added: map<Key, Status>): Tables {
    if job !in t.jobs || t.jobs[job].revision != read.revision || added.Keys * t.dispatches.Keys != {} then t
    else Tables(t.jobs[job := read.(revision := read.revision + 1)],
                t.dispatches + NewRows(job, added))
  }

  predicate CanClaim(t: Tables, job: Key, id: Key) {
    && job in t.jobs && t.jobs[job].state == Scheduled && t.jobs[job].current.None?
    && id in t.dispatches && t.dispatches[id].job == job && t.dispatches[id].status == Pending
    && ActiveOf(t, job) == {}
  }

  /** claim_next of a pending row; the one-active-dispatch index refuses a second active row. */
  function Claim(t: Tables, job: Key, id: Key, token: Key): Tables {
    if CanClaim(t, job, id) then
      t.(dispatches := t.dispatches[id := t.dispatches[id].(status := Claimed, token := Some(token),
                                                            revision := t.dispatches[id].revision + 1)])
    else t
  }

  /** Both revisions still match what was read. */
  predicate Unchanged(t: Tables, id: Key, selected: Dispatch, read: Job) {
    && id in t.dispatches && t.dispatches[id].revision == selected.revision
    && selected.job in t.jobs && t.jobs[selected.job].revision == read.revision
  }

  function Bind(t: Tables, id: Key, selected: Dispatch, read: Job, token: Key, run: Key): Tables {
    if selected.status != Claimed || selected.token != Some(token) || read.state == Deleted
       || !Unchanged(t, id, selected, read) then t
    else Tables(t.jobs[selected.job := read.(current := Some(id), revision := read.revision + 1)],
                t.dispatches[id := selected.(status := Running, run := Some(run), revision := selected.revision + 1)])
  }

  datatype Result = Success | Failure | Cancellation

  function StatusOf(r: Result): Status {
    match r
    case Success => Succeeded
    case Failure => Failed
    case Cancellation => Cancelled
  }

  function Settled(read: Job, r: Result): Job {
    read.(state := if read.once && r == Success then Completed else read.state, current := None,
          runCount := read.runCount + 1, failureCount := read.failureCount + if r == Success then 0 else 1,
          consecutive := if r == Success then 0 else read.consecutive + 1, revision := read.revision + 1)
  }

  function Terminal(t: Tables, id: Key, selected: Dispatch, read: Job, r: Result): Tables {
    if !Bound(selected) || !Unchanged(t, id, selected, read) then t
    else Tables(t.jobs[selected.job := Settled(read, r)],
                t.dispatches[id := selected.(status := StatusOf(r), revision := selected.revision + 1)])
  }

  function Replace(t: Tables, id: Key, selected: Dispatch, status: Status): Tables {
    if id !in t.dispatches || t.dispatches[id].revision != selected.revision then t
    else t.(dispatches := t.dispatches[id := selected.(status := status, revision := selected.revision + 1)])
  }

  function CancelUnbound(t: Tables, id: Key, selected: Dispatch): Tables {
    if selected.status in {Pending, Claimed} then Replace(t, id, selected, Cancelled) else t
  }

  function MarkRecovery(t: Tables, id: Key, selected: Dispatch): Tables {
    if Bound(selected) then Replace(t, id, selected, RecoveryRequired) else t
  }

  /** save_job under an expected revision: edit, pause, resume and remove change neither the
      binding nor the counters. */
  function Edit(t: Tables, job: Key, read: Job, state: JobState, once: bool): Tables {
    if job !in t.jobs || t.jobs[job].revision != read.revision then t
    else t.(jobs := t.jobs[job := read.(state := state, once := once, revision := read.revision + 1)])
  }

  function Create(t: Tables, job: Key, once: bool): Tables {
    if job in t.jobs then t
    else t.(jobs := t.jobs[job := Job(Scheduled, once, None, 0, 0, 0, 1)])
  }

  // ---- agreement ----------------------------------------------------------------------

  predicate AtMostOne(s: set<Key>) {
    forall a, b :: a in s && b in s ==> a == b
  }

  /** At most one dispatch of the job is active; current names the bound one exactly when there
      is one. */
  predicate SlotAgrees(t: Tables, j: Key)
    requires j in t.jobs
  {
    && AtMostOne(ActiveOf(t, j))
    && BoundOf(t, j) == (if t.jobs[j].current.Some? then {t.jobs[j].current.value} else {})
  }

  /** The counters count the finished runs and those of them that did not succeed. */
  predicate CountsAgree(t: Tables, j: Key)
    requires j in t.jobs
  {
    && t.jobs[j].runCount == |FinishedOf(t, j)|
    && t.jobs[j].failureCount == |UnsuccessfulOf(t, j)|
    && t.jobs[j].consecutive <= t.jobs[j].failureCount
  }

  predicate JobAgrees(t: Tables, j: Key)
    requires j in t.jobs
  {
    SlotAgrees(t, j) && CountsAgree(t, j)
  }

  /** A run is recorded on every row that was ever bound, and on no other. */
  predicate RowSound(t: Tables, id: Key)
    requires id in t.dispatches
  {
    var d := t.dispatches[id];
    && d.job in t.jobs
    && (d.status in {Pending, Claimed, Skipped} ==> d.run.None?)
    && (d.status in {Running, RecoveryRequired, Succeeded, Failed} ==> d.run.Some?)
  }

  predicate Agreement(t: Tables) {
    && (forall j :: j in t.jobs ==> JobAgrees(t, j))
    && (forall id :: id in t.dispatches ==> RowSound(t, id))
  }

  predicate SameSets(t: Tables, t': Tables, j: Key) {
    && ActiveOf(t', j) == ActiveOf(t, j) && BoundOf(t', j) == BoundOf(t, j)
    && FinishedOf(t', j) == FinishedOf(t, j) && UnsuccessfulOf(t', j) == UnsuccessfulOf(t, j)
  }

  /** How replacing one row changes the sets of a job. */
  lemma SetsAfter(t: Tables, t': Tables, id: Key, d: Dispatch, j: Key)
    requires id in t.dispatches && t'.dispatches == t.dispatches[id := d] && d.job == t.dispatches[id].job
    ensures d.job != j ==> SameSets(t, t', j)
    ensures d.job == j ==> ActiveOf(t', j) == With(ActiveOf(t, j), id, Active(d))
    ensures d.job == j ==> BoundOf(t', j) == With(BoundOf(t, j), id, Bound(d))
    ensures d.job == j ==> FinishedOf(t', j) == With(FinishedOf(t, j), id, Finished(d))
    ensures d.job == j ==> UnsuccessfulOf(t', j) == With(UnsuccessfulOf(t, j), id, Unsuccessful(d))
  {
  }

  /** Same rows as far as the job is concerned, and the same counters and binding. */
  lemma SameSetsAgree(t: Tables, t': Tables, j: Key)
    requires j in t.jobs && j in t'.jobs && SameSets(t, t', j) && JobAgrees(t, j)
    requires t'.jobs[j] == t.jobs[j].(state := t'.jobs[j].state, once := t'.jobs[j].once, revision := t'.jobs[j].revision)
    ensures JobAgrees(t', j)
  {
  }

  /** A write of a row that was not finished and is not. */
  lemma CountsKept(t: Tables, t': Tables, id: Key, d: Dispatch)
    requires id in t.dispatches && d.job == t.dispatches[id].job && t'.dispatches == t.dispatches[id := d]
    requires !Finished(d) && !Finished(t.dispatches[id]) && d.job in t.jobs && d.job in t'.jobs && CountsAgree(t, d.job)
    requires t'.jobs[d.job] == t.jobs[d.job].(current := t'.jobs[d.job].current, revision := t'.jobs[d.job].revision)
    ensures CountsAgree(t', d.job)
  {
    SetsAfter(t, t', id, d, d.job);
    WithFacts(FinishedOf(t, d.job), id, false);
    WithFacts(UnsuccessfulOf(t, d.job), id, false);
  }

  /** The set with x in it, or out of it. */
  function With(s: set<Key>, x: Key, present: bool): set<Key> {
    if present then s + {x} else s - {x}
  }

  lemma WithFacts(s: set<Key>, x: Key, present: bool)
    ensures (x in s) == present ==> With(s, x, present) == s
    ensures present && AtMostOne(s) && (s == {} || x in s) ==> With(s, x, true) == {x}
    ensures !present && AtMostOne(s) ==> AtMostOne(With(s, x, false))
    ensures !present && AtMostOne(s) && x in s ==> With(s, x, false) == {}
    ensures x !in s ==> |With(s, x, true)| == |s| + 1
  {
  }

  lemma OtherJobKept(t: Tables, t': Tables, id: Key, d: Dispatch, j: Key)
    requires id in t.dispatches && t'.dispatches == t.dispatches[id := d] && d.job == t.dispatches[id].job
    requires j in t.jobs && j in t'.jobs && t'.jobs[j] == t.jobs[j] && j != d.job && JobAgrees(t, j)
    ensures JobAgrees(t', j)
  {
    SetsAfter(t, t', id, d, j);
    SameSetsAgree(t, t', j);
  }

  /** After a write of one row and its job, only those two need checking. */
  lemma OneRowWritten(t: Tables, t': Tables, id: Key, d: Dispatch, job: Job)
    requires Agreement(t) && id in t.dispatches && d.job == t.dispatches[id].job && d.job in t.jobs
    requires t' == Tables(t.jobs[d.job := job], t.dispatches[id := d])
    requires RowSound(t', id) && JobAgrees(t', d.job)
    ensures Agreement(t')
  {
    forall x | x in t'.dispatches ensures RowSound(t', x) {
      if x != id {
        assert RowSound(t, x);
      }
    }
    forall j | j in t'.jobs ensures JobAgrees(t', j) {
      if j != d.job {
        OtherJobKept(t, t', id, d, j);
      }
    }
  }

  lemma AddedAreNew(t: Tables, added: map<Key, Status>)
    requires added.Keys * t.dispatches.Keys == {}
    ensures forall id :: id in t.dispatches ==> id !in added
  {
    forall id | id in t.dispatches ensures id !in added {
      assert id !in added.Keys * t.dispatches.Keys;
    }
  }

  lemma SetsAfterInsert(t: Tables, t': Tables, job: Key, added: map<Key, Status>, j: Key)
    requires added.Keys * t.dispatches.Keys == {}
    requires forall id :: id in added ==> added[id] in {Pending, Skipped}
    requires t'.dispatches == t.dispatches + NewRows(job, added)
    ensures SameSets(t, t', j)
  {
    AddedAreNew(t, added);
  }

  /** The tables after an insertion of new rows together with their job. */
  ghost predicate Inserted(t: Tables, t': Tables, job: Key, read: Job, added: map<Key, Status>) {
    && added.Keys * t.dispatches.Keys == {} && job in t.jobs && t.jobs[job] == read
    && (forall id :: id in added ==> added[id] in {Pending, Skipped})
    && t' == Tables(t.jobs[job := read.(revision := read.revision + 1)], t.dispatches + NewRows(job, added))
  }

  lemma InsertKeepsJob(t: Tables, t': Tables, job: Key, read: Job, added: map<Key, Status>, j: Key)
    requires Inserted(t, t', job, read, added) && j in t.jobs && JobAgrees(t, j)
    ensures JobAgrees(t', j)
  {
    SetsAfterInsert(t, t', job, added, j);
    SameSetsAgree(t, t', j);
  }

  lemma InsertKeepsRow(t: Tables, t': Tables, job: Key, read: Job, added: map<Key, Status>, id: Key)
    requires Inserted(t, t', job, read, added) && id in t'.dispatches && (id in t.dispatches ==> RowSound(t, id))
    ensures RowSound(t', id)
  {
    AddedAreNew(t, added);
  }

  lemma InsertAgrees(t: Tables, t': Tables, job: Key, read: Job, added: map<Key, Status>)
    requires Agreement(t) && Inserted(t, t', job, read, added)
    ensures Agreement(t')
  {
    forall id | id in t'.dispatches ensures RowSound(t', id) {
      InsertKeepsRow(t, t', job, read, added, id);
    }
    forall j | j in t'.jobs ensures JobAgrees(t', j) {
      InsertKeepsJob(t, t', job, read, added, j);
    }
  }

  lemma MaterializeInserts(t: Tables, job: Key, read: Job, added: map<Key, Status>)
    requires job in t.jobs && t.jobs[job].revision == read.revision ==> t.jobs[job] == read
    requires forall id :: id in added ==> added[id] in {Pending, Skipped}
    ensures Materialize(t, job, read, added) == t || Inserted(t, Materialize(t, job, read, added), job, read, added)
  {
  }

  lemma MaterializeAgrees(t: Tables, job: Key, read: Job, added: map<Key, Status>)
    requires Agreement(t) && (job in t.jobs && t.jobs[job].revision == read.revision ==> t.jobs[job] == read)
    requires forall id :: id in added ==> added[id] in {Pending, Skipped}
    ensures Agreement(Materialize(t, job, read, added))
  {
    MaterializeInserts(t, job, read, added);
    var t' := Materialize(t, job, read, added);
    if t' != t {
      InsertAgrees(t, t', job, read, added);
    }
  }

  lemma ClaimKeepsJob(t: Tables, t': Tables, id: Key, d: Dispatch)
    requires id in t.dispatches && d.job == t.dispatches[id].job && d.job in t.jobs && JobAgrees(t, d.job)
    requires t' == t.(dispatches := t.dispatches[id := d])
    requires t.dispatches[id].status == Pending && d.status == Claimed && ActiveOf(t, d.job) == {}
    ensures JobAgrees(t', d.job)
  {
    SetsAfter(t, t', id, d, d.job);
    WithFacts(ActiveOf(t, d.job), id, true);
    WithFacts(BoundOf(t, d.job), id, false);
    CountsKept(t, t', id, d);
  }

  lemma ClaimAgrees(t: Tables, job: Key, id: Key, token: Key)
    requires Agreement(t)
    ensures Agreement(Claim(t, job, id, token))
  {
    var t' := Claim(t, job, id, token);
    if CanClaim(t, job, id) {
      var d := t'.dispatches[id];
      assert RowSound(t, id) && JobAgrees(t, job);
      ClaimKeepsJob(t, t', id, d);
      assert t.jobs[job := t.jobs[job]] == t.jobs;
      OneRowWritten(t, t', id, d, t.jobs[job]);
    }
  }

  lemma BindKeepsJob(t: Tables, t': Tables, id: Key, d: Dispatch, job: Job)
    requires id in t.dispatches && d.job == t.dispatches[id].job && d.job in t.jobs && JobAgrees(t, d.job)
    requires t' == Tables(t.jobs[d.job := job], t.dispatches[id := d])
    requires t.dispatches[id].status == Claimed && d.status == Running
    requires job == t.jobs[d.job].(current := Some(id), revision := job.revision)
    ensures JobAgrees(t', d.job)
  {
    SetsAfter(t, t', id, d, d.job);
    BoundIsActive(t, d.job, id);
    WithFacts(ActiveOf(t, d.job), id, true);
    WithFacts(BoundOf(t, d.job), id, true);
    CountsKept(t, t', id, d);
  }

  lemma BindAgrees(t: Tables, id: Key, selected: Dispatch, read: Job, token: Key, run: Key)
    requires Agreement(t)
    requires Unchanged(t, id, selected, read) ==> t.dispatches[id] == selected && t.jobs[selected.job] == read
    ensures Agreement(Bind(t, id, selected, read, token, run))
  {
    var t' := Bind(t, id, selected, read, token, run);
    if selected.status == Claimed && selected.token == Some(token) && read.state != Deleted
       && Unchanged(t, id, selected, read) {
      var d, j := t'.dispatches[id], selected.job;
      assert RowSound(t, id) && JobAgrees(t, j);
      BindKeepsJob(t, t', id, d, t'.jobs[j]);
      OneRowWritten(t, t', id, d, t'.jobs[j]);
    }
  }

  /** A claimed dispatch excludes a bound one. */
  lemma BoundIsActive(t: Tables, j: Key, id: Key)
    requires AtMostOne(ActiveOf(t, j)) && id in t.dispatches && t.dispatches[id].job == j && t.dispatches[id].status == Claimed
    ensures BoundOf(t, j) == {} && id in ActiveOf(t, j) && id !in FinishedOf(t, j)
  {
    assert id in ActiveOf(t, j);
    assert BoundOf(t, j) <= ActiveOf(t, j);
    assert BoundOf(t, j) <= {id};
  }

  lemma TerminalAgrees(t: Tables, id: Key, selected: Dispatch, read: Job, r: Result)
    requires Agreement(t)
    requires Unchanged(t, id, selected, read) ==> t.dispatches[id] == selected && t.jobs[selected.job] == read
    ensures Agreement(Terminal(t, id, selected, read, r))
  {
    var t' := Terminal(t, id, selected, read, r);
    if Bound(selected) && Unchanged(t, id, selected, read) {
      var d, j := t'.dispatches[id], selected.job;
      assert RowSound(t, id) && JobAgrees(t, j);
      TerminalKeepsSlot(t, t', id, d);
      TerminalKeepsCounts(t, t', id, d, r);
      OneRowWritten(t, t', id, d, t'.jobs[j]);
    }
  }

  lemma TerminalKeepsSlot(t: Tables, t': Tables, id: Key, d: Dispatch)
    requires id in t.dispatches && d.job == t.dispatches[id].job && t'.dispatches == t.dispatches[id := d]
    requires d.job in t.jobs && d.job in t'.jobs && SlotAgrees(t, d.job) && t'.jobs[d.job].current.None?
    requires Bound(t.dispatches[id]) && Finished(d)
    ensures SlotAgrees(t', d.job) && ActiveOf(t', d.job) == {}
  {
    SetsAfter(t, t', id, d, d.job);
    BoundSets(t, d.job, id);
    WithFacts(ActiveOf(t, d.job), id, false);
    WithFacts(BoundOf(t, d.job), id, false);
  }

  lemma TerminalKeepsCounts(t: Tables, t': Tables, id: Key, d: Dispatch, r: Result)
    requires id in t.dispatches && d.job == t.dispatches[id].job && t'.dispatches == t.dispatches[id := d]
    requires d.job in t.jobs && d.job in t'.jobs && CountsAgree(t, d.job) && t'.jobs[d.job] == Settled(t.jobs[d.job], r)
    requires Bound(t.dispatches[id]) && Finished(d) && d.status == StatusOf(r)
    ensures CountsAgree(t', d.job)
  {
    SetsAfter(t, t', id, d, d.job);
    WithFacts(FinishedOf(t, d.job), id, true);
    WithFacts(UnsuccessfulOf(t, d.job), id, r != Success);
  }

  lemma BoundSets(t: Tables, j: Key, id: Key)
    requires AtMostOne(ActiveOf(t, j)) && id in t.dispatches && t.dispatches[id].job == j && Bound(t.dispatches[id])
    ensures id in ActiveOf(t, j) && id in BoundOf(t, j) && id !in FinishedOf(t, j) && AtMostOne(BoundOf(t, j))
  {
    assert forall x :: x in BoundOf(t, j) ==> x in ActiveOf(t, j);
  }

  lemma ReplaceAgrees(t: Tables, id: Key, selected: Dispatch, status: Status)
    requires Agreement(t)
    requires id in t.dispatches && t.dispatches[id].revision == selected.revision ==> t.dispatches[id] == selected
    requires (selected.status in {Pending, Claimed} && status == Cancelled) || (Bound(selected) && status == RecoveryRequired)
    ensures Agreement(Replace(t, id, selected, status))
  {
    var t' := Replace(t, id, selected, status);
    if id in t.dispatches && t.dispatches[id].revision == selected.revision {
      var d, j := t'.dispatches[id], selected.job;
      assert RowSound(t, id) && JobAgrees(t, j);
      assert RowSound(t', id);
      ReplaceKeepsJob(t, t', id, d);
      assert t.jobs[j := t.jobs[j]] == t.jobs;
      OneRowWritten(t, t', id, d, t.jobs[j]);
    }
  }

  /** A row that stays on the same side of bound, and leaves no finished run, keeps its job's agreement. */
  lemma ReplaceKeepsJob(t: Tables, t': Tables, id: Key, d: Dispatch)
    requires id in t.dispatches && d.job == t.dispatches[id].job && d.job in t.jobs && JobAgrees(t, d.job)
    requires t' == t.(dispatches := t.dispatches[id := d])
    requires Bound(d) == Bound(t.dispatches[id]) && !Finished(d) && !Finished(t.dispatches[id])
    requires Active(d) ==> Active(t.dispatches[id])
    ensures JobAgrees(t', d.job)
  {
    var j := d.job;
    SetsAfter(t, t', id, d, j);
    WithFacts(ActiveOf(t, j), id, Active(d));
    WithFacts(BoundOf(t, j), id, Bound(d));
    CountsKept(t, t', id, d);
  }

  lemma EditAgrees(t: Tables, job: Key, read: Job, state: JobState, once: bool)
    requires Agreement(t) && (job in t.jobs && t.jobs[job].revision == read.revision ==> t.jobs[job] == read)
    ensures Agreement(Edit(t, job, read, state, once))
  {
    var t' := Edit(t, job, read, state, once);
    forall id | id in t'.dispatches ensures RowSound(t', id) {
      assert RowSound(t, id);
    }
    forall j | j in t'.jobs ensures JobAgrees(t', j) {
      SameRowsSameSets(t, t', j);
      SameSetsAgree(t, t', j);
    }
  }

  lemma SameRowsSameSets(t: Tables, t': Tables, j: Key)
    requires t.dispatches == t'.dispatches
    ensures SameSets(t, t', j)
  {
  }

  lemma CreateAgrees(t: Tables, job: Key, once: bool)
    requires Agreement(t)
    ensures Agreement(Create(t, job, once))
  {
    var t' := Create(t, job, once);
    if t' != t {
      forall id | id in t'.dispatches ensures RowSound(t', id) && t.dispatches[id].job != job {
        assert RowSound(t, id);
      }
      forall j | j in t'.jobs ensures JobAgrees(t', j) {
        SameRowsSameSets(t, t', j);
        if j == job {
          assert ActiveOf(t', j) == {} && BoundOf(t', j) == {} && FinishedOf(t', j) == {} && UnsuccessfulOf(t', j) == {};
        } else {
          SameSetsAgree(t, t', j);
        }
      }
    }
  }

  // ---- runs: workers act on whatever they read, whenever they read it -----------------------

  /** The tables with every row version that some worker has read. */
  datatype World = World(tables: Tables, jobsRead: set<(Key, Job)>, dispatchesRead: set<(Key, Dispatch)>)

  datatype Act =
    | LookJob(job: Key)
    | LookDispatch(id: Key)
    | DoCreate(job: Key, once: bool)
    | DoMaterialize(job: Key, read: Job, added: map<Key, Status>)
    | DoClaim(job: Key, id: Key, token: Key)
    | DoBind(id: Key, selected: Dispatch, read: Job, token: Key, run: Key)
    | DoTerminal(id: Key, selected: Dispatch, read: Job, result: Result)
    | DoCancel(id: Key, selected: Dispatch)
    | DoRecovery(id: Key, selected: Dispatch)
    | DoEdit(job: Key, read: Job, state: JobState, once: bool)

  /** A worker computes its write only from rows it has read. */
  predicate Informed(w: World, a: Act) {
    match a
    case DoMaterialize(job, read, added) =>
      (job, read) in w.jobsRead && forall id :: id in added ==> added[id] in {Pending, Skipped}
    case DoBind(id, selected, read, _, _) => (id, selected) in w.dispatchesRead && (selected.job, read) in w.jobsRead
    case DoTerminal(id, selected, read, _) => (id, selected) in w.dispatchesRead && (selected.job, read) in w.jobsRead
    case DoCancel(id, selected) => (id, selected) in w.dispatchesRead
    case DoRecovery(id, selected) => (id, selected) in w.dispatchesRead
    case DoEdit(job, read, _, _) => (job, read) in w.jobsRead
    case _ => true
  }

  function Written(t: Tables, a: Act): Tables {
    match a
    case LookJob(_) => t
    case LookDispatch(_) => t
    case DoCreate(job, once) => Create(t, job, once)
    case DoMaterialize(job, read, added) => Materialize(t, job, read, added)
    case DoClaim(job, id, token) => Claim(t, job, id, token)
    case DoBind(id, selected, read, token, run) => Bind(t, id, selected, read, token, run)
    case DoTerminal(id, selected, read, r) => Terminal(t, id, selected, read, r)
    case DoCancel(id, selected) => CancelUnbound(t, id, selected)
    case DoRecovery(id, selected) => MarkRecovery(t, id, selected)
    case DoEdit(job, read, state, once) => Edit(t, job, read, state, once)
  }

  function Next(w: World, a: Act): World {
    if !Informed(w, a) then w
    else match a
      case LookJob(j) => if j in w.tables.jobs then w.(jobsRead := w.jobsRead + {(j, w.tables.jobs[j])}) else w
      case LookDispatch(d) =>
        if d in w.tables.dispatches then w.(dispatchesRead := w.dispatchesRead + {(d, w.tables.dispatches[d])}) else w
      case _ => w.(tables := Written(w.tables, a))
  }

  /** Revisions identify versions: a version that was read is the present one or an older one. */
  ghost predicate ReadsValid(w: World) {
    && (forall j, v :: (j, v) in w.jobsRead ==>
          j in w.tables.jobs && v.revision <= w.tables.jobs[j].revision
          && (v.revision == w.tables.jobs[j].revision ==> v == w.tables.jobs[j]))
    && (forall d, v :: (d, v) in w.dispatchesRead ==>
          d in w.tables.dispatches && v.revision <= w.tables.dispatches[d].revision
          && (v.revision == w.tables.dispatches[d].revision ==> v == w.tables.dispatches[d]))
  }

  /** Every write raises the revision of each row it changes, and deletes none. */
  predicate RaisesRevisions(t: Tables, t': Tables) {
    && (forall j :: j in t.jobs ==> j in t'.jobs && (t'.jobs[j] == t.jobs[j] || t'.jobs[j].revision > t.jobs[j].revision))
    && (forall d :: d in t.dispatches ==>
          d in t'.dispatches && (t'.dispatches[d] == t.dispatches[d] || t'.dispatches[d].revision > t.dispatches[d].revision))
  }

  lemma WritesRaiseRevisions(w: World, a: Act)
    requires ReadsValid(w) && Informed(w, a)
    ensures RaisesRevisions(w.tables, Written(w.tables, a))
  {
    if a.DoMaterialize? && a.added.Keys * w.tables.dispatches.Keys == {} {
      AddedAreNew(w.tables, a.added);
    }
  }

  lemma NextAgrees(w: World, a: Act)
    requires Agreement(w.tables) && ReadsValid(w)
    ensures Agreement(Next(w, a).tables)
  {
    if Informed(w, a) {
      match a
      case DoCreate(job, once) => CreateAgrees(w.tables, job, once);
      case DoMaterialize(job, read, added) => MaterializeAgrees(w.tables, job, read, added);
      case DoClaim(job, id, token) => ClaimAgrees(w.tables, job, id, token);
      case DoBind(id, selected, read, token, run) => BindAgrees(w.tables, id, selected, read, token, run);
      case DoTerminal(id, selected, read, r) => TerminalAgrees(w.tables, id, selected, read, r);
      case DoCancel(id, selected) =>
        if selected.status in {Pending, Claimed} {
          ReplaceAgrees(w.tables, id, selected, Cancelled);
        }
      case DoRecovery(id, selected) =>
        if Bound(selected) {
          ReplaceAgrees(w.tables, id, selected, RecoveryRequired);
        }
      case DoEdit(job, read, state, once) => EditAgrees(w.tables, job, read, state, once);
      case _ =>
    }
  }

  lemma NextReadsValid(w: World, a: Act)
    requires ReadsValid(w)
    ensures ReadsValid(Next(w, a))
  {
    if Informed(w, a) && !a.LookJob? && !a.LookDispatch? {
      WritesRaiseRevisions(w, a);
    }
  }

  function Trace(w: World, acts: seq<Act>): World
    decreases |acts|
  {
    if acts == [] then w else Trace(Next(w, acts[0]), acts[1..])
  }

  /** The tables agree in every reachable state, whatever rows the racing workers had read. */
  lemma {:induction false} TablesAgree(w: World, acts: seq<Act>)
    requires Agreement(w.tables) && ReadsValid(w)
    ensures Agreement(Trace(w, acts).tables)
    decreases |acts|
  {
    if acts != [] {
      NextAgrees(w, acts[0]);
      NextReadsValid(w, acts[0]);
      TablesAgree(Next(w, acts[0]), acts[1..]);
    }
  }

  /** A finished dispatch is final, and what a row's run is never changes once it is bound. */
  lemma FinishedIsFinal(w: World, a: Act, id: Key)
    requires ReadsValid(w) && id in w.tables.dispatches && RowSound(w.tables, id)
    ensures id in Next(w, a).tables.dispatches
    ensures w.tables.dispatches[id].status in {Succeeded, Failed, Cancelled, Skipped} ==>
              Next(w, a).tables.dispatches[id] == w.tables.dispatches[id]
    ensures w.tables.dispatches[id].run.Some? ==>
              Next(w, a).tables.dispatches[id].run == w.tables.dispatches[id].run
  {
    if a.DoMaterialize? && a.added.Keys * w.tables.dispatches.Keys == {} {
      AddedAreNew(w.tables, a.added);
    }
  }

  // ---- what the counters of a job say about its runs ------------------------------------------

  /** The result that an act settles for a job, if it settles one. */
  function SettledBy(w: World, a: Act, job: Key): Option<Result> {
    if a.DoTerminal? && Informed(w, a) && a.selected.job == job && Bound(a.selected)
       && Unchanged(w.tables, a.id, a.selected, a.read)
    then Some(a.result) else None
  }

  /** The results settled for a job, in order. */
  function ResultsOf(w: World, acts: seq<Act>, job: Key): seq<Result>
    decreases |acts|
  {
    if acts == [] then []
    else
      var rest := ResultsOf(Next(w, acts[0]), acts[1..], job);
      if SettledBy(w, acts[0], job).Some? then [SettledBy(w, acts[0], job).value] + rest else rest
  }

  function CountUnsuccessful(rs: seq<Result>): nat {
    if rs == [] then 0 else CountUnsuccessful(rs[1..]) + if rs[0] == Success then 0 else 1
  }

  /** The failures since the last success, after before of them. */
  function SinceSuccess(before: nat, rs: seq<Result>): nat
    decreases |rs|
  {
    if rs == [] then before else SinceSuccess(if rs[0] == Success then 0 else before + 1, rs[1..])
  }

  /** That is what it counts: n failures with none between them and the end but failures. */
  lemma {:induction false} SinceSuccessCounts(before: nat, rs: seq<Result>)
    ensures var n := SinceSuccess(before, rs);
            if Success in rs then
              && n < |rs| && rs[|rs| - n - 1] == Success && (forall i :: |rs| - n <= i < |rs| ==> rs[i] != Success)
            else n == before + |rs|
    decreases |rs|
  {
    if rs != [] {
      var before' := if rs[0] == Success then 0 else before + 1;
      SinceSuccessCounts(before', rs[1..]);
      assert rs == [rs[0]] + rs[1..];
    }
  }

  lemma ActSettles(w: World, a: Act, job: Key)
    requires ReadsValid(w) && job in w.tables.jobs
    ensures var was, now, r := w.tables.jobs[job], Next(w, a).tables.jobs, SettledBy(w, a, job);
            && job in now
            && (r.None? ==> now[job].runCount == was.runCount && now[job].failureCount == was.failureCount
                            && now[job].consecutive == was.consecutive)
            && (r.Some? ==> now[job].runCount == was.runCount + 1
                            && now[job].failureCount == was.failureCount + (if r.value == Success then 0 else 1)
                            && now[job].consecutive == (if r.value == Success then 0 else was.consecutive + 1)
                            && now[job].state == (if was.once && r.value == Success then Completed else was.state))
  {
  }

  /** The counters of a job count the runs settled for it, those that did not succeed, and those
      since the last success, over every interleaving of workers with whatever they had read. */
  lemma {:induction false} CountersFollowResults(w: World, acts: seq<Act>, job: Key)
    requires ReadsValid(w) && job in w.tables.jobs
    ensures var was, now, rs := w.tables.jobs[job], Trace(w, acts).tables.jobs, ResultsOf(w, acts, job);
            && job in now
            && now[job].runCount == was.runCount + |rs|
            && now[job].failureCount == was.failureCount + CountUnsuccessful(rs)
            && now[job].consecutive == SinceSuccess(was.consecutive, rs)
    decreases |acts|
  {
    if acts != [] {
      ActSettles(w, acts[0], job);
      NextReadsValid(w, acts[0]);
      CountersFollowResults(Next(w, acts[0]), acts[1..], job);
      var rest := ResultsOf(Next(w, acts[0]), acts[1..], job);
      if SettledBy(w, acts[0], job).Some? {
        assert ([SettledBy(w, acts[0], job).value] + rest)[1..] == rest;
      }
    }
  }

  /** The store settles a bound dispatch that nobody has written since: it gets the status of the
      result, frees its job, and a success completes a job that runs once; nothing else changes. */
  lemma SettlingEndsTheRun(t: Tables, id: Key, r: Result)
    requires Agreement(t) && id in t.dispatches && Bound(t.dispatches[id])
    ensures var d := t.dispatches[id];
            d.job in t.jobs
            && var t' := Terminal(t, id, d, t.jobs[d.job], r);
               && (t'.dispatches[id].status == Succeeded <==> r == Success) && Finished(t'.dispatches[id])
               && t'.dispatches[id].run == d.run && ActiveOf(t', d.job) == {} && t'.jobs[d.job].current.None?
               && (t'.jobs[d.job].state == Completed <==> (t.jobs[d.job].once && r == Success) || t.jobs[d.job].state == Completed)
               && (forall x :: x in t.dispatches && x != id ==> x in t'.dispatches && t'.dispatches[x] == t.dispatches[x])
               && (forall j :: j in t.jobs && j != d.job ==> j in t'.jobs && t'.jobs[j] == t.jobs[j])
  {
    assert RowSound(t, id);
    var d := t.dispatches[id];
    var t' := Terminal(t, id, d, t.jobs[d.job], r);
    assert JobAgrees(t, d.job);
    TerminalKeepsSlot(t, t', id, t'.dispatches[id]);
  }

  // ---- the life of one dispatch ---------------------------------------------------------------

  /** Everything but one row and one job is as it was. */
  predicate OthersKept(t: Tables, t': Tables, id: Key, job: Key) {
    && (forall x :: x in t.dispatches && x != id ==> x in t'.dispatches && t'.dispatches[x] == t.dispatches[x])
    && (forall j :: j in t.jobs && j != job ==> j in t'.jobs && t'.jobs[j] == t.jobs[j])
  }

  lemma ClaimTakes(t: Tables, job: Key, id: Key, token: Key)
    requires CanClaim(t, job, id)
    ensures var t' := Claim(t, job, id, token);
            && t'.jobs == t.jobs && OthersKept(t, t', id, job) && id in t'.dispatches
            && t'.dispatches[id] == t.dispatches[id].(status := Claimed, token := Some(token), revision := t.dispatches[id].revision + 1)
            && ActiveOf(t', job) == {id}
  {
    var t' := Claim(t, job, id, token);
    SetsAfter(t, t', id, t'.dispatches[id], job);
    WithFacts(ActiveOf(t, job), id, true);
  }

  lemma BindStarts(t: Tables, job: Key, id: Key, token: Key, run: Key)
    requires job in t.jobs && t.jobs[job].state != Deleted && id in t.dispatches
    requires t.dispatches[id].job == job && t.dispatches[id].status == Claimed && t.dispatches[id].token == Some(token)
    ensures var t' := Bind(t, id, t.dispatches[id], t.jobs[job], token, run);
            && OthersKept(t, t', id, job) && id in t'.dispatches && job in t'.jobs
            && t'.dispatches[id] == t.dispatches[id].(status := Running, run := Some(run), revision := t.dispatches[id].revision + 1)
            && t'.jobs[job] == t.jobs[job].(current := Some(id), revision := t.jobs[job].revision + 1)
  {
  }

  /** The row of a worker that claims, binds and settles it, each time from what is there. */
  function Served(t: Tables, job: Key, id: Key, token: Key, run: Key, r: Result): Tables
    requires CanClaim(t, job, id)
  {
    var t1 := Claim(t, job, id, token);
    var t2 := Bind(t1, id, t1.dispatches[id], t1.jobs[job], token, run);
    if id in t2.dispatches && job in t2.jobs then Terminal(t2, id, t2.dispatches[id], t2.jobs[job], r) else t2
  }

  /** It ends with its token, its run and the status of the result; the job counts it and is free
      again, and completed if it runs once and this was a success; nothing else has changed. */
  lemma OneDispatchLives(t: Tables, job: Key, id: Key, token: Key, run: Key, r: Result)
    requires CanClaim(t, job, id)
    ensures var t' := Served(t, job, id, token, run, r);
            && id in t'.dispatches && job in t'.jobs && OthersKept(t, t', id, job)
            && t'.dispatches[id] == Dispatch(job, StatusOf(r), Some(token), Some(run), t.dispatches[id].revision + 3)
            && t'.jobs[job].current.None? && t'.jobs[job].runCount == t.jobs[job].runCount + 1
            && t'.jobs[job].failureCount == t.jobs[job].failureCount + (if r == Success then 0 else 1)
            && (t'.jobs[job].state == Scheduled <==> !(t.jobs[job].once && r == Success))
  {
    ClaimTakes(t, job, id, token);
    var t1 := Claim(t, job, id, token);
    BindStarts(t1, job, id, token, run);
  }

  /** A job is created once, scheduled, with nothing run; creating it again changes nothing. */
  lemma JobsAreCreatedOnce(t: Tables, job: Key, once: bool, again: bool)
    ensures var t' := Create(t, job, once);
            && Create(t', job, again) == t' && t'.dispatches == t.dispatches && job in t'.jobs
            && (forall j :: j in t.jobs ==> j in t'.jobs && t'.jobs[j] == t.jobs[j])
            && (job !in t.jobs ==>
                  && t'.jobs[job].state == Scheduled && t'.jobs[job].once == once && t'.jobs[job].current.None?
                  && t'.jobs[job].runCount == t'.jobs[job].failureCount == t'.jobs[job].consecutive == 0)
  {
  }

  /** A new row of an idle job can be claimed if and only if it is pending. */
  lemma MaterializedRowsCanBeClaimed(t: Tables, job: Key, added: map<Key, Status>, id: Key)
    requires job in t.jobs && t.jobs[job].state == Scheduled && t.jobs[job].current.None? && ActiveOf(t, job) == {}
    requires added.Keys * t.dispatches.Keys == {} && (forall x :: x in added ==> added[x] in {Pending, Skipped}) && id in added
    ensures var t' := Materialize(t, job, t.jobs[job], added);
            && (CanClaim(t', job, id) <==> added[id] == Pending)
            && (forall x :: x in t'.dispatches <==> x in t.dispatches || x in added)
  {
    var t' := Materialize(t, job, t.jobs[job], added);
    SetsAfterInsert(t, t', job, added, job);
  }

  /** A job that is paused, completed or removed starts nothing, until it is scheduled again; a job
      with a dispatch in flight starts no other. */
  lemma StoppedJobsStartNothing(t: Tables, job: Key, state: JobState, once: bool, id: Key, token: Key)
    requires job in t.jobs
    ensures var t' := Edit(t, job, t.jobs[job], state, once);
            && job in t'.jobs && t'.jobs[job].state == state && t'.jobs[job].once == once
            && (Claim(t', job, id, token) != t' <==>
                  state == Scheduled && t.jobs[job].current.None? && ActiveOf(t, job) == {}
                  && id in t.dispatches && t.dispatches[id].job == job && t.dispatches[id].status == Pending)
  {
    var t' := Edit(t, job, t.jobs[job], state, once);
    SameRowsSameSets(t, t', job);
    if CanClaim(t', job, id) {
      assert Claim(t', job, id, token).dispatches[id].status == Claimed;
    }
  }

  /** A row that has not been bound can be cancelled, and a bound one be marked for recovery; no
      other row can, and then nothing changes. */
  lemma CancelOrRecover(t: Tables, id: Key)
    requires id in t.dispatches
    ensures var d := t.dispatches[id];
            var c, m := CancelUnbound(t, id, d), MarkRecovery(t, id, d);
            && (if d.status in {Pending, Claimed} then c.jobs == t.jobs && OthersKept(t, c, id, d.job) && c.dispatches[id] == d.(status := Cancelled, revision := d.revision + 1)
                else c == t)
            && (if Bound(d) then m.jobs == t.jobs && OthersKept(t, m, id, d.job) && m.dispatches[id] == d.(status := RecoveryRequired, revision := d.revision + 1)
                else m == t)
  {
  }

  // ---- the store -----------------------------------------------------------------------

  class Store {
    var jobs: map<Key, Job>
    var dispatches: map<Key, Dispatch>

    ghost function View(): Tables
      reads this
    {
      Tables(jobs, dispatches)
    }

    constructor ()
      ensures View() == Tables(map[], map[]) && Agreement(View())
    {
      jobs, dispatches := map[], map[];
    }

    method DueMaterialize(job: Key, read: Job, added: map<Key, Status>) returns (ok: bool)
      modifies this
      ensures View() == Materialize(old(View()), job, read, added)
      ensures ok <==> job in old(jobs) && old(jobs)[job].revision == read.revision && added.Keys * old(dispatches).Keys == {}
    {
      if job !in jobs || jobs[job].revision != read.revision {
        return false;
      }
      if added.Keys * dispatches.Keys != {} {
        return false;
      }
      dispatches := dispatches + NewRows(job, added);
      jobs := jobs[job := read.(revision := read.revision + 1)];
      return true;
    }

    /** pick is the pending row that the ordered query returns, if there is one. */
    method ClaimNext(job: Key, pick: Option<Key>, token: Key) returns (claimed: Option<Dispatch>)
      requires pick.Some? ==> pick.value in dispatches && dispatches[pick.value].job == job && dispatches[pick.value].status == Pending
      modifies this`dispatches
      ensures pick.Some? ==> View() == Claim(old(View()), job, pick.value, token)
      ensures claimed.Some? <==> pick.Some? && CanClaim(old(View()), job, pick.value)
      ensures claimed.Some? ==> dispatches[pick.value] == claimed.value
      ensures claimed.None? ==> View() == old(View())
    {
      if job !in jobs || jobs[job].state in {Paused, Completed, Deleted} || jobs[job].current.Some? || pick.None? {
        return None;
      }
      var held := set id | id in dispatches && dispatches[id].job == job && Active(dispatches[id]);
      assert held == ActiveOf(View(), job);
      if held != {} {
        return None;
      }
      var before := dispatches[pick.value];
      var after := before.(status := Claimed, token := Some(token), revision := before.revision + 1);
      dispatches := dispatches[pick.value := after];
      return Some(after);
    }

    method BindRunning(id: Key, selected: Dispatch, read: Job, token: Key, run: Key) returns (ok: bool)
      modifies this
      ensures View() == Bind(old(View()), id, selected, read, token, run)
      ensures ok <==> selected.status == Claimed && selected.token == Some(token) && read.state != Deleted
                      && Unchanged(old(View()), id, selected, read)
    {
      if selected.status != Claimed || selected.token != Some(token) || read.state == Deleted {
        return false;
      }
      if id !in dispatches || dispatches[id].revision != selected.revision {
        return false;
      }
      if selected.job !in jobs || jobs[selected.job].revision != read.revision {
        return false;
      }
      dispatches := dispatches[id := selected.(status := Running, run := Some(run), revision := selected.revision + 1)];
      jobs := jobs[selected.job := read.(current := Some(id), revision := read.revision + 1)];
      return true;
    }

    method MarkTerminal(id: Key, selected: Dispatch, read: Job, r: Result) returns (ok: bool)
      modifies this
      ensures View() == Terminal(old(View()), id, selected, read, r)
      ensures ok <==> Bound(selected) && Unchanged(old(View()), id, selected, read)
    {
      if selected.status !in {Running, RecoveryRequired} {
        return false;
      }
      if id !in dispatches || dispatches[id].revision != selected.revision {
        return false;
      }
      if selected.job !in jobs || jobs[selected.job].revision != read.revision {
        return false;
      }
      var success := r == Success;
      dispatches := dispatches[id := selected.(status := StatusOf(r), revision := selected.revision + 1)];
      jobs := jobs[selected.job := read.(
        state := if read.once && success then Completed else read.state,
        current := None,
        runCount := read.runCount + 1,
        failureCount := read.failureCount + (if success then 0 else 1),
        consecutive := if success then 0 else read.consecutive + 1,
        revision := read.revision + 1)];
      return true;
    }

    method ReplaceDispatch(id: Key, selected: Dispatch, status: Status) returns (ok: bool)
      modifies this`dispatches
      ensures View() == Replace(old(View()), id, selected, status)
      ensures ok <==> id in old(dispatches) && old(dispatches)[id].revision == selected.revision
    {
      if id !in dispatches || dispatches[id].revision != selected.revision {
        return false;
      }
      dispatches := dispatches[id := selected.(status := status, revision := selected.revision + 1)];
      return true;
    }

    method CancelUnboundDispatch(id: Key, selected: Dispatch) returns (ok: bool)
      modifies this`dispatches
      ensures View() == CancelUnbound(old(View()), id, selected)
    {
      ok := true;
      if selected.status in {Pending, Claimed} {
        ok := ReplaceDispatch(id, selected, Cancelled);
      }
    }

    method MarkRecoveryRequired(id: Key, selected: Dispatch) returns (ok: bool)
      modifies this`dispatches
      ensures View() == MarkRecovery(old(View()), id, selected)
    {
      ok := true;
      if selected.status !in {Claimed, Running, RecoveryRequired} || selected.status == Claimed {
        return;
      }
      ok := ReplaceDispatch(id, selected, RecoveryRequired);
    }

    method SaveJob(job: Key, read: Job, state: JobState, once: bool) returns (ok: bool)
      modifies this`jobs
      ensures View() == Edit(old(View()), job, read, state, once)
      ensures ok <==> job in old(jobs) && old(jobs)[job].revision == read.revision
    {
      ok := job in jobs && jobs[job].revision == read.revision;
      if ok {
        jobs := jobs[job := read.(state := state, once := once, revision := read.revision + 1)];
      }
    }
  }
}
