/** The maintenance lifecycle: its states, its transition table and its durable history
    (backup/lifecycle_store.py, backup/maintenance.py). */
module Lifecycle {
  datatype Phase = Running | Quiescing | Quiesced | Restoring | Resuming | Broken

  datatype Snapshot = Snapshot(phase: Phase, epoch: nat, revision: nat)

  datatype Row = Row(revision: nat, source: Phase, snapshot: Snapshot)

  datatype Store = Store(snapshot: Snapshot, rows: seq<Row>)

  const INITIAL := Snapshot(Running, 0, 0)

  function Targets(p: Phase): set<Phase> {
    match p
    case Running => {Quiescing, Broken}
    case Quiescing => {Quiesced, Broken}
    case Quiesced => {Restoring, Resuming, Broken}
    case Restoring => {Resuming, Broken}
    case Resuming => {Running, Broken}
    case Broken => {Quiescing, Resuming}
  }

  /** The table: a freeze goes round from running to running, with a restore or without; anything
      but what is broken can break, and what is broken can freeze again or resume. */
  lemma TheTableIsACycle(p: Phase, q: Phase)
    ensures q in Targets(p) <==>
              || (p == Running && q == Quiescing) || (p == Quiescing && q == Quiesced)
              || (p == Quiesced && q in {Restoring, Resuming}) || (p == Restoring && q == Resuming)
              || (p == Resuming && q == Running)
              || (q == Broken && p != Broken) || (p == Broken && q in {Quiescing, Resuming})
  {
  }

  /** The snapshot a transition publishes: entering QUIESCING opens the epoch that the caller names. */
  function Advance(s: Snapshot, target: Phase, epoch: nat): Snapshot {
    Snapshot(target, if target == Quiescing then epoch else s.epoch, s.revision + 1)
  }

  /** The callers that enter QUIESCING name an epoch beyond the present one. */
  predicate MayOpen(s: Snapshot, target: Phase, epoch: nat) {
    target == Quiescing ==> epoch > s.epoch
  }

  /** save(): the snapshot and its row are published together, or not at all. */
  function Published(st: Store, previous: Snapshot, current: Snapshot): Store {
    if st.snapshot.revision != previous.revision then st
    else Store(current, st.rows + [Row(current.revision, previous.phase, current)])
  }

  /** Two kinds of step of a process: read the snapshot; or check a transition against the
      snapshot it read, however old that is, and try to save it. */
  datatype Act = Read(pid: nat) | Try(pid: nat, target: Phase, epoch: nat)

  datatype World = World(store: Store, held: map<nat, Snapshot>)

  function Next(w: World, a: Act): World {
    match a
    case Read(p) => w.(held := w.held[p := w.store.snapshot])
    case Try(p, target, epoch) =>
      if p in w.held && target in Targets(w.held[p].phase) && MayOpen(w.held[p], target, epoch)
      then w.(store := Published(w.store, w.held[p], Advance(w.held[p], target, epoch)))
      else w
  }

  function Trace(w: World, acts: seq<Act>): World
    decreases |acts|
  {
    if acts == [] then w else Trace(Next(w, acts[0]), acts[1..])
  }

  function SnapshotAt(st: Store, revision: nat): Snapshot
    requires revision <= |st.rows|
  {
    if revision == 0 then INITIAL else st.rows[revision - 1].snapshot
  }

  /** Row i leaves the state its predecessor entered, along an edge of the table. */
  predicate LegalRow(st: Store, i: nat)
    requires i < |st.rows|
  {
    var before, row := SnapshotAt(st, i), st.rows[i];
    && row.revision == i + 1
    && row.source == before.phase
    && row.snapshot.phase in Targets(row.source)
    && row.snapshot == Advance(before, row.snapshot.phase, row.snapshot.epoch)
    && MayOpen(before, row.snapshot.phase, row.snapshot.epoch)
  }

  /** The history is one legal path from the initial snapshot to the present one. */
  predicate LegalPath(st: Store) {
    && st.snapshot == SnapshotAt(st, |st.rows|)
    && forall i {:trigger LegalRow(st, i)} :: 0 <= i < |st.rows| ==> LegalRow(st, i)
  }

  /** What a process read is some snapshot of the past or the present. */
  predicate HeldFromHistory(w: World) {
    forall p :: p in w.held ==>
      w.held[p].revision <= |w.store.rows| && w.held[p] == SnapshotAt(w.store, w.held[p].revision)
  }

  lemma {:induction false} RevisionIsLength(st: Store, i: nat)
    requires LegalPath(st) && i <= |st.rows|
    ensures SnapshotAt(st, i).revision == i
  {
    if i > 0 {
      RevisionIsLength(st, i - 1);
      assert LegalRow(st, i - 1);
    }
  }

  lemma NextKeepsPath(w: World, a: Act)
    requires LegalPath(w.store) && HeldFromHistory(w)
    ensures LegalPath(Next(w, a).store) && HeldFromHistory(Next(w, a))
    ensures w.store.rows <= Next(w, a).store.rows
  {
    RevisionIsLength(w.store, |w.store.rows|);
    var w' := Next(w, a);
    if w'.store != w.store {
      var h := w.held[a.pid];
      assert h == w.store.snapshot;
      forall i | 0 <= i < |w'.store.rows|
        ensures LegalRow(w'.store, i)
      {
        assert SnapshotAt(w'.store, i) == SnapshotAt(w.store, i);
        assert i < |w.store.rows| ==> LegalRow(w.store, i);
      }
    }
  }

  /** However processes interleave reads, checks and saves on one store, its history stays
      a legal path numbered 1..n, and no row of it is ever changed. */
  lemma {:induction false} HistoryIsLegalPath(w: World, acts: seq<Act>)
    requires LegalPath(w.store) && HeldFromHistory(w)
    ensures LegalPath(Trace(w, acts).store) && w.store.rows <= Trace(w, acts).store.rows
    decreases |acts|
  {
    if acts != [] {
      NextKeepsPath(w, acts[0]);
      HistoryIsLegalPath(Next(w, acts[0]), acts[1..]);
    }
  }

  /** Epochs never go back, and two snapshots of the history share an epoch only if no
      QUIESCING was entered between them. */
  lemma {:induction false} EpochsCountFreezes(st: Store, i: nat, k: nat)
    requires LegalPath(st) && i <= k <= |st.rows|
    ensures SnapshotAt(st, i).epoch <= SnapshotAt(st, k).epoch
    ensures SnapshotAt(st, i).epoch == SnapshotAt(st, k).epoch <==>
              forall m :: i <= m < k ==> st.rows[m].snapshot.phase != Quiescing
    decreases k
  {
    if i < k {
      EpochsCountFreezes(st, i, k - 1);
      assert LegalRow(st, k - 1);
    }
  }

  /** The gateway comes back to running only by resuming, and resumes only from a drained freeze, a
      restore or a breakdown; a restore only ever begins in a drained freeze. */
  lemma RunningAgainMeansResumed(st: Store, i: nat)
    requires LegalPath(st) && i < |st.rows|
    ensures st.rows[i].snapshot.phase == Running ==>
              i > 0 && st.rows[i - 1].snapshot.phase == Resuming && st.rows[i - 1].source in {Quiesced, Restoring, Broken}
    ensures st.rows[i].snapshot.phase == Restoring ==> i > 0 && st.rows[i - 1].snapshot.phase == Quiesced
    ensures st.rows[i].snapshot.phase == Quiesced ==> i > 0 && st.rows[i - 1].snapshot.phase == Quiescing
  {
    assert LegalRow(st, i);
    if i > 0 {
      assert LegalRow(st, i - 1);
    }
  }

  class LifecycleStore {
    var snapshot: Snapshot
    var rows: seq<Row>

    ghost function View(): Store
      reads this
    {
      Store(snapshot, rows)
    }

    constructor ()
      ensures View() == Store(INITIAL, []) && LegalPath(View())
    {
      snapshot, rows := INITIAL, [];
    }

    method Read() returns (s: Snapshot)
      ensures s == snapshot
    {
      s := snapshot;
    }

    /** False stands for the conflict that save raises. */
    method Save(previous: Snapshot, current: Snapshot) returns (ok: bool)
      modifies this
      ensures View() == Published(old(View()), previous, current)
      ensures ok <==> old(snapshot).revision == previous.revision
    {
      ok := snapshot.revision == previous.revision;
      if ok {
        snapshot := current;
        rows := rows + [Row(current.revision, previous.phase, current)];
      }
    }
  }
}

/** Work leases against the lifecycle of one process (AgentHomeWriteGate). */
module WriteGate {
  import opened Wrappers
  import opened Lifecycle

  /** epoch is present on maintenance leases only. */
  datatype Lease = Lease(writer: string, epoch: Option<nat>, generation: nat, kind: string)

  datatype Gate = Gate(snapshot: Snapshot, active: map<nat, Lease>, fenced: bool)

  predicate Frozen(p: Phase) {
    p in {Quiesced, Restoring, Resuming}
  }

  /** current_scope: a scope counts only while its lease is live. */
  function Current(g: Gate, scope: Option<nat>): Option<Lease> {
    if scope.Some? then Lookup(g.active, scope.value) else None
  }

  predicate MayEnter(g: Gate, epoch: Option<nat>, continuation: bool, parent: Option<nat>) {
    && !g.fenced
    && if epoch.Some? then
         epoch.value == g.snapshot.epoch && g.snapshot.phase in {Quiescing, Quiesced, Restoring, Resuming}
       else
         g.snapshot.phase == Running
         || (continuation && Current(g, parent).Some? && g.snapshot.phase in {Quiescing, Broken})
  }

  predicate MayControl(g: Gate) {
    g.snapshot.phase in {Running, Quiescing, Broken}
  }

  predicate MayMutate(g: Gate, scope: Option<nat>) {
    && !g.fenced
    && (|| g.snapshot.phase == Running
        || (var c := Current(g, scope);
            c.Some? && if c.value.epoch.Some? then c.value.epoch.value == g.snapshot.epoch
                       else g.snapshot.phase in {Quiescing, Broken}))
  }

  predicate MayMove(g: Gate, source: Phase, target: Phase) {
    && g.snapshot.phase == source
    && target in Targets(source)
    && (target in {Quiesced, Resuming, Running} ==> g.active == map[])
  }

  /** What the bound store makes of a write: it is saved, another process was first, or it fails. */
  datatype Outcome = Saved | Conflict | Fault

  /** Every step of a gate. id is the identity a new lease draws; outcome says whether the
      store accepted the write. A database transaction holds the gate's lock from its check
      to its end, so it is one step and leaves no lease behind. */
  datatype Event =
    | Enter(id: nat, writer: string, kind: string, epoch: Option<nat>, continuation: bool, parent: Option<nat>)
    | Control(id: nat)
    | Leave(id: nat)
    | Transaction(scope: Option<nat>, readOnly: bool)
    | Shift(source: Phase, target: Phase, number: nat, outcome: Outcome)

  function Step(g: Gate, e: Event): Gate {
    match e
    case Enter(id, writer, kind, epoch, continuation, parent) =>
      if id !in g.active && MayEnter(g, epoch, continuation, parent)
      then g.(active := g.active[id := Lease(writer, epoch, g.snapshot.epoch, kind)])
      else g
    case Control(id) =>
      if id !in g.active && MayControl(g)
      then g.(active := g.active[id := Lease("existing-run-control", None, g.snapshot.epoch, "control")])
      else g
    case Leave(id) => g.(active := g.active - {id})
    case Transaction(_, _) => g
    case Shift(source, target, epoch, outcome) =>
      if !MayMove(g, source, target) || !MayOpen(g.snapshot, target, epoch) then g
      else match outcome
        case Saved => g.(snapshot := Advance(g.snapshot, target, epoch))
        case Conflict => g
        case Fault => g.(fenced := true)
  }

  function Steps(g: Gate, es: seq<Event>): Gate
    decreases |es|
  {
    if es == [] then g else Steps(Step(g, es[0]), es[1..])
  }

  predicate IsMaintenanceOf(l: Lease, epoch: nat) {
    l.epoch == Some(epoch)
  }

  predicate Exclusive(g: Gate) {
    && (forall id :: id in g.active && g.active[id].epoch.Some? ==> g.active[id].epoch.value <= g.snapshot.epoch)
    && (Frozen(g.snapshot.phase) ==> forall id :: id in g.active ==> IsMaintenanceOf(g.active[id], g.snapshot.epoch))
    && (g.snapshot.phase == Running ==> forall id :: id in g.active ==> g.active[id].epoch == None)
  }

  lemma StepKeepsExclusion(g: Gate, e: Event)
    requires Exclusive(g)
    ensures Exclusive(Step(g, e)) && g.snapshot.epoch <= Step(g, e).snapshot.epoch
  {
    var g' := Step(g, e);
    assert forall id :: id in g'.active && id in g.active ==> g'.active[id] == g.active[id];
  }

  /** What an open gate admits: while running, any new lease of ordinary work, as it asks for it, and
      any mutation; from the freeze on until it runs again, maintenance of the present epoch, and
      what that mutates; while draining also the continuations and the mutations of what is live; and
      control whenever it is not frozen. */
  lemma AnOpenGateAdmits(g: Gate, id: nat, writer: string, kind: string, continuation: bool, parent: Option<nat>, scope: Option<nat>)
    requires !g.fenced && id !in g.active
    ensures g.snapshot.phase == Running ==>
              && MayMutate(g, scope)
              && Step(g, Enter(id, writer, kind, None, continuation, parent)).active
                   == g.active[id := Lease(writer, None, g.snapshot.epoch, kind)]
    ensures g.snapshot.phase in {Quiescing, Quiesced, Restoring, Resuming} ==>
              var g' := Step(g, Enter(id, writer, kind, Some(g.snapshot.epoch), continuation, parent));
              g'.active == g.active[id := Lease(writer, Some(g.snapshot.epoch), g.snapshot.epoch, kind)] && MayMutate(g', Some(id))
    ensures g.snapshot.phase in {Quiescing, Broken} && scope.Some? && scope.value in g.active && g.active[scope.value].epoch.None? ==>
              && MayMutate(g, scope)
              && id in Step(g, Enter(id, writer, kind, None, true, scope)).active
    ensures id in Step(g, Control(id)).active <==> g.snapshot.phase !in {Quiesced, Restoring, Resuming}
    ensures Frozen(g.snapshot.phase) <==> g.snapshot.phase !in {Running, Quiescing, Broken}
  {
  }

  /** A fenced gate admits nothing but control, whatever its phase, and mutates nothing. */
  lemma {:induction false} AFencedGateAdmitsNothing(g: Gate, es: seq<Event>, scope: Option<nat>)
    requires g.fenced
    ensures var g' := Steps(g, es);
            g'.fenced && !MayMutate(g', scope) && forall epoch, continuation, parent :: !MayEnter(g', epoch, continuation, parent)
    decreases |es|
  {
    if es != [] {
      AFencedGateAdmitsNothing(Step(g, es[0]), es[1..], scope);
    }
  }

  /** A freeze can run its course: from a running gate without work it drains, lets maintenance in
      and out, and runs again one epoch on, as it was. */
  lemma AFreezeCanComplete(g: Gate, id: nat, writer: string, kind: string)
    requires !g.fenced && g.snapshot.phase == Running && g.active == map[]
    ensures var epoch := g.snapshot.epoch + 1;
            var frozen := Steps(g, [Shift(Running, Quiescing, epoch, Saved), Shift(Quiescing, Quiesced, 0, Saved)]);
            var working := Step(frozen, Enter(id, writer, kind, Some(epoch), false, None));
            var done := Steps(working, [Leave(id), Shift(Quiesced, Resuming, 0, Saved), Shift(Resuming, Running, 0, Saved)]);
            && Frozen(frozen.snapshot.phase) && !MayMutate(frozen, None) && frozen.snapshot.epoch == epoch
            && id in working.active && MayMutate(working, Some(id))
            && Step(working, Shift(Quiesced, Resuming, 0, Saved)) == working
            && done.snapshot.phase == Running && done.snapshot.epoch == epoch && done.active == map[] && !done.fenced
  {
    var epoch := g.snapshot.epoch + 1;
    var freeze := [Shift(Running, Quiescing, epoch, Saved), Shift(Quiescing, Quiesced, 0, Saved)];
    var thaw := [Leave(id), Shift(Quiesced, Resuming, 0, Saved), Shift(Resuming, Running, 0, Saved)];
    TwoSteps(g, freeze[0], freeze[1]);
    var frozen := Steps(g, freeze);
    var working := Step(frozen, Enter(id, writer, kind, Some(epoch), false, None));
    assert thaw == [thaw[0]] + [thaw[1], thaw[2]];
    assert thaw[1..] == [thaw[1], thaw[2]];
    TwoSteps(Step(working, thaw[0]), thaw[1], thaw[2]);
    assert working.active - {id} == map[];
  }

  lemma TwoSteps(g: Gate, a: Event, b: Event)
    ensures Steps(g, [a, b]) == Step(Step(g, a), b)
  {
    var g' := Step(g, a);
    assert [a, b][1..] == [b] && [b][1..] == [];
    assert Steps(g', [b]) == Steps(Step(g', b), []);
  }

  /** Freeze exclusion, over every interleaving: whatever is live while frozen is maintenance
      of the current epoch, and nothing live while running is maintenance. */
  lemma {:induction false} FreezeExclusion(g: Gate, es: seq<Event>)
    requires Exclusive(g)
    ensures Exclusive(Steps(g, es)) && g.snapshot.epoch <= Steps(g, es).snapshot.epoch
    decreases |es|
  {
    if es != [] {
      StepKeepsExclusion(g, es[0]);
      FreezeExclusion(Step(g, es[0]), es[1..]);
    }
  }

  /** A lease keeps the epoch it was admitted with for as long as it lives. */
  lemma {:induction false} LeaseIsFixed(g: Gate, es: seq<Event>, id: nat)
    requires id in g.active
    requires Leave(id) !in es
    ensures var g' := Steps(g, es); id in g'.active && g'.active[id] == g.active[id]
    decreases |es|
  {
    if es != [] {
      assert es[0] in es;
      LeaseIsFixed(Step(g, es[0]), es[1..], id);
    }
  }

  /** While frozen, every admitted mutation comes from a live maintenance lease of this epoch. */
  lemma FrozenMutationsAreMaintenance(g: Gate, es: seq<Event>, scope: Option<nat>)
    requires Exclusive(g) && Frozen(Steps(g, es).snapshot.phase) && MayMutate(Steps(g, es), scope)
    ensures var g' := Steps(g, es);
            Current(g', scope).Some? && IsMaintenanceOf(Current(g', scope).value, g'.snapshot.epoch)
  {
    FreezeExclusion(g, es);
  }

  /** A maintenance lease authorises nothing at a later epoch until the gateway runs again. */
  lemma StaleLeaseAuthorisesNothing(g: Gate, es: seq<Event>, id: nat)
    requires id in g.active && g.active[id].epoch.Some?
    requires g.active[id].epoch.value < Steps(g, es).snapshot.epoch
    requires Steps(g, es).snapshot.phase != Running
    requires Leave(id) !in es
    ensures !MayMutate(Steps(g, es), Some(id))
  {
    LeaseIsFixed(g, es, id);
  }

  predicate NeverRunning(g: Gate, es: seq<Event>)
    decreases |es|
  {
    g.snapshot.phase != Running && (es == [] || NeverRunning(Step(g, es[0]), es[1..]))
  }

  /** A lease that neither maintenance nor control was given, but the continuation of a live one. */
  predicate Continues(g: Gate, e: Event) {
    e.Enter? && e.epoch.None? && e.continuation && e.parent.Some? && e.parent.value in g.active
  }

  /** How a lease may be admitted outside RUNNING. */
  predicate AdmittedOutsideRunning(g: Gate, e: Event, id: nat) {
    || (e.Control? && e.id == id && !Frozen(g.snapshot.phase))
    || (e.Enter? && e.id == id && e.epoch == Some(g.snapshot.epoch))
    || (e.Enter? && e.id == id && Continues(g, e) && !Frozen(g.snapshot.phase))
  }

  lemma {:induction false} StepsSnoc(g: Gate, es: seq<Event>, e: Event)
    ensures Steps(g, es + [e]) == Step(Steps(g, es), e)
    ensures NeverRunning(g, es + [e]) ==> NeverRunning(g, es) && Steps(g, es).snapshot.phase != Running
    decreases |es|
  {
    if es == [] {
      assert [] + [e] == [e] && [e][1..] == [];
    } else {
      assert (es + [e])[1..] == es[1..] + [e];
      StepsSnoc(Step(g, es[0]), es[1..], e);
    }
  }

  /** No new workflow while the gateway is not running: over any events during which it never is,
      every lease that is live in the end was live at the start, or was admitted on the way as
      maintenance of its epoch, as control of existing work, or as the continuation of a lease
      that was live at that moment; and while frozen only as maintenance. */
  lemma {:induction false} NoNewWorkflowOutsideRunning(g: Gate, es: seq<Event>, id: nat)
    requires NeverRunning(g, es) && id in Steps(g, es).active
    ensures id in g.active || exists i :: 0 <= i < |es| && AdmittedOutsideRunning(Steps(g, es[..i]), es[i], id)
    decreases |es|
  {
    if es != [] {
      var n := |es| - 1;
      var front, e := es[..n], es[n];
      assert es == front + [e];
      StepsSnoc(g, front, e);
      if id in Steps(g, front).active {
        NoNewWorkflowOutsideRunning(g, front, id);
        if id !in g.active {
          var i :| 0 <= i < n && AdmittedOutsideRunning(Steps(g, front[..i]), front[i], id);
          assert front[..i] == es[..i] && front[i] == es[i];
        }
      } else {
        assert es[..n] == front && AdmittedOutsideRunning(Steps(g, front), e, id);
      }
    }
  }

  /** Once drained, always drained: with no lease live, and neither maintenance nor control
      admitted, none becomes live until the gateway runs again. */
  lemma {:induction false} DrainedStaysDrained(g: Gate, es: seq<Event>)
    requires g.active == map[] && NeverRunning(g, es)
    requires forall e :: e in es ==> !e.Control? && (e.Enter? ==> e.epoch.None?)
    ensures Steps(g, es).active == map[]
    decreases |es|
  {
    if es != [] {
      assert es[0] in es;
      DrainedStaysDrained(Step(g, es[0]), es[1..]);
    }
  }

  class AgentHomeWriteGate {
    var snapshot: Snapshot
    var active: map<nat, Lease>
    var fenced: bool

    ghost function View(): Gate
      reads this
    {
      Gate(snapshot, active, fenced)
    }

    constructor ()
      ensures View() == Gate(INITIAL, map[], false) && Exclusive(View())
    {
      snapshot, active, fenced := INITIAL, map[], false;
    }

    method CurrentScope(scope: Option<nat>) returns (l: Option<Lease>)
      ensures l == Current(View(), scope)
    {
      l := None;
      if scope.Some? && scope.value in active {
        l := Some(active[scope.value]);
      }
    }

    /** The admission half of work(). */
    method EnterWork(id: nat, writer: string, kind: string, epoch: Option<nat>, continuation: bool,
                     parent: Option<nat>) returns (ok: bool)
      requires id !in active
      modifies this`active
      ensures View() == Step(old(View()), Enter(id, writer, kind, epoch, continuation, parent))
      ensures ok <==> MayEnter(old(View()), epoch, continuation, parent)
    {
      var scope := CurrentScope(parent);
      if fenced {
        return false;
      }
      if epoch.Some? {
        if epoch.value != snapshot.epoch || snapshot.phase !in {Quiescing, Quiesced, Restoring, Resuming} {
          return false;
        }
      } else if snapshot.phase != Running {
        if !continuation || scope.None? || snapshot.phase !in {Quiescing, Broken} {
          return false;
        }
      }
      active := active[id := Lease(writer, epoch, snapshot.epoch, kind)];
      return true;
    }

    method EnterControl(id: nat) returns (ok: bool)
      requires id !in active
      modifies this`active
      ensures View() == Step(old(View()), Control(id))
      ensures ok <==> MayControl(old(View()))
    {
      ok := snapshot.phase in {Running, Quiescing, Broken};
      if ok {
        active := active[id := Lease("existing-run-control", None, snapshot.epoch, "control")];
      }
    }

    method LeaveWork(id: nat)
      modifies this`active
      ensures View() == Step(old(View()), Leave(id))
    {
      active := active - {id};
    }

    method CheckMutationAdmission(scope: Option<nat>) returns (ok: bool)
      ensures ok <==> MayMutate(View(), scope)
    {
      if fenced {
        return false;
      }
      if snapshot.phase == Running {
        return true;
      }
      var current := CurrentScope(scope);
      if current.Some? {
        if current.value.epoch.Some? && current.value.epoch.value == snapshot.epoch {
          return true;
        }
        if current.value.epoch.None? && snapshot.phase in {Quiescing, Broken} {
          return true;
        }
      }
      return false;
    }

    method DatabaseTransaction(id: nat, scope: Option<nat>, readOnly: bool) returns (ok: bool)
      requires id !in active
      modifies this`active
      ensures View() == Step(old(View()), Transaction(scope, readOnly))
      ensures ok <==> readOnly || MayMutate(old(View()), scope)
    {
      if !readOnly {
        ok := CheckMutationAdmission(scope);
        if !ok {
          return;
        }
      }
      var parent := CurrentScope(scope);
      active := active[id := Lease("sqlite", if parent.Some? then parent.value.epoch else None, snapshot.epoch, "db")];
      active := active - {id};
      return true;
    }

    /** transition(), as begin_draining and the coordinator call it; outcome is what the bound
        store makes of the write. Only a fault fences this process. */
    method Transition(source: Phase, target: Phase, epoch: nat, outcome: Outcome) returns (ok: bool)
      modifies this`snapshot, this`fenced
      ensures View() == Step(old(View()), Shift(source, target, epoch, outcome))
      ensures ok <==> outcome == Saved && MayMove(old(View()), source, target) && MayOpen(old(snapshot), target, epoch)
    {
      if target == Quiescing && epoch <= snapshot.epoch {
        return false;
      }
      if snapshot.phase != source || target !in Targets(source) {
        return false;
      }
      if target in {Quiesced, Resuming, Running} && active != map[] {
        return false;
      }
      assert MayMove(View(), source, target) && MayOpen(snapshot, target, epoch);
      match outcome {
        case Saved =>
          snapshot := Advance(snapshot, target, epoch);
          return true;
        case Conflict =>
          return false;
        case Fault =>
          fenced := true;
          return false;
      }
    }
  }
}
