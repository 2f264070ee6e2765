/** The table of backup workflows and its transition log (backup/operations.py). */
module BackupOperations {
  import opened Wrappers

  datatype Phase =
    | Preparing | Snapshotting | SnapshotReady | StoringObjects | Verifying
    | Completed | Failed | RecoveryRequired

  predicate Terminal(p: Phase) {
    p in {Completed, Failed, RecoveryRequired}
  }

  datatype Operation = Operation(phase: Phase, revision: nat, attempts: nat)

  datatype Row = Row(operation: Operation, slot: bool)

  datatype Change = Change(id: nat, revision: nat, source: Option<Phase>, target: Phase)

  datatype Table = Table(rows: map<nat, Row>, log: seq<Change>)

  predicate SlotFree(t: Table, except: nat) {
    forall id :: id in t.rows && id != except ==> !t.rows[id].slot
  }

  /** create: refused for a used id, a terminal phase, or while another row holds the slot. */
  predicate CanCreate(t: Table, id: nat, op: Operation) {
    op.revision == 0 && !Terminal(op.phase) && id !in t.rows && SlotFree(t, id)
  }

  function Create(t: Table, id: nat, op: Operation): Table {
    if CanCreate(t, id, op) then
      Table(t.rows[id := Row(op, true)], t.log + [Change(id, 0, None, op.phase)])
    else t
  }

  /** transition: refused when the revision or phase is not the expected one, or when leaving a
      terminal phase would take a slot that another row holds. */
  predicate CanMove(t: Table, id: nat, revision: nat, expected: set<Phase>, target: Phase) {
    && id in t.rows && t.rows[id].operation.revision == revision && t.rows[id].operation.phase in expected
    && (!Terminal(target) ==> SlotFree(t, id))
  }

  function Move(t: Table, id: nat, revision: nat, expected: set<Phase>, target: Phase, attempts: nat): Table {
    if CanMove(t, id, revision, expected, target) then
      var old' := t.rows[id].operation;
      Table(t.rows[id := Row(Operation(target, old'.revision + 1, attempts), !Terminal(target))],
            t.log + [Change(id, old'.revision + 1, Some(old'.phase), target)])
    else t
  }

  /** The changes of one operation, oldest first. */
  function Of(log: seq<Change>, id: nat): seq<Change> {
    if log == [] then []
    else
      var last := log[|log| - 1];
      if last.id == id then Of(log[..|log| - 1], id) + [last] else Of(log[..|log| - 1], id)
  }

  /** Revisions run 0, 1, 2, ...; each change starts in the phase the previous one reached. */
  predicate Chain(cs: seq<Change>) {
    forall i :: 0 <= i < |cs| ==>
      cs[i].revision == i && cs[i].source == if i == 0 then None else Some(cs[i - 1].target)
  }

  predicate RowFollowsLog(t: Table, id: nat)
    requires id in t.rows
  {
    var cs, op := Of(t.log, id), t.rows[id].operation;
    && Chain(cs) && |cs| == op.revision + 1 && cs[|cs| - 1].target == op.phase
    && t.rows[id].slot == !Terminal(op.phase)
  }

  /** Every row is where its chain of changes ends, and at most one row holds the slot. */
  ghost predicate Sound(t: Table) {
    && (forall id :: id in t.rows ==> RowFollowsLog(t, id))
    && (forall id: nat :: id !in t.rows ==> Of(t.log, id) == [])
    && (forall a, b :: a in t.rows && b in t.rows && t.rows[a].slot && t.rows[b].slot ==> a == b)
  }

  lemma OfSnoc(log: seq<Change>, c: Change, id: nat)
    ensures Of(log + [c], id) == if c.id == id then Of(log, id) + [c] else Of(log, id)
  {
    assert (log + [c])[..|log|] == log;
  }

  lemma WrittenRowFollows(t: Table, t': Table, id: nat, row: Row, c: Change)
    requires id in t.rows ==> RowFollowsLog(t, id)
    requires id !in t.rows ==> Of(t.log, id) == []
    requires t' == Table(t.rows[id := row], t.log + [c]) && c.id == id
    requires c.revision == row.operation.revision == |Of(t.log, id)| && c.target == row.operation.phase
    requires c.source == if id in t.rows then Some(t.rows[id].operation.phase) else None
    requires row.slot == !Terminal(row.operation.phase)
    ensures RowFollowsLog(t', id)
  {
    OfSnoc(t.log, c, id);
    ChainSnoc(Of(t.log, id), c);
  }

  lemma OtherRowFollows(t: Table, t': Table, x: nat, id: nat, row: Row, c: Change)
    requires x in t.rows && x != id && RowFollowsLog(t, x) && t' == Table(t.rows[id := row], t.log + [c]) && c.id == id
    ensures RowFollowsLog(t', x)
  {
    OfSnoc(t.log, c, x);
  }

  lemma WriteIsSound(t: Table, t': Table, id: nat, row: Row, c: Change)
    requires Sound(t) && t' == Table(t.rows[id := row], t.log + [c]) && c.id == id
    requires c.revision == row.operation.revision == |Of(t.log, id)| && c.target == row.operation.phase
    requires c.source == if id in t.rows then Some(t.rows[id].operation.phase) else None
    requires row.slot == !Terminal(row.operation.phase) && (row.slot ==> SlotFree(t, id))
    ensures Sound(t')
  {
    forall x | x in t'.rows ensures RowFollowsLog(t', x) {
      if x == id {
        WrittenRowFollows(t, t', id, row, c);
      } else {
        OtherRowFollows(t, t', x, id, row, c);
      }
    }
    forall x: nat | x !in t'.rows ensures Of(t'.log, x) == [] {
      OfSnoc(t.log, c, x);
    }
  }

  lemma ChainSnoc(cs: seq<Change>, c: Change)
    requires Chain(cs) && c.revision == |cs|
    requires c.source == if cs == [] then None else Some(cs[|cs| - 1].target)
    ensures Chain(cs + [c])
  {
  }

  datatype Act =
    | DoCreate(id: nat, op: Operation)
    | DoMove(id: nat, revision: nat, expected: set<Phase>, target: Phase, attempts: nat)

  function Next(t: Table, a: Act): Table {
    match a
    case DoCreate(id, op) => Create(t, id, op)
    case DoMove(id, revision, expected, target, attempts) => Move(t, id, revision, expected, target, attempts)
  }

  lemma NextIsSound(t: Table, a: Act)
    requires Sound(t)
    ensures Sound(Next(t, a)) && t.log <= Next(t, a).log
  {
    match a
    case DoCreate(id, op) =>
      if CanCreate(t, id, op) {
        WriteIsSound(t, Next(t, a), id, Row(op, true), Change(id, 0, None, op.phase));
      }
    case DoMove(id, revision, expected, target, attempts) =>
      if CanMove(t, id, revision, expected, target) {
        var before := t.rows[id].operation;
        assert RowFollowsLog(t, id);
        WriteIsSound(t, Next(t, a), id, Row(Operation(target, before.revision + 1, attempts), !Terminal(target)),
                     Change(id, before.revision + 1, Some(before.phase), target));
      }
  }

  function Trace(t: Table, acts: seq<Act>): Table
    decreases |acts|
  {
    if acts == [] then t else Trace(Next(t, acts[0]), acts[1..])
  }

  /** At most one workflow is active, and every row is the end of its own gap-free chain of
      changes, after any sequence of attempts to create and to move. */
  lemma {:induction false} OneActiveWorkflow(t: Table, acts: seq<Act>)
    requires Sound(t)
    ensures Sound(Trace(t, acts)) && t.log <= Trace(t, acts).log
    decreases |acts|
  {
    if acts != [] {
      NextIsSound(t, acts[0]);
      OneActiveWorkflow(Next(t, acts[0]), acts[1..]);
    }
  }

  /** A move that succeeds writes what it was asked to, frees the slot exactly if it ends the
      operation, leaves every other row alone, and cannot be repeated from the same reading. */
  lemma MovesAreMadeOnce(t: Table, id: nat, revision: nat, expected: set<Phase>, target: Phase, attempts: nat)
    requires CanMove(t, id, revision, expected, target)
    ensures var t' := Move(t, id, revision, expected, target, attempts);
            && id in t'.rows && t'.rows[id].operation.phase == target && t'.rows[id].operation.attempts == attempts
            && t'.rows[id].operation.revision == revision + 1
            && (t'.rows[id].slot <==> target !in {Completed, Failed, RecoveryRequired})
            && (forall x :: x in t.rows && x != id ==> x in t'.rows && t'.rows[x] == t.rows[x])
            && (forall e, p, n :: Move(t', id, revision, e, p, n) == t')
  {
  }

  /** While an operation is under way no other can be created; once it has ended, one can. */
  lemma OneAtATime(t: Table, id: nat, other: nat, op: Operation)
    requires Sound(t) && id in t.rows && t.rows[id].slot && other !in t.rows && op.revision == 0 && !Terminal(op.phase)
    ensures Create(t, other, op) == t
    ensures forall target :: Terminal(target) ==>
              var t1 := Move(t, id, t.rows[id].operation.revision, {t.rows[id].operation.phase}, target, 0);
              other in Create(t1, other, op).rows && Create(t1, other, op).rows[other] == Row(op, true)
  {
  }

  class OperationStore {
    var rows: map<nat, Row>
    var log: seq<Change>

    ghost function View(): Table
      reads this
    {
      Table(rows, log)
    }

    constructor ()
      ensures View() == Table(map[], []) && Sound(View())
    {
      rows, log := map[], [];
    }

    method CreateOperation(id: nat, op: Operation) returns (ok: bool)
      modifies this
      ensures View() == Create(old(View()), id, op)
      ensures ok <==> CanCreate(old(View()), id, op)
    {
      if op.revision != 0 || Terminal(op.phase) {
        return false;
      }
      if id in rows || exists x :: x in rows && rows[x].slot {
        return false;
      }
      rows := rows[id := Row(op, true)];
      log := log + [Change(id, 0, None, op.phase)];
      return true;
    }

    method Active() returns (id: Option<nat>)
      requires Sound(View())
      ensures id.Some? ==> id.value in rows && rows[id.value].slot
      ensures id.Some? <==> exists x :: x in rows && rows[x].slot
    {
      var held := set x | x in rows && rows[x].slot;
      if held == {} {
        assert forall x :: x in rows && rows[x].slot ==> x in held;
        return None;
      }
      var x :| x in held by {
        assert held != {};
      }
      return Some(x);
    }

    method Transition(id: nat, revision: nat, expected: set<Phase>, target: Phase, attempts: nat) returns (ok: bool)
      modifies this
      ensures View() == Move(old(View()), id, revision, expected, target, attempts)
      ensures ok <==> CanMove(old(View()), id, revision, expected, target)
    {
      if id !in rows {
        return false;
      }
      var current := rows[id].operation;
      if current.revision != revision || current.phase !in expected {
        return false;
      }
      if !Terminal(target) && exists x :: x in rows && x != id && rows[x].slot {
        return false;
      }
      rows := rows[id := Row(Operation(target, current.revision + 1, attempts), !Terminal(target))];
      log := log + [Change(id, current.revision + 1, Some(current.phase), target)];
      return true;
    }
  }
}
