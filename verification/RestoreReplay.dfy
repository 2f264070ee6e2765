/** When a recovery moves the home away again (backup/restore.py: _recover_interrupted_restore_locked).
    An action that recovery retries is committed under the retry's name only, so its own intent
    stays open and the next recovery may carry it out once more. */
module RestoreReplay {
  import opened Wrappers
  import opened Restore

  predicate IsOpen(j: seq<Entry>, id: ActionId) {
    id !in Commits(j) && LastIntent(j, id).Some?
  }

  /** An open intent that fits the slots: it moves the tree that is home now to a free place. */
  predicate MovesHome(d: Disk, j: seq<Entry>, id: ActionId) {
    && IsOpen(j, id) && Home in d.slots
    && var i := LastIntent(j, id).value;
       i.source == Home && i.fingerprint == d.slots[Home].fingerprint && i.target !in d.slots
  }

  /** The last open intent in the order in which recovery takes them. */
  function LastOpen(j: seq<Entry>, ids: seq<ActionId>): Option<ActionId> {
    if ids == [] then None
    else
      var rest := LastOpen(j, ids[1..]);
      if rest.Some? then rest else if IsOpen(j, ids[0]) then Some(ids[0]) else None
  }

  predicate Unfinished(d: Disk) {
    LastPhase(d.journal) != Some(Committed)
  }

  /** Before the call: the restore is not committed and some open intent fits. */
  predicate HomeAtStake(d: Disk) {
    Unfinished(d) && exists id :: id in IntentOrder(d.journal) && MovesHome(d, d.journal, id)
  }

  /** Before the call: the restore is not committed and the last open intent fits. */
  predicate HomeLost(d: Disk) {
    var last := LastOpen(d.journal, IntentOrder(d.journal));
    Unfinished(d) && last.Some? && MovesHome(d, d.journal, last.value)
  }

  predicate LeavesHome(es: seq<Effect>) {
    exists e :: e in es && e.Move? && e.source == Home
  }

  lemma LeavesHomeAppend(a: seq<Effect>, b: seq<Effect>)
    ensures LeavesHome(a + b) <==> LeavesHome(a) || LeavesHome(b)
  {
    if LeavesHome(a) {
      var e :| e in a && e.Move? && e.source == Home;
      assert e in a + b;
    }
    if LeavesHome(b) {
      var e :| e in b && e.Move? && e.source == Home;
      assert e in a + b;
    }
  }

  // ---- while the old home shuttles between home and rollback ---------------------------------

  lemma {:induction false} ShuttleLeavesHome(d: Disk, j: seq<Entry>, ids: seq<ActionId>, o: Tree)
    requires Shuttling(d, o) && j <= d.journal && Home in d.slots
    ensures LeavesHome(SettleAll(d, j, ids).effects) <==> exists id :: id in ids && MovesHome(d, j, id)
    decreases |ids|
  {
    if ids != [] {
      assert forall id :: id in ids <==> id == ids[0] || id in ids[1..];
      if !IsOpen(j, ids[0]) {
        ShuttleLeavesHome(d, j, ids[1..], o);
      } else {
        var i := LastIntent(j, ids[0]).value;
        var p := SettlePlan(d, i);
        SettleShuttles(d, i, o);
        var d1 := Run(d, p.effects);
        LeavesHomeAppend(p.effects, SettleAll(d1, j, ids[1..]).effects);
        if i.target in d.slots {
          Run1(d, p.effects[0]);
          ShuttleLeavesHome(d1, j, ids[1..], o);
          assert forall id :: MovesHome(d1, j, id) <==> MovesHome(d, j, id);
        } else {
          assert Move(Home, Rollback) in p.effects;
          assert MovesHome(d, j, ids[0]);
        }
      }
    }
  }

  lemma {:induction false} ShuttleEnds(d: Disk, j: seq<Entry>, ids: seq<ActionId>, o: Tree)
    requires Shuttling(d, o) && j <= d.journal
    ensures var last := LastOpen(j, ids);
            var d' := Run(d, SettleAll(d, j, ids).effects);
            && Shuttling(d', o) && (last.Some? ==> IsOpen(j, last.value))
            && (Home in d'.slots <==> if last.Some? then LastIntent(j, last.value).value.target == Home else Home in d.slots)
    decreases |ids|
  {
    if ids != [] {
      if !IsOpen(j, ids[0]) {
        ShuttleEnds(d, j, ids[1..], o);
      } else {
        var i := LastIntent(j, ids[0]).value;
        var p := SettlePlan(d, i);
        SettleShuttles(d, i, o);
        RunGrowsJournal(d, p.effects);
        var d1 := Run(d, p.effects);
        ShuttleEnds(d1, j, ids[1..], o);
        RunAppend(d, p.effects, SettleAll(d1, j, ids[1..]).effects);
      }
    }
  }

  // ---- once the home has been set aside for good -----------------------------------------------

  /** No open intent fits the home: those that would move it have a target that is taken. */
  ghost predicate Held(d: Disk, j: seq<Entry>) {
    && Home in d.slots
    && (forall e :: e in j && e.Intent? ==> KnownMove(e.source, e.target))
    && forall id :: IsOpen(j, id) && LastIntent(j, id).value.source == Home ==>
         LastIntent(j, id).value.target == Failed && Failed in d.slots
  }

  lemma SettleOneHolds(d: Disk, j: seq<Entry>, id: ActionId)
    requires Held(d, j) && IsOpen(j, id)
    ensures var p := SettlePlan(d, LastIntent(j, id).value);
            var d' := Run(d, p.effects);
            && !LeavesHome(p.effects) && Held(d', j) && d'.slots[Home] == d.slots[Home]
  {
    var i := LastIntent(j, id).value;
    var p := SettlePlan(d, i);
    if |p.effects| == 1 {
      Run1(d, p.effects[0]);
    } else {
      RenameRuns(d, Retry(i.id), i.source, i.target);
    }
  }

  lemma {:induction false} SettlingHolds(d: Disk, j: seq<Entry>, ids: seq<ActionId>)
    requires Held(d, j)
    ensures !LeavesHome(SettleAll(d, j, ids).effects)
    ensures Lookup(Run(d, SettleAll(d, j, ids).effects).slots, Home) == Some(d.slots[Home])
    decreases |ids|
  {
    if ids != [] {
      if !IsOpen(j, ids[0]) {
        SettlingHolds(d, j, ids[1..]);
      } else {
        var p := SettlePlan(d, LastIntent(j, ids[0]).value);
        SettleOneHolds(d, j, ids[0]);
        var d1 := Run(d, p.effects);
        SettlingHolds(d1, j, ids[1..]);
        RunAppend(d, p.effects, SettleAll(d1, j, ids[1..]).effects);
        LeavesHomeAppend(p.effects, SettleAll(d1, j, ids[1..]).effects);
      }
    }
  }

  lemma DoneMeansHeld(d: Disk, o: Tree)
    requires Inv0(d, o) && SetAsideDone(d.journal) && Home in d.slots && Rollback !in d.slots
    ensures Held(d, d.journal) && forall id :: !MovesHome(d, d.journal, id)
  {
    forall id | IsOpen(d.journal, id) && LastIntent(d.journal, id).value.source == Home
      ensures LastIntent(d.journal, id).value.target == Failed && Failed in d.slots
    {
      var i := LastIntent(d.journal, id).value;
      assert i in d.journal && !SetsAside(i);
    }
  }

  // ---- main results --------------------------------------------------------------------------------

  lemma RecoveryFromInvariant(d: Disk, o: Tree)
    requires d.fence && Inv0(d, o) && Home in d.slots && Rollback !in d.slots
    ensures LeavesHome(RecoverPlan(d).effects) <==> HomeAtStake(d)
    ensures Home !in Run(d, RecoverPlan(d).effects).slots <==> HomeLost(d)
  {
    var j, ids := d.journal, IntentOrder(d.journal);
    if j == [] {
      assert Run(d, []) == d;
    } else if !Unfinished(d) {
      Run1(d, DropFence);
    } else if SetAsideDone(j) {
      DoneMeansHeld(d, o);
      SettlingHolds(d, j, ids);
    } else {
      ShuttleLeavesHome(d, j, ids, o);
      ShuttleEnds(d, j, ids, o);
    }
  }

  /** Exactly when recovery moves away a home that is where it belongs. In every state that a
      restore and any later processes can reach, with the fence up, the old home in place and the
      rollback slot free: recovery moves the home at some point if and only if some open intent
      fits, and ends without a home if and only if the last open intent does. */
  lemma RecoveryMovesTheHomeExactlyWhen(d: Disk, a: Archive, n: nat, cs: seq<Command>, o: Tree)
    requires Fresh(d) && Lookup(d.slots, Home) == Some(o)
    ensures var r := Reached(d, a, n, cs);
            r.fence && Home in r.slots && Rollback !in r.slots ==>
              && r.slots[Home] == o
              && (LeavesHome(RecoverPlan(r).effects) <==> HomeAtStake(r))
              && (Home !in Run(r, RecoverPlan(r).effects).slots <==> HomeLost(r))
  {
    ReachedInv(d, a, n, cs, o);
    var r := Reached(d, a, n, cs);
    if r.fence && Home in r.slots && Rollback !in r.slots {
      RecoveryFromInvariant(r, o);
    }
  }

  // ---- a run in which it happens ---------------------------------------------------------------------

  /** The journal of that run, from the first intent on. */
  function PreparedJournal(): seq<Entry> {
    [State(Preparing), State(Prepared), Note, State(GatewayStopped)]
  }

  function FirstIntent(o: Tree): Entry {
    Intent(RenameOldHome, Home, Rollback, o.fingerprint)
  }

  lemma {:induction false} NoActions(j: seq<Entry>)
    requires forall e :: e in j ==> !e.Intent? && !e.Commit?
    ensures IntentOrder(j) == [] && Commits(j) == {} && forall id :: LastIntent(j, id).None?
  {
    if j != [] {
      NoActions(j[..|j| - 1]);
    }
  }

  /** The restoring process dies right after its first intent. */
  lemma DiesAfterFirstIntent(d: Disk, a: Archive, o: Tree)
    requires Fresh(d) && Lookup(d.slots, Home) == Some(o)
    ensures var r := Live(d, RestorePlan(d, a).effects, 8);
            && r.fence && r.slots == d.slots[Staging := a.extracted]
            && r.journal == PreparedJournal() + [FirstIntent(o)]
    ensures |RestorePlan(d, a).effects| > 7 && RestorePlan(d, a).effects[7] == Append(FirstIntent(o))
  {
    PrepareRuns(d, a);
    var prepare := PrepareEffects(a);
    var d1 := Run(d, prepare);
    var rename := RenamePlan(d1, RenameOldHome, Home, Rollback);
    var all := RestorePlan(d, a).effects;
    assert all[..7] == prepare && all[7] == rename.effects[0] == Append(FirstIntent(o));
    assert all[..8] == prepare + [all[7]];
    RunAppend(d, prepare, [all[7]]);
    Run1(d1, all[7]);
  }

  lemma FirstIntentIsOpen(o: Tree)
    ensures var j := PreparedJournal() + [FirstIntent(o)];
            && IntentOrder(j) == [RenameOldHome] && LastIntent(j, RenameOldHome) == Some(FirstIntent(o))
            && Commits(j) == {} && LastPhase(j) == Some(GatewayStopped)
  {
    NoActions(PreparedJournal());
    assert LastPhase(PreparedJournal()) == Some(GatewayStopped);
    JournalSnoc(PreparedJournal(), FirstIntent(o), RenameOldHome);
  }

  /** What recovery then does: it retries the rename. */
  lemma RecoveryRetries(d: Disk, o: Tree)
    requires d.fence && Lookup(d.slots, Home) == Some(o) && Rollback !in d.slots
    requires d.journal == PreparedJournal() + [FirstIntent(o)]
    ensures RecoverPlan(d).effects == RenamePlan(d, Retry(RenameOldHome), Home, Rollback).effects
  {
    var j := d.journal;
    FirstIntentIsOpen(o);
    var p := RenamePlan(d, Retry(RenameOldHome), Home, Rollback);
    assert SettlePlan(d, FirstIntent(o)) == p;
    assert [RenameOldHome][1..] == [];
    assert RecoverPlan(d).effects == p.effects + [];
  }

  /** A recovery that lives for three effects has retried it. */
  lemma RecoversByRetry(d: Disk, o: Tree)
    requires d.fence && Lookup(d.slots, Home) == Some(o) && Rollback !in d.slots
    requires d.journal == PreparedJournal() + [FirstIntent(o)]
    ensures var r := Live(d, RecoverPlan(d).effects, 3);
            && r.fence && Home !in r.slots && Lookup(r.slots, Rollback) == Some(o)
            && r.journal == d.journal + [Intent(Retry(RenameOldHome), Home, Rollback, o.fingerprint), Commit(Retry(RenameOldHome))]
  {
    RecoveryRetries(d, o);
    RenameRuns(d, Retry(RenameOldHome), Home, Rollback);
    LiveAll(d, RecoverPlan(d).effects, 3);
  }

  /** A rollback that lives for six effects has put the home back but not yet lifted the fence. */
  lemma RollsBackButForTheFence(d: Disk, left: Option<Tree>, o: Tree)
    requires d.fence && Home !in d.slots && Lookup(d.slots, Rollback) == Some(o)
    ensures var r := Live(d, RollbackPlan(d, left).effects, 6);
            && r.fence && Lookup(r.slots, Home) == Some(o) && Rollback !in r.slots
            && r.journal == d.journal + RollbackEntries(o)
  {
    var start := Append(State(RollingBack));
    var d1 := Apply(d, start);
    var rename := RenamePlan(d1, RestoreOldHome, Rollback, Home);
    var finish := FinishRollback(left).effects;
    var all := RollbackPlan(d, left).effects;
    assert all == [start] + (rename.effects + finish);
    assert all[..6] == [start] + (rename.effects + [finish[0], finish[1]]);
    RunAppend(d, [start], rename.effects + [finish[0], finish[1]]);
    Run1(d, start);
    RunAppend(d1, rename.effects, [finish[0], finish[1]]);
    RenameRuns(d1, RestoreOldHome, Rollback, Home);
    var d2 := Run(d1, rename.effects);
    assert [finish[0], finish[1]] == [finish[0]] + [finish[1]];
    RunAppend(d2, [finish[0]], [finish[1]]);
    Run1(d2, finish[0]);
    Run1(Apply(d2, finish[0]), finish[1]);
  }

  function RetriedJournal(o: Tree): seq<Entry> {
    PreparedJournal() + [FirstIntent(o)]
    + [Intent(Retry(RenameOldHome), Home, Rollback, o.fingerprint), Commit(Retry(RenameOldHome))]
  }

  function RolledBackJournal(o: Tree): seq<Entry> {
    RetriedJournal(o) + RollbackEntries(o)
  }

  /** What an intent and its commit add to any journal. */
  lemma ActionRecorded(j: seq<Entry>, i: Entry, id: ActionId)
    requires i.Intent? && i.id !in IntentOrder(j)
    ensures var k := j + [i, Commit(i.id)];
            && IntentOrder(k) == IntentOrder(j) + [i.id] && Commits(k) == Commits(j) + {i.id}
            && LastIntent(k, id) == (if i.id == id then Some(i) else LastIntent(j, id))
  {
    JournalSnoc(j, i, id);
    JournalSnoc(j + [i], Commit(i.id), id);
    assert j + [i, Commit(i.id)] == j + [i] + [Commit(i.id)];
  }

  lemma AfterRetry(o: Tree)
    ensures var j := RetriedJournal(o);
            && IntentOrder(j) == [RenameOldHome, Retry(RenameOldHome)] && Commits(j) == {Retry(RenameOldHome)}
            && LastIntent(j, RenameOldHome) == Some(FirstIntent(o))
  {
    FirstIntentIsOpen(o);
    ActionRecorded(PreparedJournal() + [FirstIntent(o)], Intent(Retry(RenameOldHome), Home, Rollback, o.fingerprint), RenameOldHome);
  }

  function RollbackEntries(o: Tree): seq<Entry> {
    [State(RollingBack), Intent(RestoreOldHome, Rollback, Home, o.fingerprint), Commit(RestoreOldHome), State(RolledBack)]
  }

  lemma StateRecorded(j: seq<Entry>, phase: Phase, id: ActionId)
    ensures var k := j + [State(phase)];
            && IntentOrder(k) == IntentOrder(j) && Commits(k) == Commits(j)
            && LastIntent(k, id) == LastIntent(j, id) && LastPhase(k) == Some(phase)
  {
    JournalSnoc(j, State(phase), id);
  }

  function UndoneJournal(j: seq<Entry>, o: Tree): seq<Entry> {
    j + [State(RollingBack)] + [Intent(RestoreOldHome, Rollback, Home, o.fingerprint), Commit(RestoreOldHome)]
  }

  lemma UndoRecorded(j: seq<Entry>, o: Tree)
    requires RestoreOldHome !in IntentOrder(j)
    ensures var k := UndoneJournal(j, o);
            && IntentOrder(k) == IntentOrder(j) + [RestoreOldHome] && Commits(k) == Commits(j) + {RestoreOldHome}
            && LastIntent(k, RenameOldHome) == LastIntent(j, RenameOldHome)
  {
    StateRecorded(j, RollingBack, RenameOldHome);
    ActionRecorded(j + [State(RollingBack)], Intent(RestoreOldHome, Rollback, Home, o.fingerprint), RenameOldHome);
  }

  /** What a rollback's four entries add to any journal. */
  lemma RollbackRecorded(j: seq<Entry>, o: Tree)
    requires RestoreOldHome !in IntentOrder(j)
    ensures var k := j + RollbackEntries(o);
            && IntentOrder(k) == IntentOrder(j) + [RestoreOldHome] && Commits(k) == Commits(j) + {RestoreOldHome}
            && LastIntent(k, RenameOldHome) == LastIntent(j, RenameOldHome) && LastPhase(k) == Some(RolledBack)
  {
    UndoRecorded(j, o);
    StateRecorded(UndoneJournal(j, o), RolledBack, RenameOldHome);
    assert j + RollbackEntries(o) == UndoneJournal(j, o) + [State(RolledBack)];
  }

  lemma AfterRollback(o: Tree)
    ensures var j := RolledBackJournal(o);
            && IntentOrder(j) == [RenameOldHome, Retry(RenameOldHome), RestoreOldHome]
            && Commits(j) == {Retry(RenameOldHome), RestoreOldHome}
            && LastIntent(j, RenameOldHome) == Some(FirstIntent(o)) && LastPhase(j) == Some(RolledBack)
  {
    AfterRetry(o);
    RollbackRecorded(RetriedJournal(o), o);
  }

  lemma OpenAfterRollback(o: Tree)
    ensures var j := RolledBackJournal(o); LastOpen(j, IntentOrder(j)) == Some(RenameOldHome)
  {
    AfterRollback(o);
    var j, ids := RolledBackJournal(o), [RenameOldHome, Retry(RenameOldHome), RestoreOldHome];
    assert ids[1..] == [Retry(RenameOldHome), RestoreOldHome] && ids[1..][1..] == [RestoreOldHome] && ids[1..][1..][1..] == [];
    assert LastOpen(j, [RestoreOldHome]).None?;
    assert LastOpen(j, ids[1..]).None?;
  }

  /** From every fresh disk and for every archive: a restore that dies right after its first
      intent, a recovery that retries the rename, and a rollback that dies just before it lifts the
      fence leave the old home in place; one more recovery moves it away. */
  lemma RecoveryCanUndoARollback(d: Disk, a: Archive, left: Option<Tree>, o: Tree)
    requires Fresh(d) && Lookup(d.slots, Home) == Some(o)
    ensures var r := Reached(d, a, 8, [Recover(3), RollBack(left, 6)]);
            && r.fence && Lookup(r.slots, Home) == Some(o) && Rollback !in r.slots
            && Home !in Run(r, RecoverPlan(r).effects).slots
  {
    DiesAfterFirstIntent(d, a, o);
    var d1 := Live(d, RestorePlan(d, a).effects, 8);
    RecoversByRetry(d1, o);
    var d2 := Live(d1, RecoverPlan(d1).effects, 3);
    RollsBackButForTheFence(d2, left, o);
    var d3 := Live(d2, RollbackPlan(d2, left).effects, 6);
    var cs := [Recover(3), RollBack(left, 6)];
    assert cs[1..] == [RollBack(left, 6)] && cs[1..][1..] == [];
    assert RunCommands(d1, cs) == RunCommands(d2, cs[1..]);
    assert RunCommands(d2, cs[1..]) == RunCommands(d3, []);
    assert d3.journal == RolledBackJournal(o);
    AfterRollback(o);
    OpenAfterRollback(o);
    RecoveryMovesTheHomeExactlyWhen(d, a, 8, cs, o);
    assert HomeLost(d3);
  }
}
