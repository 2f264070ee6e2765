/** How a restore ends (backup/restore.py): with the fence down again, the home is either the tree
    that was restored or the one that was there before, and the journal says which. */
module RestoreOutcome {
  import opened Wrappers
  import opened Restore
  import C = Crash

  // ---- what a completed restore leaves -------------------------------------------------

  /** Effects that leave the fence as it is. */
  predicate LeavesFence(es: seq<Effect>) {
    forall e :: e in es ==> !e.RaiseFence? && !e.DropFence?
  }

  lemma {:induction false} FenceStays(d: Disk, es: seq<Effect>)
    requires LeavesFence(es)
    ensures Run(d, es).fence == d.fence
    decreases |es|
  {
    if es != [] {
      assert es[0] in es;
      FenceStays(Apply(d, es[0]), es[1..]);
    }
  }

  lemma {:induction false} WorkspacesLeaveFence(d: Disk, steps: seq<WorkspaceStep>)
    ensures LeavesFence(WorkspacePlan(d, steps).effects)
    decreases |steps|
  {
    if steps != [] {
      WorkspacesLeaveFence(Run(d, StepPlan(d, steps[0]).effects), steps[1..]);
    }
  }

  /** What the workspace part asks for, on the trees alone: each staged copy, and each rename in
      turn; none where a rename lacks its source or has a target already. */
  function WorkspacesAfter(slots: map<Slot, Tree>, steps: seq<WorkspaceStep>): Option<map<Slot, Tree>>
    decreases |steps|
  {
    if steps == [] then Some(slots)
    else match steps[0]
      case Copy(n, tree) => WorkspacesAfter(slots[Workspace(n) := tree], steps[1..])
      case Rename(_, s, t) =>
        if Workspace(s) !in slots || Workspace(t) in slots then None
        else WorkspacesAfter((slots - {Workspace(s)})[Workspace(t) := slots[Workspace(s)]], steps[1..])
  }

  lemma {:induction false} WorkspacesRun(d: Disk, steps: seq<WorkspaceStep>)
    ensures var p := WorkspacePlan(d, steps);
            && (p.ok <==> WorkspacesAfter(d.slots, steps).Some?)
            && (p.ok ==> Run(d, p.effects).slots == WorkspacesAfter(d.slots, steps).value)
    decreases |steps|
  {
    if steps != [] {
      var p := StepPlan(d, steps[0]);
      match steps[0] {
        case Copy(n, tree) => Run1(d, Write(Workspace(n), tree));
        case Rename(id, s, t) =>
          if p.ok {
            RenameRuns(d, WorkspaceAction(id), Workspace(s), Workspace(t));
          }
      }
      if p.ok {
        var d1 := Run(d, p.effects);
        WorkspacesRun(d1, steps[1..]);
        RunAppend(d, p.effects, WorkspacePlan(d1, steps[1..]).effects);
      }
    }
  }

  /** The trees of the home and of the restore itself are no workspace's. */
  lemma {:induction false} WorkspacesKeepTheRest(slots: map<Slot, Tree>, steps: seq<WorkspaceStep>, x: Slot)
    requires !x.Workspace?
    ensures var after := WorkspacesAfter(slots, steps); after.Some? ==> Lookup(after.value, x) == Lookup(slots, x)
    decreases |steps|
  {
    if steps != [] {
      match steps[0] {
        case Copy(n, tree) => WorkspacesKeepTheRest(slots[Workspace(n) := tree], steps[1..], x);
        case Rename(_, s, t) =>
          if Workspace(s) in slots && Workspace(t) !in slots {
            WorkspacesKeepTheRest((slots - {Workspace(s)})[Workspace(t) := slots[Workspace(s)]], steps[1..], x);
          }
      }
    }
  }

  lemma CommitRuns(d: Disk, a: Archive)
    ensures var d' := Run(d, CommitEffects(a));
            && d'.slots == d.slots[Home := a.migrated] - {Rollback} && !d'.fence
            && LastPhase(d'.journal) == Some(Committed)
  {
    var es := CommitEffects(a);
    var d3 := Apply(Apply(Apply(d, es[0]), es[1]), es[2]);
    assert es == [es[0], es[1], es[2]] + [es[3], es[4], es[5]];
    RunAppend(d, [es[0], es[1], es[2]], [es[3], es[4], es[5]]);
    Run3(d, es[0], es[1], es[2]);
    Run3(d3, es[3], es[4], es[5]);
  }

  /** Before the restored home is settled in, it is the extracted tree, the old one is set aside if
      there was one, and nothing else has changed. */
  lemma InstallingRuns(d: Disk, a: Archive)
    requires Fresh(d)
    ensures var d1 := Run(d, PrepareEffects(a));
            var aside := SetAsidePlan(d1);
            var d2 := Run(d1, aside.effects);
            var install := InstallPlan(d2);
            var d3 := Run(d2, install.effects);
            && aside.ok && install.ok && LeavesFence(aside.effects) && LeavesFence(install.effects)
            && d3.slots == (if Home in d.slots then d.slots[Rollback := d.slots[Home]] else d.slots)[Home := a.extracted]
  {
    PrepareRuns(d, a);
    var d1 := Run(d, PrepareEffects(a));
    var mark := Append(State(OldHomeRenamed));
    SetAsideRuns(d1);
    var d2 := Run(d1, SetAsidePlan(d1).effects);
    var rename, mark' := RenamePlan(d2, InstallNewHome, Staging, Home).effects, Append(State(NewHomeInstalled));
    RenameRuns(d2, InstallNewHome, Staging, Home);
    RunAppend(d2, rename, [mark']);
    Run1(Run(d2, rename), mark');
  }

  lemma SetAsideRuns(d: Disk)
    requires Rollback !in d.slots
    ensures var p := SetAsidePlan(d);
            var d' := Run(d, p.effects);
            && p.ok && LeavesFence(p.effects) && Home !in d'.slots
            && d'.slots == if Home in d.slots then (d.slots - {Home})[Rollback := d.slots[Home]] else d.slots
  {
    var mark := Append(State(OldHomeRenamed));
    if Home in d.slots {
      var rename := RenamePlan(d, RenameOldHome, Home, Rollback).effects;
      RenameRuns(d, RenameOldHome, Home, Rollback);
      RunAppend(d, rename, [mark]);
      Run1(Run(d, rename), mark);
    } else {
      assert [] + [mark] == [mark];
      Run1(d, mark);
    }
  }

  /** What a restore does before it settles in. */
  function BeforeSettling(d: Disk, a: Archive): seq<Effect> {
    var d1 := Run(d, PrepareEffects(a));
    var aside := SetAsidePlan(d1).effects;
    PrepareEffects(a) + (aside + InstallPlan(Run(d1, aside)).effects)
  }

  lemma BeforeSettlingRuns(d: Disk, a: Archive)
    ensures var d1 := Run(d, PrepareEffects(a));
            var d2 := Run(d1, SetAsidePlan(d1).effects);
            Run(d, BeforeSettling(d, a)) == Run(d2, InstallPlan(d2).effects)
  {
    var d1 := Run(d, PrepareEffects(a));
    var aside := SetAsidePlan(d1).effects;
    var install := InstallPlan(Run(d1, aside)).effects;
    RunAppend(d1, aside, install);
    RunAppend(d, PrepareEffects(a), aside + install);
  }

  lemma BeforeSettlingLeavesFence(d: Disk, a: Archive)
    requires Fresh(d)
    ensures var before := BeforeSettling(d, a); before != [] && before[0] == RaiseFence && LeavesFence(before[1..])
  {
    InstallingRuns(d, a);
    var e1 := PrepareEffects(a);
    var d1 := Run(d, e1);
    var aside := SetAsidePlan(d1).effects;
    var install := InstallPlan(Run(d1, aside)).effects;
    assert (e1 + (aside + install))[1..] == e1[1..] + (aside + install);
  }

  lemma RestoreInParts(d: Disk, a: Archive)
    requires Fresh(d)
    ensures var d3 := Run(d, BeforeSettling(d, a));
            RestorePlan(d, a) == Plan(BeforeSettling(d, a) + SettleIn(d3, a).effects, SettleIn(d3, a).ok)
  {
    InstallingRuns(d, a);
    BeforeSettlingRuns(d, a);
    var e1 := PrepareEffects(a);
    var d1 := Run(d, e1);
    var e2 := SetAsidePlan(d1).effects;
    var d2 := Run(d1, e2);
    var e3 := InstallPlan(d2).effects;
    var e4 := SettleIn(Run(d2, e3), a).effects;
    assert e1 + (e2 + (e3 + e4)) == (e1 + (e2 + e3)) + e4;
  }

  /** A restore that completes, onto a home or onto none, leaves the migrated tree as home, no old
      home, nothing staged, the fence down and its journal committed; the workspaces are as the
      archive asks, and every other tree is what it was. */
  lemma CompletedRestore(d: Disk, a: Archive)
    requires Fresh(d)
    ensures RestorePlan(d, a).ok <==> WorkspacesAfter(d.slots, a.workspaces).Some?
    ensures RestorePlan(d, a).ok ==>
              var d' := Run(d, RestorePlan(d, a).effects);
              && Lookup(d'.slots, Home) == Some(a.migrated) && Rollback !in d'.slots && Staging !in d'.slots
              && !d'.fence && LastPhase(d'.journal) == Some(Committed)
              && forall n :: Lookup(d'.slots, Workspace(n)) == Lookup(WorkspacesAfter(d.slots, a.workspaces).value, Workspace(n))
  {
    RestoreInParts(d, a);
    InstallingRuns(d, a);
    BeforeSettlingRuns(d, a);
    var d3 := Run(d, BeforeSettling(d, a));
    SettlingInRuns(d3, a);
    WorkspacesIgnoreHome(d.slots, d3.slots, a.workspaces);
    RunAppend(d, BeforeSettling(d, a), SettleIn(d3, a).effects);
  }

  lemma SettlingInRuns(d: Disk, a: Archive)
    ensures var p := SettleIn(d, a);
            && (p.ok <==> WorkspacesAfter(d.slots, a.workspaces).Some?)
            && (p.ok ==>
                  var d' := Run(d, p.effects);
                  var after := WorkspacesAfter(d.slots, a.workspaces).value;
                  && d'.slots == after[Home := a.migrated] - {Rollback} && !d'.fence
                  && LastPhase(d'.journal) == Some(Committed)
                  && Lookup(after, Staging) == Lookup(d.slots, Staging))
  {
    var w := WorkspacePlan(d, a.workspaces);
    WorkspacesRun(d, a.workspaces);
    if w.ok {
      RunAppend(d, w.effects, CommitEffects(a));
      CommitRuns(Run(d, w.effects), a);
      WorkspacesKeepTheRest(d.slots, a.workspaces, Staging);
    }
  }

  ghost predicate SameWorkspaces(x: map<Slot, Tree>, y: map<Slot, Tree>) {
    forall n :: Lookup(x, Workspace(n)) == Lookup(y, Workspace(n))
  }

  /** What happens to workspaces depends on workspaces alone. */
  lemma {:induction false} WorkspacesIgnoreHome(x: map<Slot, Tree>, y: map<Slot, Tree>, steps: seq<WorkspaceStep>)
    requires SameWorkspaces(x, y)
    ensures var a, b := WorkspacesAfter(x, steps), WorkspacesAfter(y, steps);
            && (a.Some? <==> b.Some?) && (a.Some? ==> SameWorkspaces(a.value, b.value))
    decreases |steps|
  {
    if steps != [] {
      match steps[0] {
        case Copy(n, tree) =>
          WorkspacesIgnoreHome(x[Workspace(n) := tree], y[Workspace(n) := tree], steps[1..]);
        case Rename(_, s, t) =>
          assert Lookup(x, Workspace(s)) == Lookup(y, Workspace(s)) && Lookup(x, Workspace(t)) == Lookup(y, Workspace(t));
          if Workspace(s) in x && Workspace(t) !in x {
            WorkspacesIgnoreHome((x - {Workspace(s)})[Workspace(t) := x[Workspace(s)]],
                                 (y - {Workspace(s)})[Workspace(t) := y[Workspace(s)]], steps[1..]);
          }
      }
    }
  }

  // ---- how it is decided ------------------------------------------------------------------------

  /** The journal of a committed restore ends in that state, and so does no other. */
  predicate IsCommitted(d: Disk) {
    LastPhase(d.journal) == Some(Committed)
  }

  /** Restored or rolled back once the fence is down; and restored already when committed under it. */
  predicate Decided(d: Disk, restored: Tree, o: Tree) {
    && (IsCommitted(d) ==> Lookup(d.slots, Home) == Some(restored))
    && (!d.fence ==> IsCommitted(d) || (LastPhase(d.journal) == Some(RolledBack) && Lookup(d.slots, Home) == Some(o)))
  }

  predicate NeverCommits(es: seq<Effect>) {
    forall e :: e in es ==> e != Append(State(Committed))
  }

  lemma {:induction false} StaysUncommitted(d: Disk, es: seq<Effect>)
    requires NeverCommits(es) && !IsCommitted(d)
    ensures !IsCommitted(Run(d, es))
    decreases |es|
  {
    if es != [] {
      assert es[0] in es;
      if es[0].Append? {
        JournalSnoc(d.journal, es[0].entry, RenameOldHome);
      }
      assert forall e :: e in es[1..] ==> e in es;
      StaysUncommitted(Apply(d, es[0]), es[1..]);
    }
  }

  /** Under the fence, effects that neither commit nor touch the fence decide nothing. */
  lemma NothingDecided(d: Disk, es: seq<Effect>, n: nat, restored: Tree, o: Tree)
    requires d.fence && !IsCommitted(d) && NeverCommits(es) && LeavesFence(es)
    ensures Decided(Live(d, es, n), restored, o) && Live(d, es, n).fence && !IsCommitted(Live(d, es, n))
  {
    var part := es[..Min(n, |es|)];
    assert forall e :: e in part ==> e in es;
    StaysUncommitted(d, part);
    FenceStays(d, part);
  }

  // ---- the restore ------------------------------------------------------------------------------

  lemma {:induction false} WorkspacesNeverCommit(d: Disk, steps: seq<WorkspaceStep>)
    ensures NeverCommits(WorkspacePlan(d, steps).effects)
    decreases |steps|
  {
    if steps != [] {
      WorkspacesNeverCommit(Run(d, StepPlan(d, steps[0]).effects), steps[1..]);
    }
  }

  lemma BeforeSettlingNeverCommits(d: Disk, a: Archive)
    ensures NeverCommits(BeforeSettling(d, a))
  {
    var d1 := Run(d, PrepareEffects(a));
    var aside := SetAsidePlan(d1).effects;
    var install := InstallPlan(Run(d1, aside)).effects;
    assert NeverCommits(PrepareEffects(a)) && NeverCommits(aside) && NeverCommits(install);
  }

  /** What a restore does before it commits, if it gets that far. */
  function BeforeCommit(d: Disk, a: Archive): seq<Effect> {
    var front := BeforeSettling(d, a);
    var w := WorkspacePlan(Run(d, front), a.workspaces);
    front + (w.effects + if w.ok then CommitEffects(a)[..3] else [])
  }

  lemma BeforeCommitIsGuarded(d: Disk, a: Archive)
    requires Fresh(d)
    ensures var before := BeforeCommit(d, a);
            before != [] && before[0] == RaiseFence && LeavesFence(before[1..]) && NeverCommits(before)
  {
    var front := BeforeSettling(d, a);
    var d3 := Run(d, front);
    BeforeSettlingLeavesFence(d, a);
    BeforeSettlingNeverCommits(d, a);
    WorkspacesLeaveFence(d3, a.workspaces);
    WorkspacesNeverCommit(d3, a.workspaces);
    var w := WorkspacePlan(d3, a.workspaces);
    var rest := w.effects + if w.ok then CommitEffects(a)[..3] else [];
    assert NeverCommits(rest) && LeavesFence(rest);
    assert (front + rest)[1..] == front[1..] + rest;
  }

  /** Up to its last entry under the fence, a restore has not committed. */
  lemma RestoreCommitsLast(d: Disk, a: Archive)
    requires Fresh(d)
    ensures var before := BeforeCommit(d, a);
            && RestorePlan(d, a).effects
                 == before + (if RestorePlan(d, a).ok then [Append(State(Committed)), DropFence, Discard(Rollback)] else [])
            && (RestorePlan(d, a).ok ==> Lookup(Run(d, before).slots, Home) == Some(a.migrated))
  {
    RestoreInParts(d, a);
    var front := BeforeSettling(d, a);
    var d3 := Run(d, front);
    var w := WorkspacePlan(d3, a.workspaces);
    if w.ok {
      var es, end := CommitEffects(a), [Append(State(Committed)), DropFence, Discard(Rollback)];
      assert es == es[..3] + end;
      assert front + (w.effects + es) == (front + (w.effects + es[..3])) + end;
      RunAppend(d3, w.effects, es[..3]);
      RunAppend(d, front, w.effects + es[..3]);
      assert es[..3] == [es[0], es[1], es[2]];
      Run3(Run(d3, w.effects), es[0], es[1], es[2]);
    }
  }

  lemma CommitsAtTheEnd(d: Disk, before: seq<Effect>, n: nat, restored: Tree, o: Tree)
    requires n > |before| && Lookup(Run(d, before).slots, Home) == Some(restored)
    ensures var d' := Live(d, before + [Append(State(Committed)), DropFence, Discard(Rollback)], n);
            Decided(d', restored, o) && IsCommitted(d')
  {
    var end := [Append(State(Committed)), DropFence, Discard(Rollback)];
    var d1 := Run(d, before);
    C.LiveThen(Apply, d, before, end, n);
    C.LiveStep(Apply, d1, end, n - |before|);
    assert end[1..] == [DropFence, Discard(Rollback)] && end[1..][1..] == [Discard(Rollback)];
    var d2 := Apply(d1, end[0]);
    C.LiveStep(Apply, d2, end[1..], n - |before| - 1);
    C.LiveStep(Apply, Apply(d2, DropFence), [Discard(Rollback)], Monus(n, |before| + 2));
  }

  lemma GuardedDecidesNothing(d: Disk, before: seq<Effect>, m: nat, restored: Tree, o: Tree)
    requires 0 < m <= |before| && before[0] == RaiseFence && LeavesFence(before[1..]) && NeverCommits(before)
    requires !IsCommitted(d)
    ensures var d' := Run(d, before[..m]); Decided(d', restored, o) && d'.fence
  {
    var rest := before[1..];
    assert before[..m] == [RaiseFence] + rest[..m - 1];
    RunAppend(d, [RaiseFence], rest[..m - 1]);
    Run1(d, RaiseFence);
    assert forall e :: e in rest ==> e in before;
    NothingDecided(Apply(d, RaiseFence), rest, m - 1, restored, o);
  }

  lemma RestoreDecides(d: Disk, a: Archive, n: nat, o: Tree)
    requires Fresh(d) && n > 0
    ensures var d' := Live(d, RestorePlan(d, a).effects, n); Decided(d', a.migrated, o) && (!d'.fence ==> IsCommitted(d'))
  {
    var before := BeforeCommit(d, a);
    RestoreCommitsLast(d, a);
    BeforeCommitIsGuarded(d, a);
    if n > |before| && RestorePlan(d, a).ok {
      CommitsAtTheEnd(d, before, n, a.migrated, o);
    } else {
      var all := RestorePlan(d, a).effects;
      assert all[..Min(n, |all|)] == before[..Min(n, |before|)];
      GuardedDecidesNothing(d, before, Min(n, |before|), a.migrated, o);
    }
  }

  /** The fence of a restore that started, onto a home or onto none, goes down only at its end:
      wherever it died, if the fence is down the home is the migrated tree. */
  lemma FenceDownMeansRestored(d: Disk, a: Archive, n: nat)
    requires Fresh(d) && n > 0
    ensures var d' := Live(d, RestorePlan(d, a).effects, n);
            !d'.fence ==> Lookup(d'.slots, Home) == Some(a.migrated) && LastPhase(d'.journal) == Some(Committed)
  {
    RestoreDecides(d, a, n, a.migrated);
  }

  // ---- later processes ----------------------------------------------------------------------------

  lemma {:induction false} SettlingDecidesNothing(d: Disk, j: seq<Entry>, ids: seq<ActionId>)
    ensures NeverCommits(SettleAll(d, j, ids).effects) && LeavesFence(SettleAll(d, j, ids).effects)
    decreases |ids|
  {
    if ids != [] {
      if ids[0] in Commits(j) || LastIntent(j, ids[0]).None? {
        SettlingDecidesNothing(d, j, ids[1..]);
      } else {
        var p := SettlePlan(d, LastIntent(j, ids[0]).value);
        SettlingDecidesNothing(Run(d, p.effects), j, ids[1..]);
      }
    }
  }

  lemma RecoveryDecides(d: Disk, n: nat, restored: Tree, o: Tree)
    requires Decided(d, restored, o)
    ensures Decided(Live(d, RecoverPlan(d).effects, n), restored, o)
  {
    if !d.fence || d.journal == [] {
      C.LiveAll(Apply, d, [], n);
    } else if IsCommitted(d) {
      C.LiveStep(Apply, d, [DropFence], n);
    } else {
      SettlingDecidesNothing(d, d.journal, IntentOrder(d.journal));
      NothingDecided(d, RecoverPlan(d).effects, n, restored, o);
    }
  }

  lemma UndoDecidesNothing(d: Disk)
    ensures NeverCommits(UndoPlan(d).effects) && LeavesFence(UndoPlan(d).effects)
  {
  }

  /** What a rollback does before it lifts the fence. */
  lemma RollbackInParts(d: Disk, left: Option<Tree>, o: Tree) returns (middle: seq<Effect>)
    requires d.fence && Inv0(d, o)
    ensures RollbackPlan(d, left).effects == [Append(State(RollingBack))] + (middle + [Append(State(RolledBack)), DropFence])
    ensures NeverCommits(middle) && LeavesFence(middle)
  {
    var start := Append(State(RollingBack));
    var d1 := Apply(d, start);
    EffectKeepsInv(d, start, o);
    UndoRuns(d1, o);
    UndoDecidesNothing(d1);
    var undo := UndoPlan(d1).effects;
    middle := undo + [Sweep(left)];
    assert undo + FinishRollback(left).effects == middle + [Append(State(RolledBack)), DropFence];
  }

  lemma RollbackSaysSo(d: Disk, es: seq<Effect>)
    ensures LastPhase(Run(d, es + [Append(State(RolledBack)), DropFence]).journal) == Some(RolledBack)
  {
    var end := [Append(State(RolledBack)), DropFence];
    assert end == [end[0]] + [end[1]];
    var d1 := Run(d, es);
    RunAppend(d, es, end);
    RunAppend(d1, [end[0]], [end[1]]);
    Run1(d1, end[0]);
    Run1(Apply(d1, end[0]), end[1]);
  }

  /** A rollback that dies before it lifts the fence has decided nothing. */
  lemma DyingRollbackDecides(d: Disk, middle: seq<Effect>, n: nat, restored: Tree, o: Tree)
    requires d.fence && NeverCommits(middle) && LeavesFence(middle) && 0 < n <= |middle| + 2
    ensures Decided(Live(d, [Append(State(RollingBack))] + (middle + [Append(State(RolledBack)), DropFence]), n), restored, o)
  {
    var start, early := Append(State(RollingBack)), middle + [Append(State(RolledBack))];
    var all := [start] + (middle + [Append(State(RolledBack)), DropFence]);
    C.LiveStep(Apply, d, all, n);
    assert all[1..] == early + [DropFence];
    assert all[1..][..n - 1] == early[..n - 1];
    NothingDecided(Apply(d, start), early, n - 1, restored, o);
  }

  lemma RollbackDecides(d: Disk, left: Option<Tree>, n: nat, restored: Tree, o: Tree)
    requires Inv(d, o) && Decided(d, restored, o)
    ensures Decided(Live(d, RollbackPlan(d, left).effects, n), restored, o)
  {
    if !d.fence || n == 0 {
      C.LiveAll(Apply, d, [], n);
      C.DeadStays(Apply, d, RollbackPlan(d, left).effects);
    } else {
      var middle := RollbackInParts(d, left, o);
      if n <= |middle| + 2 {
        DyingRollbackDecides(d, middle, n, restored, o);
      } else {
        WholeRollbackDecides(d, left, middle, n, restored, o);
      }
    }
  }

  lemma WholeRollbackDecides(d: Disk, left: Option<Tree>, middle: seq<Effect>, n: nat, restored: Tree, o: Tree)
    requires d.fence && Inv0(d, o) && n > |middle| + 2
    requires RollbackPlan(d, left).effects == [Append(State(RollingBack))] + (middle + [Append(State(RolledBack)), DropFence])
    ensures Decided(Live(d, RollbackPlan(d, left).effects, n), restored, o)
  {
    var all, front := RollbackPlan(d, left).effects, [Append(State(RollingBack))] + middle;
    RollbackRuns(d, left, o);
    C.LiveAll(Apply, d, all, n);
    assert all == front + [Append(State(RolledBack)), DropFence];
    RollbackSaysSo(d, front);
  }

  lemma HandlerDecides(d: Disk, left: Option<Tree>, n: nat, restored: Tree, o: Tree)
    requires Inv(d, o) && Decided(d, restored, o)
    ensures Decided(Live(d, CommandPlan(d, HandleFailure(left, n)).effects, n), restored, o)
  {
    var note := Append(Note);
    var d1 := Apply(d, note);
    EffectKeepsInv(d, note, o);
    JournalSnoc(d.journal, Note, RenameOldHome);
    C.LiveAppend(Apply, d, [note], RollbackPlan(d1, left).effects, n);
    C.LiveStep(Apply, d, [note], n);
    if n == 0 {
      C.DeadStays(Apply, d, RollbackPlan(d1, left).effects);
    } else {
      RollbackDecides(d1, left, n - 1, restored, o);
    }
  }

  lemma CommandDecides(d: Disk, c: Command, restored: Tree, o: Tree)
    requires Inv(d, o) && Decided(d, restored, o)
    ensures Decided(Live(d, CommandPlan(d, c).effects, c.life), restored, o)
  {
    match c
    case Recover(n) => RecoveryDecides(d, n, restored, o);
    case RollBack(left, n) => RollbackDecides(d, left, n, restored, o);
    case HandleFailure(left, n) => HandlerDecides(d, left, n, restored, o);
  }

  lemma {:induction false} CommandsDecide(d: Disk, cs: seq<Command>, restored: Tree, o: Tree)
    requires Inv(d, o) && Decided(d, restored, o)
    ensures Decided(RunCommands(d, cs), restored, o)
    decreases |cs|
  {
    if cs != [] {
      CommandAllowed(d, cs[0], o);
      CrashKeepsInv(d, CommandPlan(d, cs[0]).effects, cs[0].life, o);
      CommandDecides(d, cs[0], restored, o);
      CommandsDecide(Live(d, CommandPlan(d, cs[0]).effects, cs[0].life), cs[1..], restored, o);
    }
  }

  /** Nothing in between: after a restore that started and any later processes, each of which may
      have died anywhere, once the fence is down the home is the restored and migrated tree if the
      journal says committed, and otherwise the journal says rolled back and the home is the tree
      that was there before. */
  lemma AllOrNothing(d: Disk, a: Archive, n: nat, cs: seq<Command>, o: Tree)
    requires Fresh(d) && Lookup(d.slots, Home) == Some(o) && n > 0
    requires !Reached(d, a, n, cs).fence
    ensures var r := Reached(d, a, n, cs);
            if LastPhase(r.journal) == Some(Committed) then Lookup(r.slots, Home) == Some(a.migrated)
            else LastPhase(r.journal) == Some(RolledBack) && Lookup(r.slots, Home) == Some(o)
  {
    RestoreAllowed(d, a, o);
    CrashKeepsInv(d, RestorePlan(d, a).effects, n, o);
    RestoreDecides(d, a, n, o);
    CommandsDecide(Live(d, RestorePlan(d, a).effects, n), cs, a.migrated, o);
  }

  /** A recovery that finds a committed restore has only its fence to lift. */
  lemma RecoveryFinishesTheCommitted(d: Disk)
    requires d.fence && IsCommitted(d)
    ensures RecoverPlan(d).ok && Run(d, RecoverPlan(d).effects) == d.(fence := false)
  {
    Run1(d, DropFence);
  }

  // ---- what a rollback leaves --------------------------------------------------------------------

  /** The trees once the old home is back: what stood in its place is set aside as failed. */
  function PutBack(slots: map<Slot, Tree>): map<Slot, Tree> {
    if Rollback !in slots then slots
    else (if Home in slots then slots[Failed := slots[Home]] else slots)[Home := slots[Rollback]] - {Rollback}
  }

  /** And once what is staged is removed, of which part may survive. */
  function Swept(slots: map<Slot, Tree>, left: Option<Tree>): map<Slot, Tree> {
    if Staging !in slots then slots else if left.Some? then slots[Staging := left.value] else slots - {Staging}
  }

  lemma UndoLeaves(d: Disk, o: Tree)
    requires d.fence && Inv0(d, o)
    ensures Run(d, UndoPlan(d).effects).slots == PutBack(d.slots)
  {
    if Rollback in d.slots {
      if Home in d.slots {
        var q := RenamePlan(d, QuarantineFailedHome, Home, Failed);
        RenameRuns(d, QuarantineFailedHome, Home, Failed);
        var d1 := Run(d, q.effects);
        RenameRuns(d1, RestoreOldHome, Rollback, Home);
        RunAppend(d, q.effects, RenamePlan(d1, RestoreOldHome, Rollback, Home).effects);
      } else {
        RenameRuns(d, RestoreOldHome, Rollback, Home);
      }
    }
  }

  /** Exactly what a rollback leaves of every tree, and that the failure handler of the restoring
      process leaves the same: the old home back if one was set aside, what stood there kept as
      failed, what was staged swept, and nothing else touched; the fence is down. */
  lemma RollbackLeaves(d: Disk, left: Option<Tree>, life: nat, o: Tree)
    requires d.fence && Inv0(d, o)
    ensures var r := Run(d, RollbackPlan(d, left).effects);
            r.slots == Swept(PutBack(d.slots), left) && !r.fence && LastPhase(r.journal) == Some(RolledBack)
    ensures var f := Run(d, CommandPlan(d, HandleFailure(left, life)).effects);
            f.slots == Swept(PutBack(d.slots), left) && !f.fence && LastPhase(f.journal) == Some(RolledBack)
  {
    RollbackLeavesSlots(d, left, o);
    var note := Append(Note);
    var d1 := Apply(d, note);
    EffectKeepsInv(d, note, o);
    RollbackLeavesSlots(d1, left, o);
    RunAppend(d, [note], RollbackPlan(d1, left).effects);
    Run1(d, note);
  }

  lemma RollbackLeavesSlots(d: Disk, left: Option<Tree>, o: Tree)
    requires d.fence && Inv0(d, o)
    ensures var r := Run(d, RollbackPlan(d, left).effects);
            RollbackPlan(d, left).ok && r.slots == Swept(PutBack(d.slots), left) && !r.fence && LastPhase(r.journal) == Some(RolledBack)
  {
    var start := Append(State(RollingBack));
    var d1 := Apply(d, start);
    EffectKeepsInv(d, start, o);
    UndoRuns(d1, o);
    UndoLeaves(d1, o);
    var undo, finish := UndoPlan(d1).effects, FinishRollback(left).effects;
    Run3(Run(d1, undo), finish[0], finish[1], finish[2]);
    RunAppend(d1, undo, finish);
    Run1(d, start);
    RunAppend(d, [start], undo + finish);
  }

  // ---- the journal of a completed restore ----------------------------------------------------------

  function Written(es: seq<Effect>): seq<Entry> {
    if es == [] then [] else (if es[0].Append? then [es[0].entry] else []) + Written(es[1..])
  }

  lemma {:induction false} RunWrites(d: Disk, es: seq<Effect>)
    ensures Run(d, es).journal == d.journal + Written(es)
    decreases |es|
  {
    if es != [] {
      var d1, head := Apply(d, es[0]), if es[0].Append? then [es[0].entry] else [];
      RunWrites(d1, es[1..]);
      assert d1.journal == d.journal + head;
      assert (d.journal + head) + Written(es[1..]) == d.journal + (head + Written(es[1..]));
    }
  }

  lemma {:induction false} WrittenAppend(a: seq<Effect>, b: seq<Effect>)
    ensures Written(a + b) == Written(a) + Written(b)
    decreases |a|
  {
    if a == [] {
      assert a + b == b;
    } else {
      var head := if a[0].Append? then [a[0].entry] else [];
      assert (a + b)[0] == a[0] && (a + b)[1..] == a[1..] + b;
      WrittenAppend(a[1..], b);
      assert head + (Written(a[1..]) + Written(b)) == (head + Written(a[1..])) + Written(b);
    }
  }

  function Phases(j: seq<Entry>): seq<Phase> {
    if j == [] then [] else (if j[0].State? then [j[0].phase] else []) + Phases(j[1..])
  }

  lemma {:induction false} PhasesAppend(a: seq<Entry>, b: seq<Entry>)
    ensures Phases(a + b) == Phases(a) + Phases(b)
    decreases |a|
  {
    if a == [] {
      assert a + b == b;
    } else {
      var head := if a[0].State? then [a[0].phase] else [];
      assert (a + b)[0] == a[0] && (a + b)[1..] == a[1..] + b;
      PhasesAppend(a[1..], b);
      assert head + (Phases(a[1..]) + Phases(b)) == (head + Phases(a[1..])) + Phases(b);
    }
  }

  /** Every intent in the list is committed in it. */
  predicate NoneOpen(j: seq<Entry>) {
    forall e :: e in j && e.Intent? ==> Commit(e.id) in j
  }

  /** What effects write: these phases, and no intent that they do not commit. */
  predicate Writes(es: seq<Effect>, phases: seq<Phase>) {
    Phases(Written(es)) == phases && NoneOpen(Written(es))
  }

  lemma WritesJoin(a: seq<Effect>, b: seq<Effect>, p: seq<Phase>, q: seq<Phase>)
    requires Writes(a, p) && Writes(b, q)
    ensures Writes(a + b, p + q)
  {
    WrittenAppend(a, b);
    PhasesAppend(Written(a), Written(b));
  }

  lemma RenameWrites(d: Disk, id: ActionId, s: Slot, t: Slot)
    requires RenamePlan(d, id, s, t).ok
    ensures Writes(RenamePlan(d, id, s, t).effects, [])
  {
    var es := RenamePlan(d, id, s, t).effects;
    assert es[1..][1..] == [es[2]] && [es[2]][1..] == [];
    assert Written([es[2]]) == [es[2].entry] + Written([]);
    assert Written(es[1..]) == [es[2].entry];
    assert Written(es) == [es[0].entry, es[2].entry];
    var j := [es[0].entry, es[2].entry];
    assert j[1..] == [es[2].entry] && [es[2].entry][1..] == [];
    assert Phases([es[2].entry]) == [] && Phases(j) == [];
    assert j[0].id == es[2].entry.id && j[1] == Commit(j[0].id);
  }

  lemma MarkWrites(phase: Phase)
    ensures Writes([Append(State(phase))], [phase])
  {
    var es := [Append(State(phase))];
    assert es[1..] == [];
    assert Written(es) == [State(phase)] && Written(es)[1..] == [];
  }

  lemma {:induction false} WorkspacesWrite(d: Disk, steps: seq<WorkspaceStep>)
    requires WorkspacePlan(d, steps).ok
    ensures Writes(WorkspacePlan(d, steps).effects, [])
    decreases |steps|
  {
    if steps != [] {
      var p := StepPlan(d, steps[0]);
      match steps[0] {
        case Copy(n, tree) => assert p.effects[1..] == [];
        case Rename(id, s, t) => RenameWrites(d, WorkspaceAction(id), Workspace(s), Workspace(t));
      }
      var d1 := Run(d, p.effects);
      WorkspacesWrite(d1, steps[1..]);
      WritesJoin(p.effects, WorkspacePlan(d1, steps[1..]).effects, [], []);
    }
  }

  function PhaseOf(e: Effect): seq<Phase> {
    if e.Append? && e.entry.State? then [e.entry.phase] else []
  }

  lemma OneMoreWrites(e: Effect, rest: seq<Effect>, phases: seq<Phase>)
    requires Writes(rest, phases) && (e.Append? ==> !e.entry.Intent?)
    ensures Writes([e] + rest, PhaseOf(e) + phases)
  {
    var es, head := [e] + rest, if e.Append? then [e.entry] else [];
    assert es[1..] == rest;
    assert Written(es) == head + Written(rest);
    if e.Append? {
      assert head[1..] == [];
      assert Phases(head) == PhaseOf(e);
    }
    PhasesAppend(head, Written(rest));
  }

  predicate NoIntents(es: seq<Effect>) {
    forall e :: e in es && e.Append? ==> !e.entry.Intent?
  }

  function PhasesOf(es: seq<Effect>): seq<Phase> {
    if es == [] then [] else PhaseOf(es[0]) + PhasesOf(es[1..])
  }

  lemma {:induction false} StatesWrite(es: seq<Effect>)
    requires NoIntents(es)
    ensures Writes(es, PhasesOf(es))
    decreases |es|
  {
    if es != [] {
      assert es[0] in es && forall e :: e in es[1..] ==> e in es;
      StatesWrite(es[1..]);
      OneMoreWrites(es[0], es[1..], PhasesOf(es[1..]));
      assert [es[0]] + es[1..] == es;
    }
  }

  lemma ThreeWrite(x: Effect, y: Effect, z: Effect)
    requires NoIntents([x, y, z])
    ensures Writes([x, y, z], PhaseOf(x) + (PhaseOf(y) + PhaseOf(z)))
  {
    StatesWrite([x, y, z]);
    assert [x, y, z][1..] == [y, z] && [y, z][1..] == [z] && [z][1..] == [];
    assert PhasesOf([z]) == PhaseOf(z) + [] == PhaseOf(z);
    assert PhasesOf([y, z]) == PhaseOf(y) + PhaseOf(z);
  }

  lemma PrepareWrites(a: Archive)
    ensures Writes(PrepareEffects(a), [Preparing, Prepared, GatewayStopped])
  {
    var es := PrepareEffects(a);
    var first, second := [es[0], es[1], es[2]], [es[3], es[4], es[5]];
    ThreeWrite(es[0], es[1], es[2]);
    ThreeWrite(es[3], es[4], es[5]);
    MarkWrites(GatewayStopped);
    assert PhaseOf(es[0]) + (PhaseOf(es[1]) + PhaseOf(es[2])) == [Preparing];
    assert PhaseOf(es[3]) + (PhaseOf(es[4]) + PhaseOf(es[5])) == [Prepared];
    WritesJoin(second, [es[6]], [Prepared], [GatewayStopped]);
    WritesJoin(first, second + [es[6]], [Preparing], [Prepared] + [GatewayStopped]);
    assert es == first + (second + [es[6]]);
    assert [Preparing] + ([Prepared] + [GatewayStopped]) == [Preparing, Prepared, GatewayStopped];
  }

  lemma CommitWrites(a: Archive)
    ensures Writes(CommitEffects(a), [Migrated, HealthVerified, Committed])
  {
    var es := CommitEffects(a);
    var first, second := [es[0], es[1], es[2]], [es[3], es[4], es[5]];
    ThreeWrite(es[0], es[1], es[2]);
    ThreeWrite(es[3], es[4], es[5]);
    assert PhaseOf(es[0]) + (PhaseOf(es[1]) + PhaseOf(es[2])) == [Migrated, HealthVerified];
    assert PhaseOf(es[3]) + (PhaseOf(es[4]) + PhaseOf(es[5])) == [Committed];
    WritesJoin(first, second, [Migrated, HealthVerified], [Committed]);
    assert es == first + second;
    assert [Migrated, HealthVerified] + [Committed] == [Migrated, HealthVerified, Committed];
  }

  lemma SetAsideWrites(d: Disk)
    requires SetAsidePlan(d).ok
    ensures Writes(SetAsidePlan(d).effects, [OldHomeRenamed])
  {
    MarkWrites(OldHomeRenamed);
    if Home in d.slots {
      RenameWrites(d, RenameOldHome, Home, Rollback);
      WritesJoin(RenamePlan(d, RenameOldHome, Home, Rollback).effects, [Append(State(OldHomeRenamed))], [], [OldHomeRenamed]);
    } else {
      assert [] + [Append(State(OldHomeRenamed))] == [Append(State(OldHomeRenamed))];
    }
  }

  lemma InstallWrites(d: Disk)
    requires InstallPlan(d).ok
    ensures Writes(InstallPlan(d).effects, [NewHomeInstalled])
  {
    MarkWrites(NewHomeInstalled);
    RenameWrites(d, InstallNewHome, Staging, Home);
    WritesJoin(RenamePlan(d, InstallNewHome, Staging, Home).effects, [Append(State(NewHomeInstalled))], [], [NewHomeInstalled]);
  }

  lemma BeforeSettlingWrites(d: Disk, a: Archive)
    requires Fresh(d)
    ensures Writes(BeforeSettling(d, a), [Preparing, Prepared, GatewayStopped, OldHomeRenamed, NewHomeInstalled])
  {
    InstallingRuns(d, a);
    var e1 := PrepareEffects(a);
    var d1 := Run(d, e1);
    var e2 := SetAsidePlan(d1).effects;
    var d2 := Run(d1, e2);
    PrepareWrites(a);
    SetAsideWrites(d1);
    InstallWrites(d2);
    WritesJoin(e2, InstallPlan(d2).effects, [OldHomeRenamed], [NewHomeInstalled]);
    WritesJoin(e1, e2 + InstallPlan(d2).effects, [Preparing, Prepared, GatewayStopped], [OldHomeRenamed] + [NewHomeInstalled]);
    assert [Preparing, Prepared, GatewayStopped] + ([OldHomeRenamed] + [NewHomeInstalled])
        == [Preparing, Prepared, GatewayStopped, OldHomeRenamed, NewHomeInstalled];
  }

  lemma SettlingInWrites(d: Disk, a: Archive)
    requires SettleIn(d, a).ok
    ensures Writes(SettleIn(d, a).effects, [Migrated, HealthVerified, Committed])
  {
    WorkspacesWrite(d, a.workspaces);
    CommitWrites(a);
    WritesJoin(WorkspacePlan(d, a.workspaces).effects, CommitEffects(a), [], [Migrated, HealthVerified, Committed]);
    assert [] + [Migrated, HealthVerified, Committed] == [Migrated, HealthVerified, Committed];
  }

  /** The journal of a completed restore: every phase once and in order, and no intent open. */
  lemma CompletedJournal(d: Disk, a: Archive)
    requires Fresh(d) && RestorePlan(d, a).ok
    ensures var j := Run(d, RestorePlan(d, a).effects).journal;
            && Phases(j) == [Preparing, Prepared, GatewayStopped, OldHomeRenamed, NewHomeInstalled, Migrated, HealthVerified, Committed]
            && forall e :: e in j && e.Intent? ==> e.id in Commits(j)
  {
    RestoreInParts(d, a);
    var d3 := Run(d, BeforeSettling(d, a));
    var early, late := [Preparing, Prepared, GatewayStopped, OldHomeRenamed, NewHomeInstalled], [Migrated, HealthVerified, Committed];
    BeforeSettlingWrites(d, a);
    SettlingInWrites(d3, a);
    var all := RestorePlan(d, a).effects;
    WritesJoin(BeforeSettling(d, a), SettleIn(d3, a).effects, early, late);
    assert early + late == [Preparing, Prepared, GatewayStopped, OldHomeRenamed, NewHomeInstalled, Migrated, HealthVerified, Committed];
    RunWrites(d, all);
    assert d.journal + Written(all) == Written(all);
  }
}
