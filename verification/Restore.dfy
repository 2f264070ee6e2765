/** Whole-home restore: journalled renames, recovery and rollback (backup/restore.py).

    A process that holds the restore lock runs alone, so what it will write is a function
    of the disk it starts from: its plan, a sequence of durable effects. Process death
    at any point is then a strict prefix of the plan. */
module Restore {
  import opened Wrappers
  import C = Crash

  /** A directory tree. Different trees may share a fingerprint. */
  datatype Tree = Tree(content: nat, fingerprint: nat)

  datatype Slot = Home | Staging | Rollback | Failed | Workspace(n: nat)

  datatype ActionId =
    | RenameOldHome
    | InstallNewHome
    | QuarantineFailedHome
    | RestoreOldHome
    | WorkspaceAction(n: nat)
    | Retry(of: ActionId)

  datatype Phase =
    | Preparing | Prepared | GatewayStopped | OldHomeRenamed | NewHomeInstalled
    | Migrated | HealthVerified | Committed | RecoveryRequired | RollingBack | RolledBack

  datatype Entry =
    | State(phase: Phase)
    | Intent(id: ActionId, source: Slot, target: Slot, fingerprint: nat)
    | Commit(id: ActionId)
    | Note

  datatype Disk = Disk(slots: map<Slot, Tree>, journal: seq<Entry>, fence: bool)

  /** One durable effect. Sweep is a tree removal that ignores errors: part of the
      staging tree may survive it. */
  datatype Effect =
    | RaiseFence
    | DropFence
    | Append(entry: Entry)
    | Move(source: Slot, target: Slot)
    | Write(slot: Slot, tree: Tree)
    | Sweep(left: Option<Tree>)
    | Discard(slot: Slot)

  function Apply(d: Disk, e: Effect): Disk {
    match e
    case RaiseFence => d.(fence := true)
    case DropFence => d.(fence := false)
    case Append(entry) => d.(journal := d.journal + [entry])
    case Move(s, t) => if s in d.slots then d.(slots := (d.slots - {s})[t := d.slots[s]]) else d
    case Write(s, tree) => d.(slots := d.slots[s := tree])
    case Sweep(left) =>
      if Staging !in d.slots then d
      else if left.Some? then d.(slots := d.slots[Staging := left.value])
      else d.(slots := d.slots - {Staging})
    case Discard(s) => d.(slots := d.slots - {s})
  }

  function Run(d: Disk, es: seq<Effect>): Disk {
    C.Run(Apply, d, es)
  }

  /** What is on disk when the process dies after n durable effects. */
  function Live(d: Disk, es: seq<Effect>, n: nat): Disk {
    C.Live(Apply, d, es, n)
  }

  /** What a process would write; ok is false when it ends by raising. */
  datatype Plan = Plan(effects: seq<Effect>, ok: bool)

  /** Sequencing: next is what the process does on the disk that p leaves behind. */
  function Then(p: Plan, next: Plan): Plan {
    if p.ok then Plan(p.effects + next.effects, next.ok) else p
  }

  function Fingerprint(d: Disk, s: Slot): nat {
    if s in d.slots then d.slots[s].fingerprint else 0
  }

  function RenamePlan(d: Disk, id: ActionId, s: Slot, t: Slot): Plan {
    var intent := Append(Intent(id, s, t, Fingerprint(d, s)));
    if t in d.slots || s !in d.slots then Plan([intent], false)
    else Plan([intent, Move(s, t), Append(Commit(id))], true)
  }

  // ---- rollback -------------------------------------------------------------------

  function UndoPlan(d: Disk): Plan {
    if Rollback !in d.slots then Plan([], true)
    else if Home in d.slots then
      var quarantine := RenamePlan(d, QuarantineFailedHome, Home, Failed);
      Then(quarantine, RenamePlan(Run(d, quarantine.effects), RestoreOldHome, Rollback, Home))
    else RenamePlan(d, RestoreOldHome, Rollback, Home)
  }

  function FinishRollback(left: Option<Tree>): Plan {
    Plan([Sweep(left), Append(State(RolledBack)), DropFence], true)
  }

  function RollbackPlan(d: Disk, left: Option<Tree>): Plan {
    if !d.fence then Plan([], false)
    else
      var start := Append(State(RollingBack));
      Then(Plan([start], true), Then(UndoPlan(Apply(d, start)), FinishRollback(left)))
  }

  // ---- recover --------------------------------------------------------------------

  function Intents(j: seq<Entry>): set<ActionId> {
    set e | e in j && e.Intent? :: e.id
  }

  function Commits(j: seq<Entry>): set<ActionId> {
    set e | e in j && e.Commit? :: e.id
  }

  /** The intent ids in the order of a dictionary: the place of the first occurrence. */
  function IntentOrder(j: seq<Entry>): seq<ActionId> {
    if j == [] then []
    else
      var rest := IntentOrder(j[..|j| - 1]);
      var last := j[|j| - 1];
      if last.Intent? && last.id !in rest then rest + [last.id] else rest
  }

  /** The value a dictionary keeps for an id: the last occurrence. */
  function LastIntent(j: seq<Entry>, id: ActionId): (e: Option<Entry>)
    ensures e.Some? ==> e.value in j && e.value.Intent? && e.value.id == id
    ensures e.None? ==> forall x :: x in j && x.Intent? ==> x.id != id
  {
    if j == [] then None
    else
      var last := j[|j| - 1];
      if last.Intent? && last.id == id then Some(last) else LastIntent(j[..|j| - 1], id)
  }

  function LastPhase(j: seq<Entry>): Option<Phase> {
    if j == [] then None
    else if j[|j| - 1].State? then Some(j[|j| - 1].phase)
    else LastPhase(j[..|j| - 1])
  }

  /** What recovery does about one uncommitted intent. */
  function SettlePlan(d: Disk, i: Entry): Plan
    requires i.Intent?
  {
    if i.target in d.slots && d.slots[i.target].fingerprint == i.fingerprint && i.source !in d.slots then
      Plan([Append(Commit(i.id))], true)
    else if i.source in d.slots && d.slots[i.source].fingerprint == i.fingerprint && i.target !in d.slots then
      RenamePlan(d, Retry(i.id), i.source, i.target)
    else
      Plan([Append(State(RecoveryRequired))], false)
  }

  function SettleAll(d: Disk, j: seq<Entry>, ids: seq<ActionId>): Plan
    decreases |ids|
  {
    if ids == [] then Plan([], true)
    else if ids[0] in Commits(j) || LastIntent(j, ids[0]).None? then SettleAll(d, j, ids[1..])
    else
      var p := SettlePlan(d, LastIntent(j, ids[0]).value);
      Then(p, SettleAll(Run(d, p.effects), j, ids[1..]))
  }

  function RecoverPlan(d: Disk): Plan {
    if !d.fence || d.journal == [] then Plan([], false)
    else if LastPhase(d.journal) == Some(Committed) then Plan([DropFence], true)
    else SettleAll(d, d.journal, IntentOrder(d.journal))
  }

  // ---- restore --------------------------------------------------------------------

  /** What the journalled part of a workspace restore does, in order. */
  datatype WorkspaceStep = Copy(n: nat, tree: Tree) | Rename(id: nat, source: nat, target: nat)

  /** The choices the archive and the environment make for one restore. */
  datatype Archive = Archive(partial: Tree, extracted: Tree, migrated: Tree, workspaces: seq<WorkspaceStep>)

  function StepPlan(d: Disk, step: WorkspaceStep): Plan {
    match step
    case Copy(n, tree) => Plan([Write(Workspace(n), tree)], true)
    case Rename(id, s, t) => RenamePlan(d, WorkspaceAction(id), Workspace(s), Workspace(t))
  }

  function WorkspacePlan(d: Disk, steps: seq<WorkspaceStep>): Plan
    decreases |steps|
  {
    if steps == [] then Plan([], true)
    else
      var p := StepPlan(d, steps[0]);
      Then(p, WorkspacePlan(Run(d, p.effects), steps[1..]))
  }

  function PrepareEffects(a: Archive): seq<Effect> {
    [ RaiseFence, Append(State(Preparing)), Write(Staging, a.partial), Write(Staging, a.extracted),
      Append(State(Prepared)), Append(Note), Append(State(GatewayStopped)) ]
  }

  function SetAsidePlan(d: Disk): Plan {
    Then(if Home in d.slots then RenamePlan(d, RenameOldHome, Home, Rollback) else Plan([], true),
         Plan([Append(State(OldHomeRenamed))], true))
  }

  function InstallPlan(d: Disk): Plan {
    Then(RenamePlan(d, InstallNewHome, Staging, Home), Plan([Append(State(NewHomeInstalled))], true))
  }

  function CommitEffects(a: Archive): seq<Effect> {
    [ Write(Home, a.migrated), Append(State(Migrated)), Append(State(HealthVerified)),
      Append(State(Committed)), DropFence, Discard(Rollback) ]
  }

  function SettleIn(d: Disk, a: Archive): Plan {
    Then(WorkspacePlan(d, a.workspaces), Plan(CommitEffects(a), true))
  }

  function ReplacePlan(d1: Disk, a: Archive): Plan {
    var d2 := Run(d1, SetAsidePlan(d1).effects);
    var d3 := Run(d2, InstallPlan(d2).effects);
    Then(SetAsidePlan(d1), Then(InstallPlan(d2), SettleIn(d3, a)))
  }

  function RestorePlan(d: Disk, a: Archive): Plan {
    if d.fence then Plan([], false)
    else
      Then(Plan(PrepareEffects(a), true), ReplacePlan(Run(d, PrepareEffects(a)), a))
  }

  // ---- runs -----------------------------------------------------------------------

  /** A later process and the number of durable effects it lives for. HandleFailure is the
      handler inside the restoring process: it notes the failure, then rolls back. */
  datatype Command =
    | Recover(life: nat)
    | RollBack(left: Option<Tree>, life: nat)
    | HandleFailure(left: Option<Tree>, life: nat)

  function CommandPlan(d: Disk, c: Command): Plan {
    match c
    case Recover(_) => RecoverPlan(d)
    case RollBack(left, _) => RollbackPlan(d, left)
    case HandleFailure(left, _) => Then(Plan([Append(Note)], true), RollbackPlan(Apply(d, Append(Note)), left))
  }

  function RunCommands(d: Disk, cs: seq<Command>): Disk
    decreases |cs|
  {
    if cs == [] then d else RunCommands(Live(d, CommandPlan(d, cs[0]).effects, cs[0].life), cs[1..])
  }

  // ---- safety ---------------------------------------------------------------------

  /** The tree that was home when the restore began is in one known place. */
  predicate OldHomeKept(d: Disk, o: Tree) {
    if Rollback in d.slots then d.slots[Rollback] == o else Home in d.slots && d.slots[Home] == o
  }

  predicate KnownMove(s: Slot, t: Slot) {
    || (s == Home && t == Rollback)
    || (s == Staging && t == Home)
    || (s == Home && t == Failed)
    || (s == Rollback && t == Home)
    || (s.Workspace? && t.Workspace?)
  }

  /** A quarantine intent is in the journal only when replaying it cannot lose the old home. */
  predicate QuarantineHarmless(d: Disk) {
    Failed in d.slots || (Rollback in d.slots && Home in d.slots)
  }

  predicate JournalOk(d: Disk) {
    && (forall e :: e in d.journal && e.Intent? ==> KnownMove(e.source, e.target))
    && (forall e :: e in d.journal && e.Intent? && e.source == Home && e.target == Failed ==> QuarantineHarmless(d))
  }

  predicate SetsAside(e: Entry) {
    e.Intent? && e.source == Home && e.target == Rollback
  }

  predicate PutsBack(e: Entry) {
    e.Intent? && e.source == Rollback && e.target == Home
  }

  /** Every intent to set the home aside has been committed under its own name. */
  predicate SetAsideDone(j: seq<Entry>) {
    forall e :: e in j && SetsAside(e) ==> e.id in Commits(j)
  }

  /** So far the old home has only gone to and fro between home and rollback. */
  predicate Shuttling(d: Disk, o: Tree) {
    && (forall e :: e in d.journal && e.Intent? ==> (SetsAside(e) || PutsBack(e)) && e.fingerprint == o.fingerprint)
    && (Home in d.slots <==> Rollback !in d.slots)
    && (Home in d.slots ==> d.slots[Home] == o)
    && (Rollback in d.slots ==> d.slots[Rollback] == o)
  }

  predicate Inv0(d: Disk, o: Tree) {
    && OldHomeKept(d, o)
    && (SetAsideDone(d.journal) || Shuttling(d, o))
    && (Failed in d.slots ==> Staging !in d.slots)
    && (Rollback in d.slots && Home in d.slots ==> Staging !in d.slots && Failed !in d.slots)
    && JournalOk(d)
  }

  predicate Inv(d: Disk, o: Tree) {
    d.fence ==> Inv0(d, o)
  }

  /** When an effect keeps the record of setting the home aside straight. */
  predicate Straight(d: Disk, e: Effect, o: Tree) {
    match e
    case Append(entry) =>
      entry.Intent? ==>
        if SetsAside(entry) then Shuttling(d, o) && entry.fingerprint == o.fingerprint
        else SetAsideDone(d.journal) || (Shuttling(d, o) && PutsBack(entry) && entry.fingerprint == o.fingerprint)
    case Move(s, t) =>
      SetAsideDone(d.journal) || (Shuttling(d, o) && ((s == Home && t == Rollback) || (s == Rollback && t == Home)))
    case Write(s, _) => s == Home || s == Rollback ==> SetAsideDone(d.journal)
    case _ => true
  }

  /** When an effect is safe to perform. A rename needs its source and a free target. */
  predicate Allowed(d: Disk, e: Effect, o: Tree) {
    match e
    case RaiseFence => Inv0(d, o)
    case DropFence => true
    case Append(entry) =>
      d.fence && entry.Intent? ==>
        && Straight(d, e, o) && KnownMove(entry.source, entry.target)
        && (entry.source == Home && entry.target == Failed ==> QuarantineHarmless(d))
    case Move(s, t) =>
      d.fence && s in d.slots && t !in d.slots && KnownMove(s, t) && Straight(d, e, o)
      && (s == Home && t == Failed ==> Rollback in d.slots)
    case Write(s, _) =>
      d.fence && Straight(d, e, o) &&
      (s == Staging ==> Failed !in d.slots && !(Rollback in d.slots && Home in d.slots))
      && (s == Home ==> Rollback in d.slots && Home in d.slots)
      && (s == Staging || s == Home || s.Workspace?)
    case Sweep(_) => true
    case Discard(_) => !d.fence
  }

  predicate AllAllowed(d: Disk, es: seq<Effect>, o: Tree)
    decreases |es|
  {
    es == [] || (Allowed(d, es[0], o) && AllAllowed(Apply(d, es[0]), es[1..], o))
  }

  lemma ShuttlingStays(d: Disk, e: Effect, o: Tree)
    requires Shuttling(d, o) && Straight(d, e, o) && (e.Discard? ==> e.slot != Home && e.slot != Rollback)
    requires e.Move? ==> e.source in d.slots && e.target !in d.slots
    ensures Shuttling(Apply(d, e), o) || SetAsideDone(Apply(d, e).journal)
  {
    var d' := Apply(d, e);
    if e.Append? {
      assert forall x :: x in d'.journal ==> x in d.journal || x == e.entry;
      if e.entry.Intent? && !SetsAside(e.entry) && !PutsBack(e.entry) {
        SetAsideDoneStays(d.journal, e.entry);
      }
    }
  }

  lemma SetAsideDoneStays(j: seq<Entry>, e: Entry)
    requires SetAsideDone(j) && !SetsAside(e)
    ensures SetAsideDone(j + [e])
  {
    forall x | x in j + [e] && SetsAside(x) ensures x.id in Commits(j + [e]) {
      assert x in j && x.id in Commits(j);
    }
  }

  lemma EffectKeepsInv(d: Disk, e: Effect, o: Tree)
    requires Inv(d, o) && Allowed(d, e, o)
    ensures Inv(Apply(d, e), o)
  {
    var d' := Apply(d, e);
    if d'.fence && d.fence {
      if e.Append? && SetAsideDone(d.journal) && !SetsAside(e.entry) {
        SetAsideDoneStays(d.journal, e.entry);
      } else if Shuttling(d, o) {
        ShuttlingStays(d, e, o);
      }
      assert forall x :: x in d'.journal ==> x in d.journal || (e.Append? && x == e.entry);
    }
  }

  lemma {:induction false} RunKeepsInv(d: Disk, es: seq<Effect>, o: Tree)
    requires Inv(d, o) && AllAllowed(d, es, o)
    ensures Inv(Run(d, es), o)
    decreases |es|
  {
    if es != [] {
      EffectKeepsInv(d, es[0], o);
      RunKeepsInv(Apply(d, es[0]), es[1..], o);
    }
  }

  lemma RunAppend(d: Disk, a: seq<Effect>, b: seq<Effect>)
    ensures Run(d, a + b) == Run(Run(d, a), b)
  {
    C.RunAppend(Apply, d, a, b);
  }

  lemma {:induction false} AllowedAppend(d: Disk, a: seq<Effect>, b: seq<Effect>, o: Tree)
    ensures AllAllowed(d, a + b, o) <==> AllAllowed(d, a, o) && AllAllowed(Run(d, a), b, o)
    decreases |a|
  {
    if a == [] {
      assert a + b == b;
    } else {
      assert (a + b)[1..] == a[1..] + b;
      AllowedAppend(Apply(d, a[0]), a[1..], b, o);
    }
  }

  /** Death is a prefix: whatever holds of all prefixes holds at every crash point. */
  lemma CrashKeepsInv(d: Disk, es: seq<Effect>, n: nat, o: Tree)
    requires Inv(d, o) && AllAllowed(d, es, o)
    ensures Inv(Live(d, es, n), o)
  {
    var k := Min(n, |es|);
    assert es == es[..k] + es[k..];
    AllowedAppend(d, es[..k], es[k..], o);
    RunKeepsInv(d, es[..k], o);
  }

  lemma LiveAppend(d: Disk, a: seq<Effect>, b: seq<Effect>, n: nat)
    ensures Live(d, a + b, n) == Live(Live(d, a, n), b, Monus(n, |a|))
  {
    C.LiveAppend(Apply, d, a, b, n);
  }

  lemma Run1(d: Disk, e: Effect)
    ensures Run(d, [e]) == Apply(d, e)
  {
    C.Run1(Apply, d, e);
  }

  lemma Run3(d: Disk, a: Effect, b: Effect, c: Effect)
    ensures Run(d, [a, b, c]) == Apply(Apply(Apply(d, a), b), c)
  {
    C.Run3(Apply, d, a, b, c);
  }

  lemma Allowed3(d: Disk, a: Effect, b: Effect, c: Effect, o: Tree)
    ensures AllAllowed(d, [a, b, c], o) <==>
              Allowed(d, a, o) && Allowed(Apply(d, a), b, o) && Allowed(Apply(Apply(d, a), b), c, o)
  {
    assert [a, b, c][1..] == [b, c];
    assert [b, c][1..] == [c];
    assert [c][1..] == [];
    var d1, d2 := Apply(d, a), Apply(Apply(d, a), b);
    assert AllAllowed(d2, [c], o) <==> Allowed(d2, c, o);
    assert AllAllowed(d1, [b, c], o) <==> Allowed(d1, b, o) && AllAllowed(d2, [c], o);
  }

  /** A rename keeps the record straight: setting the home aside only while it shuttles; anything
      else once that is done, or putting it back. */
  predicate StraightRename(d: Disk, s: Slot, t: Slot, o: Tree) {
    if s == Home && t == Rollback then Shuttling(d, o) && Home in d.slots
    else SetAsideDone(d.journal) || (Shuttling(d, o) && s == Rollback && t == Home && Rollback in d.slots)
  }

  lemma IntentKeepsStraight(d: Disk, id: ActionId, s: Slot, t: Slot, o: Tree)
    requires StraightRename(d, s, t, o)
    ensures var intent := Append(Intent(id, s, t, Fingerprint(d, s)));
            Straight(d, intent, o) && Straight(Apply(d, intent), Move(s, t), o)
  {
    var e := Intent(id, s, t, Fingerprint(d, s));
    if SetAsideDone(d.journal) && !SetsAside(e) {
      SetAsideDoneStays(d.journal, e);
    } else {
      assert forall x :: x in d.journal + [e] ==> x in d.journal || x == e;
      assert Shuttling(Apply(d, Append(e)), o);
    }
  }

  /** A rename plan is safe when its move is. */
  lemma RenameAllowed(d: Disk, id: ActionId, s: Slot, t: Slot, o: Tree)
    requires d.fence && Inv0(d, o) && KnownMove(s, t) && StraightRename(d, s, t, o)
    requires s == Home && t == Failed ==> QuarantineHarmless(d)
    requires s in d.slots && t !in d.slots && s == Home && t == Failed ==> Rollback in d.slots
    ensures AllAllowed(d, RenamePlan(d, id, s, t).effects, o)
  {
    var p := RenamePlan(d, id, s, t);
    IntentKeepsStraight(d, id, s, t, o);
    if p.ok {
      Allowed3(d, p.effects[0], p.effects[1], p.effects[2], o);
      EffectKeepsInv(d, p.effects[0], o);
    } else {
      assert p.effects[1..] == [];
    }
  }

  lemma RenameRuns(d: Disk, id: ActionId, s: Slot, t: Slot)
    requires s in d.slots && t !in d.slots
    ensures var p := RenamePlan(d, id, s, t);
            var d' := Run(d, p.effects);
            p.ok && d'.slots == (d.slots - {s})[t := d.slots[s]] && d'.fence == d.fence
            && d'.journal == d.journal + [Intent(id, s, t, d.slots[s].fingerprint), Commit(id)]
  {
    var p := RenamePlan(d, id, s, t);
    Run3(d, p.effects[0], p.effects[1], p.effects[2]);
  }

  lemma RenameKeepsDone(d: Disk, id: ActionId, s: Slot, t: Slot)
    requires s in d.slots && t !in d.slots
    requires if s == Home && t == Rollback then NoneSetAside(d.journal) else SetAsideDone(d.journal)
    ensures SetAsideDone(Run(d, RenamePlan(d, id, s, t).effects).journal)
  {
    RenameRuns(d, id, s, t);
    var j' := Run(d, RenamePlan(d, id, s, t).effects).journal;
    assert j'[|d.journal| + 1] == Commit(id);
    assert Commit(id) in j';
    forall e | e in j' && SetsAside(e) ensures e.id in Commits(j') {
      assert e in d.journal || e.id == id;
    }
  }

  predicate NoneSetAside(j: seq<Entry>) {
    forall e :: e in j ==> !SetsAside(e)
  }

  // ---- rollback: always completes, always gives the old home back ------------------

  lemma UndoRuns(d: Disk, o: Tree)
    requires d.fence && Inv0(d, o)
    ensures var p := UndoPlan(d);
            var d' := Run(d, p.effects);
            p.ok && AllAllowed(d, p.effects, o) && d'.fence
            && Rollback !in d'.slots && Lookup(d'.slots, Home) == Some(o)
  {
    if Rollback in d.slots {
      if Home in d.slots {
        var q := RenamePlan(d, QuarantineFailedHome, Home, Failed);
        RenameAllowed(d, QuarantineFailedHome, Home, Failed, o);
        RenameRuns(d, QuarantineFailedHome, Home, Failed);
        RunKeepsInv(d, q.effects, o);
        RenameKeepsDone(d, QuarantineFailedHome, Home, Failed);
        var d1 := Run(d, q.effects);
        RenameAllowed(d1, RestoreOldHome, Rollback, Home, o);
        RenameRuns(d1, RestoreOldHome, Rollback, Home);
        var r := RenamePlan(d1, RestoreOldHome, Rollback, Home);
        AllowedAppend(d, q.effects, r.effects, o);
        RunAppend(d, q.effects, r.effects);
      } else {
        RenameAllowed(d, RestoreOldHome, Rollback, Home, o);
        RenameRuns(d, RestoreOldHome, Rollback, Home);
      }
    }
  }

  lemma RollbackRuns(d: Disk, left: Option<Tree>, o: Tree)
    requires d.fence && Inv0(d, o)
    ensures var p := RollbackPlan(d, left);
            var d' := Run(d, p.effects);
            p.ok && AllAllowed(d, p.effects, o) && !d'.fence
            && Rollback !in d'.slots && Lookup(d'.slots, Home) == Some(o)
  {
    var start := Append(State(RollingBack));
    var d1 := Apply(d, start);
    EffectKeepsInv(d, start, o);
    UndoRuns(d1, o);
    var u := UndoPlan(d1).effects;
    var d2 := Run(d1, u);
    var f := FinishRollback(left).effects;
    Run3(d2, f[0], f[1], f[2]);
    Allowed3(d2, f[0], f[1], f[2], o);
    RunAppend(d1, u, f);
    AllowedAppend(d1, u, f, o);
    Run1(d, start);
    RunAppend(d, [start], u + f);
    AllowedAppend(d, [start], u + f, o);
    assert AllAllowed(d, [start], o) by { assert [start][1..] == []; }
  }

  // ---- recover: every replay is safe ------------------------------------------------

  /** An intent that recovery may settle: not a finished setting aside, unless the home shuttles. */
  predicate MaySettle(d: Disk, i: Entry, o: Tree) {
    Shuttling(d, o) || (SetAsideDone(d.journal) && !SetsAside(i))
  }

  lemma SettleAllowed(d: Disk, i: Entry, o: Tree)
    requires d.fence && Inv0(d, o) && i in d.journal
    requires i.Intent? && MaySettle(d, i, o)
    ensures AllAllowed(d, SettlePlan(d, i).effects, o)
  {
    var p := SettlePlan(d, i);
    if |p.effects| == 1 {
      assert p.effects[1..] == [];
    } else {
      RenameAllowed(d, Retry(i.id), i.source, i.target, o);
    }
  }

  /** While the home shuttles, settling any intent succeeds, and leaves the home at its target. */
  lemma SettleShuttles(d: Disk, i: Entry, o: Tree)
    requires Shuttling(d, o) && i in d.journal && i.Intent?
    ensures var p := SettlePlan(d, i);
            var d' := Run(d, p.effects);
            && p.ok && Shuttling(d', o) && i.target in d'.slots && d'.fence == d.fence
            && (i.target in d.slots ==> p.effects == [Append(Commit(i.id))])
            && (i.target !in d.slots ==> Move(i.source, i.target) in p.effects)
  {
    var p := SettlePlan(d, i);
    if i.target in d.slots {
      Run1(d, p.effects[0]);
      assert forall x :: x in d.journal + [Commit(i.id)] ==> x in d.journal || x == Commit(i.id);
    } else {
      RenameRuns(d, Retry(i.id), i.source, i.target);
      SettleKeepsFence(d, i);
      assert p.effects[1] == Move(i.source, i.target);
      var d' := Run(d, p.effects);
      assert forall x :: x in d'.journal && x.Intent? ==> x in d.journal || x == Intent(Retry(i.id), i.source, i.target, o.fingerprint);
    }
  }

  /** Entries already in the journal stay there. */
  lemma {:induction false} RunGrowsJournal(d: Disk, es: seq<Effect>)
    ensures d.journal <= Run(d, es).journal
    decreases |es|
  {
    if es != [] {
      RunGrowsJournal(Apply(d, es[0]), es[1..]);
    }
  }

  lemma SettleKeepsFence(d: Disk, i: Entry)
    requires i.Intent?
    ensures Run(d, SettlePlan(d, i).effects).fence == d.fence
  {
    var p := SettlePlan(d, i);
    if |p.effects| == 1 {
      Run1(d, p.effects[0]);
    } else {
      Run3(d, p.effects[0], p.effects[1], p.effects[2]);
    }
  }

  /** What recovery finds in the journal j it reads first, while it changes the disk. */
  predicate Resumable(d: Disk, j: seq<Entry>, o: Tree) {
    j <= d.journal && (Shuttling(d, o) || (SetAsideDone(j) && SetAsideDone(d.journal)))
  }

  lemma SettleKeepsDone(d: Disk, i: Entry, o: Tree)
    requires i.Intent? && SetAsideDone(d.journal) && !SetsAside(i)
    ensures SetAsideDone(Run(d, SettlePlan(d, i).effects).journal)
  {
    var p := SettlePlan(d, i);
    if |p.effects| == 1 {
      Run1(d, p.effects[0]);
      SetAsideDoneStays(d.journal, p.effects[0].entry);
    } else {
      RenameKeepsDone(d, Retry(i.id), i.source, i.target);
    }
  }

  lemma {:induction false} SettleAllAllowed(d: Disk, j: seq<Entry>, ids: seq<ActionId>, o: Tree)
    requires d.fence && Inv0(d, o) && Resumable(d, j, o)
    ensures AllAllowed(d, SettleAll(d, j, ids).effects, o)
    decreases |ids|
  {
    if ids == [] {
    } else if ids[0] in Commits(j) || LastIntent(j, ids[0]).None? {
      SettleAllAllowed(d, j, ids[1..], o);
    } else {
      var i := LastIntent(j, ids[0]).value;
      assert i in d.journal;
      var p := SettlePlan(d, i);
      SettleAllowed(d, i, o);
      if p.ok {
        RunKeepsInv(d, p.effects, o);
        SettleKeepsFence(d, i);
        RunGrowsJournal(d, p.effects);
        var d' := Run(d, p.effects);
        if Shuttling(d, o) {
          SettleShuttles(d, i, o);
        } else {
          SettleKeepsDone(d, i, o);
        }
        SettleAllAllowed(d', j, ids[1..], o);
        AllowedAppend(d, p.effects, SettleAll(d', j, ids[1..]).effects, o);
      }
    }
  }

  lemma CommandAllowed(d: Disk, c: Command, o: Tree)
    requires Inv(d, o)
    ensures AllAllowed(d, CommandPlan(d, c).effects, o)
  {
    match c
    case Recover(_) =>
      if d.fence && d.journal != [] {
        if LastPhase(d.journal) == Some(Committed) {
          assert [DropFence][1..] == [];
        } else {
          SettleAllAllowed(d, d.journal, IntentOrder(d.journal), o);
        }
      }
    case RollBack(left, _) =>
      if d.fence {
        RollbackRuns(d, left, o);
      }
    case HandleFailure(left, _) =>
      var note := Append(Note);
      var d1 := Apply(d, note);
      EffectKeepsInv(d, note, o);
      assert AllAllowed(d, [note], o) by { assert [note][1..] == []; }
      if d.fence {
        RollbackRuns(d1, left, o);
      }
      Run1(d, note);
      AllowedAppend(d, [note], RollbackPlan(d1, left).effects, o);
  }

  lemma {:induction false} CommandsKeepInv(d: Disk, cs: seq<Command>, o: Tree)
    requires Inv(d, o)
    ensures Inv(RunCommands(d, cs), o)
    decreases |cs|
  {
    if cs != [] {
      CommandAllowed(d, cs[0], o);
      CrashKeepsInv(d, CommandPlan(d, cs[0]).effects, cs[0].life, o);
      CommandsKeepInv(Live(d, CommandPlan(d, cs[0]).effects, cs[0].life), cs[1..], o);
    }
  }

  // ---- the restore itself -----------------------------------------------------------

  /** The disk before a restore: its own slots are free and its journal is empty. */
  predicate Fresh(d: Disk) {
    !d.fence && d.journal == [] && Staging !in d.slots && Rollback !in d.slots && Failed !in d.slots
  }

  lemma {:induction false} WorkspaceAllowed(d: Disk, steps: seq<WorkspaceStep>, o: Tree)
    requires d.fence && Inv0(d, o) && Rollback in d.slots && Home in d.slots
    ensures var p := WorkspacePlan(d, steps);
            var d' := Run(d, p.effects);
            AllAllowed(d, p.effects, o) && d'.fence && Rollback in d'.slots && Home in d'.slots
    decreases |steps|
  {
    if steps != [] {
      var p: Plan;
      match steps[0] {
        case Copy(n, tree) =>
          p := Plan([Write(Workspace(n), tree)], true);
          assert p.effects[1..] == [];
          Run1(d, p.effects[0]);
        case Rename(id, s, t) =>
          p := RenamePlan(d, WorkspaceAction(id), Workspace(s), Workspace(t));
          RenameAllowed(d, WorkspaceAction(id), Workspace(s), Workspace(t), o);
          if p.ok {
            RenameRuns(d, WorkspaceAction(id), Workspace(s), Workspace(t));
          } else {
            Run1(d, p.effects[0]);
          }
      }
      RunKeepsInv(d, p.effects, o);
      if p.ok {
        var d1 := Run(d, p.effects);
        WorkspaceAllowed(d1, steps[1..], o);
        var q := WorkspacePlan(d1, steps[1..]);
        AllowedAppend(d, p.effects, q.effects, o);
        RunAppend(d, p.effects, q.effects);
      }
    }
  }

  lemma PrepareRuns(d: Disk, a: Archive)
    requires Fresh(d)
    ensures var d' := Run(d, PrepareEffects(a));
            && d'.fence && d'.slots == d.slots[Staging := a.extracted]
            && d'.journal == [State(Preparing), State(Prepared), Note, State(GatewayStopped)]
            && (forall o :: Lookup(d.slots, Home) == Some(o) ==> AllAllowed(d, PrepareEffects(a), o))
  {
    var es := PrepareEffects(a);
    var head, tail := es[..4], es[4..];
    assert es == head + tail;
    var d1 := Apply(Apply(Apply(d, es[0]), es[1]), es[2]);
    Run3(d, es[0], es[1], es[2]);
    Run1(d1, es[3]);
    assert head == [es[0], es[1], es[2]] + [es[3]];
    RunAppend(d, [es[0], es[1], es[2]], [es[3]]);
    var d2 := Apply(d1, es[3]);
    RunAppend(d, head, tail);
    Run3(d2, es[4], es[5], es[6]);
    assert tail == [es[4], es[5], es[6]];
    assert d.slots[Staging := a.partial][Staging := a.extracted] == d.slots[Staging := a.extracted];
    forall o | Lookup(d.slots, Home) == Some(o)
      ensures AllAllowed(d, es, o)
    {
      Allowed3(d, es[0], es[1], es[2], o);
      AllowedAppend(d, [es[0], es[1], es[2]], [es[3]], o);
      assert AllAllowed(d1, [es[3]], o) by { assert [es[3]][1..] == []; }
      AllowedAppend(d, head, tail, o);
      Allowed3(d2, es[4], es[5], es[6], o);
    }
  }

  lemma CommitAllowed(d: Disk, a: Archive, o: Tree)
    requires d.fence && Inv0(d, o) && Rollback in d.slots && Home in d.slots
    ensures AllAllowed(d, CommitEffects(a), o)
  {
    var es := CommitEffects(a);
    assert es == [es[0], es[1], es[2]] + [es[3], es[4], es[5]];
    Allowed3(d, es[0], es[1], es[2], o);
    Run3(d, es[0], es[1], es[2]);
    var d1 := Run(d, [es[0], es[1], es[2]]);
    Allowed3(d1, es[3], es[4], es[5], o);
    AllowedAppend(d, [es[0], es[1], es[2]], [es[3], es[4], es[5]], o);
  }

  /** The rename that sets the old home aside, and the entry that says so. */
  lemma SetAsideAllowed(d: Disk, o: Tree)
    requires d.fence && Inv0(d, o) && NoneSetAside(d.journal) && Shuttling(d, o)
    requires Home in d.slots && Staging in d.slots
    ensures var p := SetAsidePlan(d);
            var d' := Run(d, p.effects);
            && p.ok && AllAllowed(d, p.effects, o) && d'.fence && Inv0(d', o) && SetAsideDone(d'.journal)
            && Rollback in d'.slots && Home !in d'.slots && Staging in d'.slots
  {
    var rename, mark := RenamePlan(d, RenameOldHome, Home, Rollback).effects, Append(State(OldHomeRenamed));
    RenameAllowed(d, RenameOldHome, Home, Rollback, o);
    RenameRuns(d, RenameOldHome, Home, Rollback);
    RenameKeepsDone(d, RenameOldHome, Home, Rollback);
    RunKeepsInv(d, rename, o);
    MarkAllowed(d, rename, mark, o);
    SetAsideDoneStays(Run(d, rename).journal, State(OldHomeRenamed));
  }

  /** An entry that is no intent may follow any allowed effects. */
  lemma MarkAllowed(d: Disk, es: seq<Effect>, mark: Effect, o: Tree)
    requires AllAllowed(d, es, o) && mark.Append? && !mark.entry.Intent?
    ensures AllAllowed(d, es + [mark], o) && Run(d, es + [mark]) == Apply(Run(d, es), mark)
    ensures Inv(Run(d, es), o) ==> Inv(Run(d, es + [mark]), o)
  {
    var d1 := Run(d, es);
    assert AllAllowed(d1, [mark], o) by { assert [mark][1..] == []; }
    AllowedAppend(d, es, [mark], o);
    RunAppend(d, es, [mark]);
    Run1(d1, mark);
    if Inv(d1, o) {
      EffectKeepsInv(d1, mark, o);
    }
  }

  lemma InstallAllowed(d: Disk, o: Tree)
    requires d.fence && Inv0(d, o) && SetAsideDone(d.journal)
    requires Rollback in d.slots && Home !in d.slots && Staging in d.slots
    ensures var p := InstallPlan(d);
            var d' := Run(d, p.effects);
            && p.ok && AllAllowed(d, p.effects, o) && d'.fence && Inv0(d', o)
            && Rollback in d'.slots && Home in d'.slots
  {
    var rename, mark := RenamePlan(d, InstallNewHome, Staging, Home).effects, Append(State(NewHomeInstalled));
    RenameAllowed(d, InstallNewHome, Staging, Home, o);
    RenameRuns(d, InstallNewHome, Staging, Home);
    RunKeepsInv(d, rename, o);
    MarkAllowed(d, rename, mark, o);
  }

  lemma SettlingInAllowed(d: Disk, a: Archive, o: Tree)
    requires d.fence && Inv0(d, o) && Rollback in d.slots && Home in d.slots
    ensures AllAllowed(d, SettleIn(d, a).effects, o)
  {
    WorkspaceAllowed(d, a.workspaces, o);
    var w := WorkspacePlan(d, a.workspaces);
    RunKeepsInv(d, w.effects, o);
    CommitAllowed(Run(d, w.effects), a, o);
    AllowedAppend(d, w.effects, CommitEffects(a), o);
  }

  lemma RestoreAllowed(d: Disk, a: Archive, o: Tree)
    requires Fresh(d) && Lookup(d.slots, Home) == Some(o)
    ensures AllAllowed(d, RestorePlan(d, a).effects, o)
  {
    PrepareRuns(d, a);
    var e1 := PrepareEffects(a);
    var d1 := Run(d, e1);
    RunKeepsInv(d, e1, o);
    SetAsideAllowed(d1, o);
    var e2 := SetAsidePlan(d1).effects;
    var d2 := Run(d1, e2);
    InstallAllowed(d2, o);
    var e3 := InstallPlan(d2).effects;
    var d3 := Run(d2, e3);
    SettlingInAllowed(d3, a, o);
    var e4 := SettleIn(d3, a).effects;
    AllowedAppend(d2, e3, e4, o);
    AllowedAppend(d1, e2, e3 + e4, o);
    AllowedAppend(d, e1, e2 + (e3 + e4), o);
  }

  // ---- main results -----------------------------------------------------------------

  /** The disk after a restore that lived for n effects and any later processes. */
  function Reached(d: Disk, a: Archive, n: nat, cs: seq<Command>): Disk {
    RunCommands(Live(d, RestorePlan(d, a).effects, n), cs)
  }

  /** Crash safety: however often restore, recover and rollback die, while the fence stands
      the old home is kept, and a rollback that runs to its end returns it and lifts the fence. */
  lemma RestoreCrashSafety(d: Disk, a: Archive, n: nat, cs: seq<Command>, left: Option<Tree>, o: Tree)
    requires Fresh(d) && Lookup(d.slots, Home) == Some(o)
    requires Reached(d, a, n, cs).fence
    ensures OldHomeKept(Reached(d, a, n, cs), o)
    ensures var p := RollbackPlan(Reached(d, a, n, cs), left);
            var d' := Run(Reached(d, a, n, cs), p.effects);
            p.ok && Lookup(d'.slots, Home) == Some(o) && Rollback !in d'.slots && !d'.fence
  {
    ReachedInv(d, a, n, cs, o);
    RollbackRuns(Reached(d, a, n, cs), left, o);
  }

  lemma ReachedInv(d: Disk, a: Archive, n: nat, cs: seq<Command>, o: Tree)
    requires Fresh(d) && Lookup(d.slots, Home) == Some(o)
    ensures Inv(Reached(d, a, n, cs), o)
  {
    RestoreAllowed(d, a, o);
    CrashKeepsInv(d, RestorePlan(d, a).effects, n, o);
    CommandsKeepInv(Live(d, RestorePlan(d, a).effects, n), cs, o);
  }

  /** Every move a plan would make finds its source and a free target. */
  predicate NoOverwrite(d: Disk, es: seq<Effect>) {
    forall k :: 0 <= k < |es| && es[k].Move? ==>
      es[k].source in Run(d, es[..k]).slots && es[k].target !in Run(d, es[..k]).slots
  }

  lemma NoMovesNoOverwrite(d: Disk, es: seq<Effect>)
    requires forall e :: e in es ==> !e.Move?
    ensures NoOverwrite(d, es)
  {
  }

  lemma RenameNeverOverwrites(d: Disk, id: ActionId, s: Slot, t: Slot)
    ensures NoOverwrite(d, RenamePlan(d, id, s, t).effects)
  {
    var es := RenamePlan(d, id, s, t).effects;
    forall k | 0 <= k < |es| && es[k].Move?
      ensures es[k].source in Run(d, es[..k]).slots && es[k].target !in Run(d, es[..k]).slots
    {
      assert es[..k] == [es[0]];
      Run1(d, es[0]);
    }
  }

  lemma ThenNeverOverwrites(d: Disk, p: Plan, q: Plan)
    requires NoOverwrite(d, p.effects) && NoOverwrite(Run(d, p.effects), q.effects)
    ensures NoOverwrite(d, Then(p, q).effects)
  {
    var es := p.effects + q.effects;
    forall k | 0 <= k < |es| && es[k].Move?
      ensures es[k].source in Run(d, es[..k]).slots && es[k].target !in Run(d, es[..k]).slots
    {
      if k < |p.effects| {
        assert es[..k] == p.effects[..k];
      } else {
        assert es[..k] == p.effects + q.effects[..k - |p.effects|];
        RunAppend(d, p.effects, q.effects[..k - |p.effects|]);
      }
    }
  }

  lemma UndoNeverOverwrites(d: Disk)
    ensures NoOverwrite(d, UndoPlan(d).effects)
  {
    if Rollback in d.slots {
      if Home in d.slots {
        var q := RenamePlan(d, QuarantineFailedHome, Home, Failed);
        var d1 := Run(d, q.effects);
        RenameNeverOverwrites(d, QuarantineFailedHome, Home, Failed);
        RenameNeverOverwrites(d1, RestoreOldHome, Rollback, Home);
        ThenNeverOverwrites(d, q, RenamePlan(d1, RestoreOldHome, Rollback, Home));
      } else {
        RenameNeverOverwrites(d, RestoreOldHome, Rollback, Home);
      }
    }
  }

  lemma RollbackNeverOverwrites(d: Disk, left: Option<Tree>)
    ensures NoOverwrite(d, RollbackPlan(d, left).effects)
  {
    var start := Plan([Append(State(RollingBack))], true);
    var d1 := Apply(d, start.effects[0]);
    var undo := UndoPlan(d1);
    Run1(d, start.effects[0]);
    UndoNeverOverwrites(d1);
    NoMovesNoOverwrite(Run(d1, undo.effects), FinishRollback(left).effects);
    ThenNeverOverwrites(d1, undo, FinishRollback(left));
    NoMovesNoOverwrite(d, start.effects);
    ThenNeverOverwrites(d, start, Then(undo, FinishRollback(left)));
  }

  lemma {:induction false} SettlingNeverOverwrites(d: Disk, j: seq<Entry>, ids: seq<ActionId>)
    ensures NoOverwrite(d, SettleAll(d, j, ids).effects)
    decreases |ids|
  {
    if ids == [] {
    } else if ids[0] in Commits(j) || LastIntent(j, ids[0]).None? {
      SettlingNeverOverwrites(d, j, ids[1..]);
    } else {
      var i := LastIntent(j, ids[0]).value;
      var p := SettlePlan(d, i);
      RenameNeverOverwrites(d, Retry(i.id), i.source, i.target);
      SettlingNeverOverwrites(Run(d, p.effects), j, ids[1..]);
      ThenNeverOverwrites(d, p, SettleAll(Run(d, p.effects), j, ids[1..]));
    }
  }

  lemma CommandNeverOverwrites(d: Disk, c: Command)
    ensures NoOverwrite(d, CommandPlan(d, c).effects)
  {
    match c
    case Recover(_) => SettlingNeverOverwrites(d, d.journal, IntentOrder(d.journal));
    case RollBack(left, _) => RollbackNeverOverwrites(d, left);
    case HandleFailure(left, _) =>
      var note := Plan([Append(Note)], true);
      Run1(d, Append(Note));
      RollbackNeverOverwrites(Apply(d, Append(Note)), left);
      ThenNeverOverwrites(d, note, RollbackPlan(Apply(d, Append(Note)), left));
  }

  lemma {:induction false} WorkspacesNeverOverwrite(d: Disk, steps: seq<WorkspaceStep>)
    ensures NoOverwrite(d, WorkspacePlan(d, steps).effects)
    decreases |steps|
  {
    if steps != [] {
      var p: Plan;
      match steps[0] {
        case Copy(n, tree) => p := Plan([Write(Workspace(n), tree)], true);
        case Rename(id, s, t) =>
          p := RenamePlan(d, WorkspaceAction(id), Workspace(s), Workspace(t));
          RenameNeverOverwrites(d, WorkspaceAction(id), Workspace(s), Workspace(t));
      }
      WorkspacesNeverOverwrite(Run(d, p.effects), steps[1..]);
      ThenNeverOverwrites(d, p, WorkspacePlan(Run(d, p.effects), steps[1..]));
    }
  }

  lemma SettlingInNeverOverwrites(d: Disk, a: Archive)
    ensures NoOverwrite(d, SettleIn(d, a).effects)
  {
    var w := WorkspacePlan(d, a.workspaces);
    WorkspacesNeverOverwrite(d, a.workspaces);
    NoMovesNoOverwrite(Run(d, w.effects), CommitEffects(a));
    ThenNeverOverwrites(d, w, Plan(CommitEffects(a), true));
  }

  lemma StepsNeverOverwrite(d: Disk)
    ensures NoOverwrite(d, SetAsidePlan(d).effects) && NoOverwrite(d, InstallPlan(d).effects)
  {
    var aside := if Home in d.slots then RenamePlan(d, RenameOldHome, Home, Rollback) else Plan([], true);
    var install := RenamePlan(d, InstallNewHome, Staging, Home);
    RenameNeverOverwrites(d, RenameOldHome, Home, Rollback);
    RenameNeverOverwrites(d, InstallNewHome, Staging, Home);
    ThenNeverOverwrites(d, aside, Plan([Append(State(OldHomeRenamed))], true));
    ThenNeverOverwrites(d, install, Plan([Append(State(NewHomeInstalled))], true));
  }

  /** No journalled rename ever replaces a tree: on every disk, reached or not, each move that a
      restore, a recovery, a rollback or the failure handler would make finds its source and a
      free target at the moment at which it is made. */
  lemma RestoreNeverOverwrites(d: Disk, a: Archive, c: Command)
    ensures NoOverwrite(d, RestorePlan(d, a).effects) && NoOverwrite(d, CommandPlan(d, c).effects)
  {
    CommandNeverOverwrites(d, c);
    if !d.fence {
      var prepare := Plan(PrepareEffects(a), true);
      var d1 := Run(d, prepare.effects);
      var d2 := Run(d1, SetAsidePlan(d1).effects);
      var d3 := Run(d2, InstallPlan(d2).effects);
      NoMovesNoOverwrite(d, prepare.effects);
      StepsNeverOverwrite(d1);
      StepsNeverOverwrite(d2);
      SettlingInNeverOverwrites(d3, a);
      ThenNeverOverwrites(d2, InstallPlan(d2), SettleIn(d3, a));
      ThenNeverOverwrites(d1, SetAsidePlan(d1), Then(InstallPlan(d2), SettleIn(d3, a)));
      ThenNeverOverwrites(d, prepare, Then(SetAsidePlan(d1), Then(InstallPlan(d2), SettleIn(d3, a))));
    }
  }

  // ---- what recovery settles --------------------------------------------------------

  lemma {:induction false} OrderCoversIntents(j: seq<Entry>)
    ensures forall id :: id in IntentOrder(j) <==> id in Intents(j)
  {
    if j != [] {
      var p, last := j[..|j| - 1], j[|j| - 1];
      OrderCoversIntents(p);
      assert j == p + [last];
      forall id ensures id in IntentOrder(j) <==> id in Intents(j) {
        if id in Intents(p) {
          var e :| e in p && e.Intent? && e.id == id;
          assert e in j;
        }
        if id in Intents(j) {
          var e :| e in j && e.Intent? && e.id == id;
          assert e in p || e == last;
        }
        if last.Intent? && last.id == id {
          assert last in j;
        }
      }
    }
  }

  lemma {:induction false} SettleAllCommits(d: Disk, j: seq<Entry>, ids: seq<ActionId>)
    requires SettleAll(d, j, ids).ok && j <= d.journal
    ensures var j' := Run(d, SettleAll(d, j, ids).effects).journal;
            forall id :: id in ids && id in Intents(j) ==> id in Commits(j') || Retry(id) in Commits(j')
    decreases |ids|
  {
    if ids == [] {
    } else {
      var j' := Run(d, SettleAll(d, j, ids).effects).journal;
      if ids[0] in Commits(j) || LastIntent(j, ids[0]).None? {
        SettleAllCommits(d, j, ids[1..]);
        RunGrowsJournal(d, SettleAll(d, j, ids).effects);
        assert j <= j';
        assert ids[0] in Intents(j) ==> ids[0] in Commits(j');
      } else {
        var i := LastIntent(j, ids[0]).value;
        var p := SettlePlan(d, i);
        var d1 := Run(d, p.effects);
        RunGrowsJournal(d, p.effects);
        SettleAllCommits(d1, j, ids[1..]);
        var rest := SettleAll(d1, j, ids[1..]).effects;
        RunAppend(d, p.effects, rest);
        RunGrowsJournal(d1, rest);
        if |p.effects| == 1 {
          Run1(d, p.effects[0]);
          assert Commit(ids[0]) in d1.journal;
          assert Commit(ids[0]) in j';
        } else {
          RenameRuns(d, Retry(ids[0]), i.source, i.target);
          assert Commit(Retry(ids[0])) in d1.journal;
          assert Commit(Retry(ids[0])) in j';
        }
      }
      forall id | id in ids && id in Intents(j)
        ensures id in Commits(j') || Retry(id) in Commits(j')
      {
        assert id == ids[0] || id in ids[1..];
      }
    }
  }

  /** A recovery that succeeds leaves no intent open: each is committed under its own name
      or under its retry's. */
  lemma RecoverySettlesEveryIntent(d: Disk)
    requires RecoverPlan(d).ok && LastPhase(d.journal) != Some(Committed)
    ensures var j' := Run(d, RecoverPlan(d).effects).journal;
            forall id :: id in Intents(d.journal) ==> id in Commits(j') || Retry(id) in Commits(j')
  {
    OrderCoversIntents(d.journal);
    SettleAllCommits(d, d.journal, IntentOrder(d.journal));
  }

  // ---- journals, entry by entry ------------------------------------------------------

  lemma JournalSnoc(j: seq<Entry>, e: Entry, id: ActionId)
    ensures var k := j + [e];
            && IntentOrder(k) == (if e.Intent? && e.id !in IntentOrder(j) then IntentOrder(j) + [e.id] else IntentOrder(j))
            && LastIntent(k, id) == (if e.Intent? && e.id == id then Some(e) else LastIntent(j, id))
            && LastPhase(k) == (if e.State? then Some(e.phase) else LastPhase(j))
            && Commits(k) == (if e.Commit? then Commits(j) + {e.id} else Commits(j))
  {
    var k := j + [e];
    assert k[..|k| - 1] == j && k[|k| - 1] == e;
    forall x ensures x in Commits(k) <==> x in Commits(j) || (e.Commit? && x == e.id) {
      if x in Commits(j) {
        var y :| y in j && y.Commit? && y.id == x;
        assert y in k;
      }
    }
  }

  // ---- a restore onto an absent home ------------------------------------------------

  /** Nothing has been set aside, and no intent would set anything aside. */
  predicate NoSetAside(d: Disk) {
    Rollback !in d.slots && forall e :: e in d.journal && e.Intent? ==> e.target != Rollback
  }

  predicate LeavesRollbackAlone(es: seq<Effect>) {
    forall e :: e in es ==>
      && !(e.Move? && e.target == Rollback) && !(e.Write? && e.slot == Rollback)
      && !(e.Append? && e.entry.Intent? && e.entry.target == Rollback)
  }

  lemma ThenLeavesRollbackAlone(p: Plan, q: Plan)
    requires LeavesRollbackAlone(p.effects) && LeavesRollbackAlone(q.effects)
    ensures LeavesRollbackAlone(Then(p, q).effects)
  {
  }

  lemma {:induction false} EffectsLeaveRollbackAlone(d: Disk, es: seq<Effect>)
    requires NoSetAside(d)
    requires LeavesRollbackAlone(es)
    ensures NoSetAside(Run(d, es))
    decreases |es|
  {
    if es != [] {
      assert es[0] in es;
      EffectsLeaveRollbackAlone(Apply(d, es[0]), es[1..]);
    }
  }

  lemma DeathLeavesRollbackAlone(d: Disk, es: seq<Effect>, n: nat)
    requires NoSetAside(d) && LeavesRollbackAlone(es)
    ensures NoSetAside(Live(d, es, n))
  {
    var cut := es[..Min(n, |es|)];
    assert forall e :: e in cut ==> e in es;
    EffectsLeaveRollbackAlone(d, cut);
  }

  lemma {:induction false} SettlingLeavesRollbackAlone(d: Disk, j: seq<Entry>, ids: seq<ActionId>)
    requires NoSetAside(d) && forall e :: e in j && e.Intent? ==> e.target != Rollback
    ensures LeavesRollbackAlone(SettleAll(d, j, ids).effects)
    decreases |ids|
  {
    if ids != [] {
      if ids[0] in Commits(j) || LastIntent(j, ids[0]).None? {
        SettlingLeavesRollbackAlone(d, j, ids[1..]);
      } else {
        var p := SettlePlan(d, LastIntent(j, ids[0]).value);
        assert LeavesRollbackAlone(p.effects);
        EffectsLeaveRollbackAlone(d, p.effects);
        var d1 := Run(d, p.effects);
        SettlingLeavesRollbackAlone(d1, j, ids[1..]);
        ThenLeavesRollbackAlone(p, SettleAll(d1, j, ids[1..]));
      }
    }
  }

  lemma RollbackLeavesRollbackAlone(d: Disk, left: Option<Tree>)
    requires NoSetAside(d)
    ensures LeavesRollbackAlone(RollbackPlan(d, left).effects)
  {
    var start := Append(State(RollingBack));
    assert UndoPlan(Apply(d, start)) == Plan([], true);
    ThenLeavesRollbackAlone(Plan([], true), FinishRollback(left));
    ThenLeavesRollbackAlone(Plan([start], true), Then(Plan([], true), FinishRollback(left)));
  }

  lemma CommandLeavesRollbackAlone(d: Disk, c: Command)
    requires NoSetAside(d)
    ensures LeavesRollbackAlone(CommandPlan(d, c).effects)
  {
    match c
    case Recover(_) => SettlingLeavesRollbackAlone(d, d.journal, IntentOrder(d.journal));
    case RollBack(left, _) => RollbackLeavesRollbackAlone(d, left);
    case HandleFailure(left, _) =>
      var d1 := Apply(d, Append(Note));
      RollbackLeavesRollbackAlone(d1, left);
      ThenLeavesRollbackAlone(Plan([Append(Note)], true), RollbackPlan(d1, left));
  }

  lemma {:induction false} CommandsLeaveRollbackAlone(d: Disk, cs: seq<Command>)
    requires NoSetAside(d)
    ensures NoSetAside(RunCommands(d, cs))
    decreases |cs|
  {
    if cs != [] {
      CommandLeavesRollbackAlone(d, cs[0]);
      DeathLeavesRollbackAlone(d, CommandPlan(d, cs[0]).effects, cs[0].life);
      CommandsLeaveRollbackAlone(Live(d, CommandPlan(d, cs[0]).effects, cs[0].life), cs[1..]);
    }
  }

  lemma {:induction false} WorkspaceTouchesWorkspaces(d: Disk, steps: seq<WorkspaceStep>)
    ensures forall e :: e in WorkspacePlan(d, steps).effects ==>
              && (e.Move? ==> e.target.Workspace?) && (e.Write? ==> e.slot.Workspace?)
              && (e.Append? && e.entry.Intent? ==> e.entry.target.Workspace?)
    decreases |steps|
  {
    if steps != [] {
      match steps[0] {
        case Copy(n, tree) => WorkspaceTouchesWorkspaces(Run(d, [Write(Workspace(n), tree)]), steps[1..]);
        case Rename(id, s, t) =>
          var p := RenamePlan(d, WorkspaceAction(id), Workspace(s), Workspace(t));
          WorkspaceTouchesWorkspaces(Run(d, p.effects), steps[1..]);
      }
    }
  }

  /** After a restore and any later processes, all of which may have died, rolling back returns
      the home that the restore found, if and only if it found one or none is installed now: with
      no old home to put back, a new home stays. */
  lemma RollbackReturnsWhatItFound(d: Disk, a: Archive, n: nat, cs: seq<Command>, left: Option<Tree>)
    requires Fresh(d)
    requires Reached(d, a, n, cs).fence
    ensures var r := Reached(d, a, n, cs);
            Lookup(Run(r, RollbackPlan(r, left).effects).slots, Home) == Lookup(d.slots, Home)
            <==> Home in d.slots || Home !in r.slots
  {
    var r := Reached(d, a, n, cs);
    if Home in d.slots {
      var o := d.slots[Home];
      ReachedInv(d, a, n, cs, o);
      RollbackRuns(r, left, o);
    } else {
      RestoreWithoutHomeSetsNothingAside(d, a);
      DeathLeavesRollbackAlone(d, RestorePlan(d, a).effects, n);
      CommandsLeaveRollbackAlone(Live(d, RestorePlan(d, a).effects, n), cs);
      EmptyRollbackKeepsHome(r, left);
    }
  }

  /** A restore onto no home that dies once the new home is in place. */
  lemma InstallsOntoNothing(d: Disk, a: Archive)
    requires Fresh(d) && Home !in d.slots
    ensures var r := Live(d, RestorePlan(d, a).effects, 11);
            r.fence && Lookup(r.slots, Home) == Some(a.extracted)
  {
    PrepareRuns(d, a);
    var prepare := PrepareEffects(a);
    var d1 := Run(d, prepare);
    var mark := Append(State(OldHomeRenamed));
    assert SetAsidePlan(d1).effects == [] + [mark] == [mark];
    Run1(d1, mark);
    var d2 := Run(d1, [mark]);
    var install := RenamePlan(d2, InstallNewHome, Staging, Home).effects;
    RenameRuns(d2, InstallNewHome, Staging, Home);
    assert RestorePlan(d, a).effects[..11] == prepare + ([mark] + install);
    RunAppend(d, prepare, [mark] + install);
    RunAppend(d1, [mark], install);
  }

  /** The other case happens. */
  lemma NewHomeStaysWithoutAnOldOne(d: Disk, a: Archive, left: Option<Tree>)
    requires Fresh(d) && Home !in d.slots
    ensures var r := Reached(d, a, 11, []);
            r.fence && Lookup(Run(r, RollbackPlan(r, left).effects).slots, Home) == Some(a.extracted)
  {
    InstallsOntoNothing(d, a);
    RestoreWithoutHomeSetsNothingAside(d, a);
    DeathLeavesRollbackAlone(d, RestorePlan(d, a).effects, 11);
    EmptyRollbackKeepsHome(Reached(d, a, 11, []), left);
  }

  lemma FixedEffectsLeaveRollbackAlone(a: Archive)
    ensures LeavesRollbackAlone(PrepareEffects(a)) && LeavesRollbackAlone(CommitEffects(a))
  {
  }

  lemma SettlingInLeavesRollbackAlone(d: Disk, a: Archive)
    ensures LeavesRollbackAlone(SettleIn(d, a).effects)
  {
    var w, c := WorkspacePlan(d, a.workspaces), Plan(CommitEffects(a), true);
    WorkspaceTouchesWorkspaces(d, a.workspaces);
    FixedEffectsLeaveRollbackAlone(a);
    assert LeavesRollbackAlone(w.effects);
    ThenLeavesRollbackAlone(w, c);
  }

  lemma InstallingLeavesRollbackAlone(d: Disk)
    ensures LeavesRollbackAlone(InstallPlan(d).effects)
  {
  }

  lemma RestoreWithoutHomeSetsNothingAside(d: Disk, a: Archive)
    requires Fresh(d) && Home !in d.slots
    ensures LeavesRollbackAlone(RestorePlan(d, a).effects)
  {
    PrepareRuns(d, a);
    var d1 := Run(d, PrepareEffects(a));
    var aside := SetAsidePlan(d1);
    var d2 := Run(d1, aside.effects);
    var install := InstallPlan(d2);
    var d3 := Run(d2, install.effects);
    InstallingLeavesRollbackAlone(d2);
    SettlingInLeavesRollbackAlone(d3, a);
    FixedEffectsLeaveRollbackAlone(a);
    ThenLeavesRollbackAlone(install, SettleIn(d3, a));
    assert LeavesRollbackAlone(aside.effects);
    ThenLeavesRollbackAlone(aside, Then(install, SettleIn(d3, a)));
    ThenLeavesRollbackAlone(Plan(PrepareEffects(a), true), Then(aside, Then(install, SettleIn(d3, a))));
  }

  lemma EmptyRollbackKeepsHome(d: Disk, left: Option<Tree>)
    requires d.fence && NoSetAside(d)
    ensures Lookup(Run(d, RollbackPlan(d, left).effects).slots, Home) == Lookup(d.slots, Home)
  {
    var start := Append(State(RollingBack));
    var d1 := Apply(d, start);
    var f := FinishRollback(left).effects;
    Run3(d1, f[0], f[1], f[2]);
    Run1(d, start);
    assert [] + f == f;
    RunAppend(d, [start], f);
  }

  lemma LiveStep(d: Disk, es: seq<Effect>, n: nat)
    requires es != []
    ensures Live(d, es, n) == if n == 0 then d else Live(Apply(d, es[0]), es[1..], n - 1)
    ensures |es| == 1 ==> Live(d, es, n) == if n == 0 then d else Apply(d, es[0])
  {
    C.LiveStep(Apply, d, es, n);
  }

  lemma DeadStays(d: Disk, es: seq<Effect>)
    ensures Live(d, es, 0) == d
  {
    C.DeadStays(Apply, d, es);
  }

  lemma LiveAll(d: Disk, es: seq<Effect>, n: nat)
    ensures n >= |es| ==> Live(d, es, n) == Run(d, es)
    ensures es == [] ==> Live(d, es, n) == d
  {
    C.LiveAll(Apply, d, es, n);
  }

  // ---- the processes, as they run ----------------------------------------------------

  /** Part way through a loop: what rest would still do from d1, with n1 effects left to live, ends
      where the whole ends. */
  predicate Ahead(d: Disk, n: nat, whole: Plan, d1: Disk, n1: nat, rest: Plan) {
    && Live(d, whole.effects, n) == Live(d1, rest.effects, n1)
    && Monus(n, |whole.effects|) == Monus(n1, |rest.effects|)
    && (n1 > 0 ==> whole.ok == rest.ok)
  }

  /** One round of the loop: p is performed, and next is what remains from where that leads. */
  lemma AheadStep(d: Disk, n: nat, whole: Plan, d1: Disk, n1: nat, p: Plan, rest: Plan, next: Plan)
    requires Ahead(d, n, whole, d1, n1, Then(p, rest))
    requires n1 > |p.effects| ==> next == rest
    ensures p.ok || n1 <= |p.effects| ==>
              Ahead(d, n, whole, Live(d1, p.effects, n1), Monus(n1, |p.effects|), next)
    ensures !p.ok || n1 <= |p.effects| ==>
              && Live(d, whole.effects, n) == Live(d1, p.effects, n1)
              && Monus(n, |whole.effects|) == Monus(n1, |p.effects|)
              && (n1 > |p.effects| ==> !whole.ok)
  {
    var d2 := Live(d1, p.effects, n1);
    LiveAppend(d1, p.effects, rest.effects, n1);
    DeadStays(d2, rest.effects);
    DeadStays(d2, next.effects);
  }

  /** The disk with the process that is changing it. life is the number of durable effects the
      process still performs before it dies; what a dead process does leaves no trace. */
  class RestoreProcess {
    var slots: map<Slot, Tree>
    var journal: seq<Entry>
    var fence: bool
    var life: nat

    ghost function View(): Disk
      reads this
    {
      Disk(slots, journal, fence)
    }

    method Do(e: Effect)
      modifies this
      ensures View() == (if old(life) > 0 then Apply(old(View()), e) else old(View()))
      ensures life == Monus(old(life), 1)
    {
      if life > 0 {
        life := life - 1;
        match e {
          case RaiseFence => fence := true;
          case DropFence => fence := false;
          case Append(entry) => journal := journal + [entry];
          case Move(s, t) =>
            if s in slots {
              slots := (slots - {s})[t := slots[s]];
            }
          case Write(s, tree) => slots := slots[s := tree];
          case Sweep(left) =>
            if Staging in slots {
              slots := if left.Some? then slots[Staging := left.value] else slots - {Staging};
            }
          case Discard(s) => slots := slots - {s};
        }
      }
    }

    method RenameAction(id: ActionId, s: Slot, t: Slot) returns (ok: bool)
      modifies this
      ensures var p := RenamePlan(old(View()), id, s, t);
              && View() == Live(old(View()), p.effects, old(life))
              && life == Monus(old(life), |p.effects|)
              && (life > 0 ==> ok == p.ok)
    {
      ghost var d, n := View(), life;
      ghost var p := RenamePlan(d, id, s, t);
      var fp := if s in slots then slots[s].fingerprint else 0;
      LiveStep(d, p.effects, n);
      Do(Append(Intent(id, s, t, fp)));
      if t in slots || s !in slots {
        assert p.effects[1..] == [];
        return false;
      }
      assert p.effects[1..] == [Move(s, t), Append(Commit(id))];
      LiveStep(Apply(d, p.effects[0]), p.effects[1..], Monus(n, 1));
      Do(Move(s, t));
      assert p.effects[1..][1..] == [Append(Commit(id))];
      LiveStep(Apply(Apply(d, p.effects[0]), Move(s, t)), [Append(Commit(id))], Monus(n, 2));
      assert [Append(Commit(id))][1..] == [];
      Do(Append(Commit(id)));
      return true;
    }

    method Perform(es: seq<Effect>)
      modifies this
      ensures View() == Live(old(View()), es, old(life)) && life == Monus(old(life), |es|)
    {
      var k := 0;
      ghost var d, n := View(), life;
      assert es[0..] == es;
      while k < |es|
        invariant 0 <= k <= |es|
        invariant Live(d, es, n) == Live(View(), es[k..], life) && life == Monus(n, k)
      {
        LiveStep(View(), es[k..], life);
        assert es[k..][1..] == es[k + 1..];
        DeadStays(View(), es[k + 1..]);
        Do(es[k]);
        k := k + 1;
      }
      LiveAll(View(), es[k..], life);
    }

    method SetAside() returns (ok: bool)
      modifies this
      ensures var p := SetAsidePlan(old(View()));
              && View() == Live(old(View()), p.effects, old(life))
              && life == Monus(old(life), |p.effects|) && (life > 0 ==> ok == p.ok)
    {
      ghost var d, n := View(), life;
      ghost var mark := [Append(State(OldHomeRenamed))];
      ok := true;
      if Home in slots {
        LiveAppend(d, RenamePlan(d, RenameOldHome, Home, Rollback).effects, mark, n);
        ok := RenameAction(RenameOldHome, Home, Rollback);
      } else {
        LiveAll(d, [], n);
        assert [] + mark == mark;
      }
      if ok {
        LiveStep(View(), mark, life);
        Do(Append(State(OldHomeRenamed)));
      }
    }

    method Install() returns (ok: bool)
      modifies this
      ensures var p := InstallPlan(old(View()));
              && View() == Live(old(View()), p.effects, old(life))
              && life == Monus(old(life), |p.effects|) && (life > 0 ==> ok == p.ok)
    {
      ghost var d, n := View(), life;
      ghost var mark := [Append(State(NewHomeInstalled))];
      LiveAppend(d, RenamePlan(d, InstallNewHome, Staging, Home).effects, mark, n);
      ok := RenameAction(InstallNewHome, Staging, Home);
      if ok {
        LiveStep(View(), mark, life);
        Do(Append(State(NewHomeInstalled)));
      }
    }

    method WorkspaceStepOf(step: WorkspaceStep) returns (ok: bool)
      modifies this
      ensures var p := StepPlan(old(View()), step);
              && View() == Live(old(View()), p.effects, old(life))
              && life == Monus(old(life), |p.effects|) && (life > 0 ==> ok == p.ok)
    {
      match step {
        case Copy(n, tree) =>
          LiveStep(View(), [Write(Workspace(n), tree)], life);
          Do(Write(Workspace(n), tree));
          ok := true;
        case Rename(id, s, t) =>
          ok := RenameAction(WorkspaceAction(id), Workspace(s), Workspace(t));
      }
    }

    method RestoreWorkspaces(steps: seq<WorkspaceStep>) returns (ok: bool)
      modifies this
      ensures var p := WorkspacePlan(old(View()), steps);
              && View() == Live(old(View()), p.effects, old(life))
              && Monus(old(life), |p.effects|) == life && (life > 0 ==> ok == p.ok)
    {
      ghost var d, n, whole := View(), life, WorkspacePlan(View(), steps);
      var k := 0;
      assert steps[0..] == steps;
      while k < |steps|
        invariant 0 <= k <= |steps|
        invariant Ahead(d, n, whole, View(), life, WorkspacePlan(View(), steps[k..]))
      {
        assert steps[k..][0] == steps[k] && steps[k..][1..] == steps[k + 1..];
        ghost var d1, n1 := View(), life;
        ghost var p := StepPlan(d1, steps[k]);
        ghost var rest := WorkspacePlan(Run(d1, p.effects), steps[k + 1..]);
        var done := WorkspaceStepOf(steps[k]);
        LiveAll(d1, p.effects, n1);
        AheadStep(d, n, whole, d1, n1, p, rest, WorkspacePlan(View(), steps[k + 1..]));
        if !done {
          return false;
        }
        k := k + 1;
      }
      LiveAll(View(), [], life);
      return true;
    }

    /** What follows once the new home is installed. */
    method SettleNewHome(a: Archive) returns (ok: bool)
      modifies this
      ensures var p := SettleIn(old(View()), a);
              View() == Live(old(View()), p.effects, old(life)) && life <= old(life) && (life > 0 ==> ok == p.ok)
    {
      ghost var d, n := View(), life;
      LiveAppend(d, WorkspacePlan(d, a.workspaces).effects, CommitEffects(a), n);
      ok := RestoreWorkspaces(a.workspaces);
      DeadStays(View(), CommitEffects(a));
      if ok {
        Perform(CommitEffects(a));
      }
    }

    /** Setting the old home aside, installing the new one, and settling it in. */
    method ReplaceHome(a: Archive) returns (ok: bool)
      modifies this
      ensures var p := ReplacePlan(old(View()), a);
              View() == Live(old(View()), p.effects, old(life)) && life <= old(life) && (life > 0 ==> ok == p.ok)
    {
      ghost var d1, n1 := View(), life;
      ghost var d2 := Run(d1, SetAsidePlan(d1).effects);
      ghost var d3 := Run(d2, InstallPlan(d2).effects);
      ghost var rest := Then(InstallPlan(d2), SettleIn(d3, a));
      LiveAppend(d1, SetAsidePlan(d1).effects, rest.effects, n1);
      LiveAll(d1, SetAsidePlan(d1).effects, n1);
      ok := SetAside();
      ghost var v, m := View(), life;
      DeadStays(v, rest.effects);
      if !ok {
        return;
      }
      LiveAppend(v, InstallPlan(d2).effects, SettleIn(d3, a).effects, m);
      LiveAll(v, InstallPlan(d2).effects, m);
      DeadStays(v, InstallPlan(v).effects);
      ok := Install();
      DeadStays(View(), SettleIn(d3, a).effects);
      if !ok {
        return;
      }
      DeadStays(View(), SettleIn(View(), a).effects);
      ok := SettleNewHome(a);
    }

    /** The journalled part of restore, from raising the fence to dropping the old home. */
    method RestoreHome(a: Archive) returns (ok: bool)
      modifies this
      ensures var p := RestorePlan(old(View()), a);
              View() == Live(old(View()), p.effects, old(life)) && life <= old(life) && (life > 0 ==> ok == p.ok)
    {
      if fence {
        LiveAll(View(), [], life);
        return false;
      }
      ghost var d, n := View(), life;
      ghost var d1 := Run(d, PrepareEffects(a));
      LiveAppend(d, PrepareEffects(a), ReplacePlan(d1, a).effects, n);
      LiveAll(d, PrepareEffects(a), n);
      Perform(PrepareEffects(a));
      DeadStays(View(), ReplacePlan(d1, a).effects);
      DeadStays(View(), ReplacePlan(View(), a).effects);
      ok := ReplaceHome(a);
    }

    /** _rollback_locked and _rollback. */
    method RollBackHome(left: Option<Tree>) returns (ok: bool)
      modifies this
      ensures var p := RollbackPlan(old(View()), left);
              && View() == Live(old(View()), p.effects, old(life))
              && life == Monus(old(life), |p.effects|)
              && (life > 0 ==> ok == p.ok)
    {
      if !fence {
        return false;
      }
      ghost var d, n := View(), life;
      ghost var start := Append(State(RollingBack));
      ghost var undo, last := UndoPlan(Apply(d, start)), FinishRollback(left);
      LiveAppend(d, [start], Then(undo, last).effects, n);
      LiveStep(d, [start], n);
      Do(Append(State(RollingBack)));
      ghost var d1, n1 := View(), life;
      LiveAppend(d1, undo.effects, last.effects, n1);
      DeadStays(d1, undo.effects);
      DeadStays(d1, Then(undo, last).effects);
      ok := Undo();
      if ok {
        FinishUp(left);
      }
    }

    method FinishUp(left: Option<Tree>)
      modifies this
      ensures View() == Live(old(View()), FinishRollback(left).effects, old(life))
      ensures life == Monus(old(life), 3)
    {
      ghost var d, n := View(), life;
      ghost var es := FinishRollback(left).effects;
      LiveStep(d, es, n);
      Do(Sweep(left));
      assert es[1..] == [Append(State(RolledBack)), DropFence];
      LiveStep(Apply(d, es[0]), es[1..], Monus(n, 1));
      Do(Append(State(RolledBack)));
      assert es[1..][1..] == [DropFence];
      LiveStep(Apply(Apply(d, es[0]), es[1]), [DropFence], Monus(n, 2));
      Do(DropFence);
    }

    method Undo() returns (ok: bool)
      modifies this
      ensures var p := UndoPlan(old(View()));
              && View() == Live(old(View()), p.effects, old(life))
              && life == Monus(old(life), |p.effects|)
              && (life > 0 ==> ok == p.ok)
      ensures old(life) > 0 || View() == old(View())
    {
      ok := true;
      DeadStays(View(), UndoPlan(View()).effects);
      if Rollback in slots {
        if Home in slots {
          ghost var d, n := View(), life;
          ghost var q := RenamePlan(d, QuarantineFailedHome, Home, Failed);
          ghost var r := RenamePlan(Run(d, q.effects), RestoreOldHome, Rollback, Home);
          LiveAppend(d, q.effects, r.effects, n);
          ok := RenameAction(QuarantineFailedHome, Home, Failed);
          LiveAll(d, q.effects, n);
          if ok {
            ghost var d1 := View();
            if life == 0 {
              DeadStays(d1, RenamePlan(d1, RestoreOldHome, Rollback, Home).effects);
              DeadStays(d1, r.effects);
            }
            ok := RenameAction(RestoreOldHome, Rollback, Home);
          }
          return;
        }
        ok := RenameAction(RestoreOldHome, Rollback, Home);
      }
    }

    /** _recover_interrupted_restore_locked. */
    method RecoverInterrupted() returns (ok: bool)
      modifies this
      ensures var p := RecoverPlan(old(View()));
              && View() == Live(old(View()), p.effects, old(life))
              && (life > 0 ==> ok == p.ok)
    {
      if !fence || journal == [] {
        return false;
      }
      if LastPhase(journal) == Some(Committed) {
        LiveStep(View(), [DropFence], life);
        Do(DropFence);
        return true;
      }
      var records := journal;
      var ids, commits := IntentOrder(records), Commits(records);
      ghost var d, n := View(), life;
      var k := 0;
      assert ids[0..] == ids;
      while k < |ids|
        invariant 0 <= k <= |ids|
        invariant Live(d, SettleAll(d, records, ids).effects, n)
               == Live(View(), SettleAll(View(), records, ids[k..]).effects, life)
        invariant life > 0 ==> SettleAll(d, records, ids).ok == SettleAll(View(), records, ids[k..]).ok
      {
        assert ids[k..][1..] == ids[k + 1..];
        var intent := LastIntent(records, ids[k]);
        if ids[k] !in commits && intent.Some? {
          ghost var d1, n1 := View(), life;
          ghost var p := SettlePlan(d1, intent.value);
          ghost var rest := SettleAll(Run(d1, p.effects), records, ids[k + 1..]);
          DeadStays(d1, SettleAll(d1, records, ids[k..]).effects);
          LiveAppend(d1, p.effects, rest.effects, n1);
          var settled := Settle(intent.value);
          LiveAll(d1, p.effects, n1);
          DeadStays(View(), rest.effects);
          DeadStays(View(), SettleAll(View(), records, ids[k + 1..]).effects);
          if !settled {
            return false;
          }
        }
        k := k + 1;
      }
      LiveAll(View(), [], life);
      return true;
    }

    method Settle(i: Entry) returns (ok: bool)
      requires i.Intent?
      modifies this
      ensures var p := SettlePlan(old(View()), i);
              && View() == Live(old(View()), p.effects, old(life))
              && life == Monus(old(life), |p.effects|)
              && (old(life) > 0 && (life > 0 || |p.effects| == 1) ==> ok == p.ok)
              && (!ok ==> !p.ok || life == 0)
    {
      ghost var p := SettlePlan(View(), i);
      LiveStep(View(), p.effects, life);
      if i.target in slots && slots[i.target].fingerprint == i.fingerprint && i.source !in slots {
        Do(Append(Commit(i.id)));
        ok := true;
      } else if i.source in slots && slots[i.source].fingerprint == i.fingerprint && i.target !in slots {
        ok := RenameAction(Retry(i.id), i.source, i.target);
      } else {
        Do(Append(State(RecoveryRequired)));
        ok := false;
      }
    }
  }
}
