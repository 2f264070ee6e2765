/** Nightly memory maintenance (dream/service.py): which evidence a run consumes, the file
    transaction that commits it, recovery after a process death, and undoing runs one by one. */
module Dream {
  import opened Wrappers
  import C = Crash

  datatype Path = StatePath | MemoriesPath | Profile(name: nat)

  /** Evidence by local day. */
  type Ledger = map<nat, set<nat>>

  /** A run on successful_runs, with the evidence that was fresh to it. */
  datatype Run = Run(id: nat, unseen: Ledger)
  datatype Status = Started | Noop | Completed | Failed
  datatype State = State(runs: seq<Run>, processed: Ledger, status: Status)

  datatype Content = StateFile(state: State) | Text(text: nat)

  /** One line of a backup manifest: a path and what it held, None if it did not exist. */
  datatype Saved = Saved(path: Path, content: Option<Content>)

  /** A canonical memory row; its source names the run that wrote it. */
  datatype Row = Row(run: nat, evidence: nat, statement: nat)

  /** backups: None for a backup directory whose manifest was never written. */
  datatype Disk = Disk(
    files: map<Path, Content>, memory: set<Row>, backups: map<nat, Option<seq<Saved>>>, marker: Option<nat>)

  datatype Effect =
    | MakeBackup(run: nat)
    | SealBackup(run: nat, saved: seq<Saved>)
    | Mark(run: nat)
    | Unmark
    | WriteRow(row: Row)
    | Compensate(run: nat)
    | WriteFile(path: Path, content: Content)
    | RemoveFile(path: Path)

  function Apply(d: Disk, e: Effect): Disk {
    match e
    case MakeBackup(r) => d.(backups := d.backups[r := None])
    case SealBackup(r, saved) => d.(backups := d.backups[r := Some(saved)])
    case Mark(r) => d.(marker := Some(r))
    case Unmark => d.(marker := None)
    case WriteRow(row) => d.(memory := d.memory + {row})
    case Compensate(r) => d.(memory := set x | x in d.memory && x.run != r)
    case WriteFile(p, c) => d.(files := d.files[p := c])
    case RemoveFile(p) => d.(files := d.files - {p})
  }

  function Perform(d: Disk, es: seq<Effect>): Disk {
    C.Run(Apply, d, es)
  }

  // ---- evidence ---------------------------------------------------------------------------

  datatype Evidence = Evidence(day: nat, id: nat)

  predicate In(m: Ledger, day: nat, id: nat) {
    day in m && id in m[day]
  }

  function DayOf(m: Ledger, day: nat): set<nat> {
    if day in m then m[day] else {}
  }

  /** _fresh_evidence_by_day */
  function FreshByDay(evidence: seq<Evidence>, processed: Ledger): Ledger {
    if evidence == [] then map[]
    else
      var last := evidence[|evidence| - 1];
      var grouped := FreshByDay(evidence[..|evidence| - 1], processed);
      if In(processed, last.day, last.id) then grouped
      else grouped[last.day := DayOf(grouped, last.day) + {last.id}]
  }

  function Consume(processed: Ledger, unseen: Ledger): Ledger {
    map day | day in processed.Keys + unseen.Keys :: DayOf(processed, day) + DayOf(unseen, day)
  }

  lemma {:induction false} FreshIsExactlyTheUnprocessed(evidence: seq<Evidence>, processed: Ledger, day: nat, id: nat)
    ensures In(FreshByDay(evidence, processed), day, id) <==> Evidence(day, id) in evidence && !In(processed, day, id)
  {
    if evidence != [] {
      var n := |evidence| - 1;
      FreshIsExactlyTheUnprocessed(evidence[..n], processed, day, id);
      assert evidence == evidence[..n] + [evidence[n]];
    }
  }

  predicate ConsumedBy(runs: seq<Run>, i: int, day: nat, id: nat) {
    0 <= i < |runs| && In(runs[i].unseen, day, id)
  }

  /** The processed evidence is the disjoint union of what the listed runs found fresh. */
  ghost predicate Accounts(s: State) {
    && (forall day, id :: In(s.processed, day, id) <==> exists i :: ConsumedBy(s.runs, i, day, id))
    && (forall i, k, day, id :: ConsumedBy(s.runs, i, day, id) && ConsumedBy(s.runs, k, day, id) ==> i == k)
  }

  function NewState(s: State, run: nat, evidence: seq<Evidence>): State {
    var unseen := FreshByDay(evidence, s.processed);
    State(s.runs + [Run(run, unseen)], Consume(s.processed, unseen), Completed)
  }

  lemma NewStateAccounts(s: State, run: nat, evidence: seq<Evidence>)
    requires Accounts(s)
    ensures Accounts(NewState(s, run, evidence))
  {
    var s', n := NewState(s, run, evidence), |s.runs|;
    var unseen := FreshByDay(evidence, s.processed);
    forall day, id
      ensures In(s'.processed, day, id) <==> exists i :: ConsumedBy(s'.runs, i, day, id)
    {
      assert In(s'.processed, day, id) <==> In(s.processed, day, id) || In(unseen, day, id);
      assert In(unseen, day, id) <==> ConsumedBy(s'.runs, n, day, id);
      if In(s.processed, day, id) {
        var i :| ConsumedBy(s.runs, i, day, id);
        assert ConsumedBy(s'.runs, i, day, id);
      }
      if i :| ConsumedBy(s'.runs, i, day, id) {
        assert i != n ==> ConsumedBy(s.runs, i, day, id);
      }
    }
    forall i, k, day, id | ConsumedBy(s'.runs, i, day, id) && ConsumedBy(s'.runs, k, day, id)
      ensures i == k
    {
      FreshIsExactlyTheUnprocessed(evidence, s.processed, day, id);
      assert i < n ==> ConsumedBy(s.runs, i, day, id);
      assert k < n ==> ConsumedBy(s.runs, k, day, id);
    }
  }

  // ---- the file transaction -----------------------------------------------------------------

  /** What a run proposes: its archive's evidence, the candidates that passed validation, the
      rendered profiles, and the new memory index. */
  datatype Candidate = Candidate(statement: nat, evidence: seq<nat>)
  datatype Rendered = Rendered(name: nat, text: nat)
  datatype Proposal = Proposal(
    run: nat, evidence: seq<Evidence>, candidates: seq<Candidate>, profiles: seq<Rendered>, memories: nat)

  function Affected(profiles: seq<Rendered>): seq<Path> {
    [StatePath, MemoriesPath] + ProfilePaths(profiles)
  }

  function ProfilePaths(profiles: seq<Rendered>): seq<Path> {
    seq(|profiles|, i requires 0 <= i < |profiles| => Profile(profiles[i].name))
  }

  function Save(files: map<Path, Content>, paths: seq<Path>): seq<Saved> {
    seq(|paths|, i requires 0 <= i < |paths| => Saved(paths[i], Lookup(files, paths[i])))
  }

  function RowEffects(run: nat, evidence: seq<nat>, statement: nat): seq<Effect> {
    seq(|evidence|, i requires 0 <= i < |evidence| => WriteRow(Row(run, evidence[i], statement)))
  }

  function CanonicalEffects(run: nat, candidates: seq<Candidate>): seq<Effect> {
    if candidates == [] then []
    else RowEffects(run, candidates[0].evidence, candidates[0].statement) + CanonicalEffects(run, candidates[1..])
  }

  function ProfileEffects(profiles: seq<Rendered>): seq<Effect> {
    seq(|profiles|, i requires 0 <= i < |profiles| => WriteFile(Profile(profiles[i].name), Text(profiles[i].text)))
  }

  predicate HasState(files: map<Path, Content>) {
    StatePath in files && files[StatePath].StateFile?
  }

  function BackupEffects(d: Disk, p: Proposal): seq<Effect> {
    [MakeBackup(p.run), SealBackup(p.run, Save(d.files, Affected(p.profiles))), Mark(p.run)]
  }

  function FileWrites(p: Proposal, s: State): seq<Effect> {
    ProfileEffects(p.profiles) + [WriteFile(MemoriesPath, Text(p.memories)), WriteFile(StatePath, StateFile(s))]
  }

  function WriteEffects(p: Proposal, s: State): seq<Effect> {
    CanonicalEffects(p.run, p.candidates) + FileWrites(p, s)
  }

  /** Everything _commit does before it removes its marker. */
  function CommitBody(d: Disk, p: Proposal): seq<Effect>
    requires HasState(d.files)
  {
    BackupEffects(d, p) + WriteEffects(p, NewState(d.files[StatePath].state, p.run, p.evidence))
  }

  function CommitEffects(d: Disk, p: Proposal): seq<Effect>
    requires HasState(d.files)
  {
    CommitBody(d, p) + [Unmark]
  }

  function RestoreEffect(x: Saved): Effect {
    if x.content.Some? then WriteFile(x.path, x.content.value) else RemoveFile(x.path)
  }

  function RestoreEffects(saved: seq<Saved>): seq<Effect> {
    seq(|saved|, i requires 0 <= i < |saved| => RestoreEffect(saved[i]))
  }

  /** What a backup says about a path: None if it does not list it. */
  function SavedAt(saved: seq<Saved>, p: Path): Option<Option<Content>> {
    if saved == [] then None
    else if saved[|saved| - 1].path == p then Some(saved[|saved| - 1].content)
    else SavedAt(saved[..|saved| - 1], p)
  }

  /** The files once a backup has been restored. */
  function Restored(files: map<Path, Content>, saved: seq<Saved>): map<Path, Content> {
    if saved == [] then files
    else
      var rest := Restored(files, saved[..|saved| - 1]);
      var last := saved[|saved| - 1];
      if last.content.Some? then rest[last.path := last.content.value] else rest - {last.path}
  }

  lemma {:induction false} RestoredAt(files: map<Path, Content>, saved: seq<Saved>, p: Path)
    ensures Lookup(Restored(files, saved), p)
              == if SavedAt(saved, p).Some? then SavedAt(saved, p).value else Lookup(files, p)
  {
    if saved != [] {
      RestoredAt(files, saved[..|saved| - 1], p);
    }
  }

  lemma SameFiles(a: map<Path, Content>, b: map<Path, Content>)
    requires forall p :: Lookup(a, p) == Lookup(b, p)
    ensures a == b
  {
    forall p ensures p in a <==> p in b {
      assert Lookup(a, p) == Lookup(b, p);
    }
    forall p | p in a ensures a[p] == b[p] {
      assert Lookup(a, p) == Lookup(b, p);
    }
  }

  /** Writing a path that the backup lists makes no difference to what restoring it gives. */
  lemma RestoredAnyway(files: map<Path, Content>, files': map<Path, Content>, saved: seq<Saved>, p: Path)
    requires SavedAt(saved, p).Some? && forall q :: q != p ==> Lookup(files', q) == Lookup(files, q)
    ensures Restored(files', saved) == Restored(files, saved)
  {
    forall q ensures Lookup(Restored(files', saved), q) == Lookup(Restored(files, saved), q) {
      RestoredAt(files, saved, q);
      RestoredAt(files', saved, q);
    }
    SameFiles(Restored(files', saved), Restored(files, saved));
  }

  lemma {:induction false} SaveLists(files: map<Path, Content>, paths: seq<Path>, p: Path)
    ensures SavedAt(Save(files, paths), p) == if p in paths then Some(Lookup(files, p)) else None
    decreases |paths|
  {
    if paths != [] {
      var n := |paths| - 1;
      SaveLists(files, paths[..n], p);
      assert Save(files, paths)[..n] == Save(files, paths[..n]);
      assert paths == paths[..n] + [paths[n]];
    }
  }

  lemma SavedRestoresItself(files: map<Path, Content>, paths: seq<Path>)
    ensures Restored(files, Save(files, paths)) == files
  {
    forall q ensures Lookup(Restored(files, Save(files, paths)), q) == Lookup(files, q) {
      RestoredAt(files, Save(files, paths), q);
      SaveLists(files, paths, q);
    }
    SameFiles(Restored(files, Save(files, paths)), files);
  }

  // ---- what holds on disk at every moment ---------------------------------------------------

  predicate Sealed(backups: map<nat, Option<seq<Saved>>>, run: nat) {
    run in backups && backups[run].Some?
  }

  /** What the files are once recovery has run. */
  function Settled(d: Disk): map<Path, Content> {
    if d.marker.Some? && Sealed(d.backups, d.marker.value) then Restored(d.files, d.backups[d.marker.value].value)
    else d.files
  }

  /** The i-th listed run has a backup, taken when exactly the runs before it were listed; or it is
      lost, its backup never having been finished, and has none. */
  predicate BackedUp(lost: set<nat>, backups: map<nat, Option<seq<Saved>>>, runs: seq<Run>, i: nat) {
    i < |runs| ==>
      if runs[i].id in lost then !Sealed(backups, runs[i].id)
      else
        && Sealed(backups, runs[i].id)
        && SavesState(backups[runs[i].id].value)
        && SavedState(backups[runs[i].id].value).runs == runs[..i]
  }

  predicate SavesState(saved: seq<Saved>) {
    SavedAt(saved, StatePath).Some? && SavedAt(saved, StatePath).value.Some? && SavedAt(saved, StatePath).value.value.StateFile?
  }

  function SavedState(saved: seq<Saved>): State
    requires SavesState(saved)
  {
    SavedAt(saved, StatePath).value.value.state
  }

  ghost predicate GoodState(lost: set<nat>, backups: map<nat, Option<seq<Saved>>>, s: State) {
    Accounts(s) && forall i :: 0 <= i < |s.runs| ==> BackedUp(lost, backups, s.runs, i)
  }

  ghost predicate GoodFiles(lost: set<nat>, backups: map<nat, Option<seq<Saved>>>, files: map<Path, Content>) {
    HasState(files) && GoodState(lost, backups, files[StatePath].state)
  }

  ghost predicate GoodBackup(lost: set<nat>, backups: map<nat, Option<seq<Saved>>>, saved: seq<Saved>) {
    SavesState(saved) && GoodState(lost, backups, SavedState(saved)) && StateLinesGood(lost, backups, saved)
  }

  /** Every line for the state file holds a good state. */
  ghost predicate StateLinesGood(lost: set<nat>, backups: map<nat, Option<seq<Saved>>>, part: seq<Saved>) {
    forall x :: x in part && x.path == StatePath ==>
      x.content.Some? && x.content.value.StateFile? && GoodState(lost, backups, x.content.value.state)
  }

  predicate NoneSealed(lost: set<nat>, backups: map<nat, Option<seq<Saved>>>) {
    forall r :: r in lost ==> !Sealed(backups, r)
  }

  ghost predicate Inv(lost: set<nat>, d: Disk) {
    && GoodFiles(lost, d.backups, Settled(d))
    && (d.marker.Some? ==> Sealed(d.backups, d.marker.value))
    && (forall r :: Sealed(d.backups, r) ==> GoodBackup(lost, d.backups, d.backups[r].value))
    && (forall row :: row in d.memory ==> row.run in d.backups)
    && NoneSealed(lost, d.backups)
  }

  ghost predicate Grows(a: map<nat, Option<seq<Saved>>>, b: map<nat, Option<seq<Saved>>>) {
    forall r :: r in a ==> r in b && (a[r].Some? ==> b[r] == a[r])
  }

  lemma GoodStateGrows(lost: set<nat>, a: map<nat, Option<seq<Saved>>>, b: map<nat, Option<seq<Saved>>>, s: State)
    requires GoodState(lost, a, s) && Grows(a, b)
    requires NoneSealed(lost, b)
    ensures GoodState(lost, b, s)
  {
    forall i | 0 <= i < |s.runs| ensures BackedUp(lost, b, s.runs, i) {
      assert BackedUp(lost, a, s.runs, i);
    }
  }

  lemma GoodBackupGrows(lost: set<nat>, a: map<nat, Option<seq<Saved>>>, b: map<nat, Option<seq<Saved>>>, saved: seq<Saved>)
    requires GoodBackup(lost, a, saved) && Grows(a, b)
    requires NoneSealed(lost, b)
    ensures GoodBackup(lost, b, saved)
  {
    GoodStateGrows(lost, a, b, SavedState(saved));
    forall x | x in saved && x.path == StatePath
      ensures x.content.Some? && x.content.value.StateFile? && GoodState(lost, b, x.content.value.state)
    {
      GoodStateGrows(lost, a, b, x.content.value.state);
    }
  }

  /** What may be written when. */
  ghost predicate Allowed(lost: set<nat>, d: Disk, e: Effect) {
    match e
    case MakeBackup(r) => r !in d.backups
    case SealBackup(r, saved) => r in d.backups && d.backups[r].None? && r !in lost && GoodBackup(lost, d.backups, saved)
    case Mark(r) => d.marker.None? && Sealed(d.backups, r) && Restored(d.files, d.backups[r].value) == d.files
    case Unmark => d.marker.Some? && GoodFiles(lost, d.backups, d.files)
    case WriteRow(row) => row.run in d.backups
    case Compensate(_) => true
    case WriteFile(p, c) =>
      if d.marker.Some? then Protects(d, p) else p == StatePath ==> c.StateFile? && GoodState(lost, d.backups, c.state)
    case RemoveFile(p) => if d.marker.Some? then Protects(d, p) else p != StatePath
  }

  predicate Protects(d: Disk, p: Path) {
    d.marker.Some? && Sealed(d.backups, d.marker.value) && SavedAt(d.backups[d.marker.value].value, p).Some?
  }

  /** Effects that leave what recovery would restore as it is. */
  ghost predicate Quiet(lost: set<nat>, d: Disk, e: Effect) {
    Allowed(lost, d, e) && !e.Unmark? && (e.WriteFile? || e.RemoveFile? ==> d.marker.Some?)
  }

  lemma QuietStaysSettled(lost: set<nat>, d: Disk, e: Effect)
    requires Inv(lost, d) && Quiet(lost, d, e)
    ensures Settled(Apply(d, e)) == Settled(d)
  {
    if e.WriteFile? || e.RemoveFile? {
      RestoredAnyway(d.files, Apply(d, e).files, d.backups[d.marker.value].value, e.path);
    }
  }

  lemma EffectKeepsInv(lost: set<nat>, d: Disk, e: Effect)
    requires Inv(lost, d) && Allowed(lost, d, e)
    ensures Inv(lost, Apply(d, e)) && Grows(d.backups, Apply(d, e).backups)
  {
    var d' := Apply(d, e);
    assert Grows(d.backups, d'.backups);
    if e.MakeBackup? || e.SealBackup? || e.Mark? {
      QuietStaysSettled(lost, d, e);
      GoodStateGrows(lost, d.backups, d'.backups, Settled(d)[StatePath].state);
      forall r | Sealed(d'.backups, r) ensures GoodBackup(lost, d'.backups, d'.backups[r].value) {
        if Sealed(d.backups, r) {
          assert GoodBackup(lost, d.backups, d.backups[r].value);
        }
        GoodBackupGrows(lost, d.backups, d'.backups, d'.backups[r].value);
      }
    } else if (e.WriteFile? || e.RemoveFile?) && d.marker.Some? {
      QuietStaysSettled(lost, d, e);
    }
  }

  ghost predicate AllAllowed(lost: set<nat>, d: Disk, es: seq<Effect>)
    decreases |es|
  {
    es == [] || (Allowed(lost, d, es[0]) && AllAllowed(lost, Apply(d, es[0]), es[1..]))
  }

  ghost predicate AllQuiet(lost: set<nat>, d: Disk, es: seq<Effect>)
    decreases |es|
  {
    es == [] || (Quiet(lost, d, es[0]) && AllQuiet(lost, Apply(d, es[0]), es[1..]))
  }

  lemma {:induction false} RunKeepsInv(lost: set<nat>, d: Disk, es: seq<Effect>)
    requires Inv(lost, d) && AllAllowed(lost, d, es)
    ensures Inv(lost, Perform(d, es)) && Grows(d.backups, Perform(d, es).backups)
    decreases |es|
  {
    if es != [] {
      EffectKeepsInv(lost, d, es[0]);
      RunKeepsInv(lost, Apply(d, es[0]), es[1..]);
    }
  }

  lemma {:induction false} RunStaysSettled(lost: set<nat>, d: Disk, es: seq<Effect>)
    requires Inv(lost, d) && AllQuiet(lost, d, es)
    ensures AllAllowed(lost, d, es) && Settled(Perform(d, es)) == Settled(d)
    decreases |es|
  {
    if es != [] {
      QuietStaysSettled(lost, d, es[0]);
      EffectKeepsInv(lost, d, es[0]);
      RunStaysSettled(lost, Apply(d, es[0]), es[1..]);
    }
  }

  lemma {:induction false} AllowedAppend(lost: set<nat>, d: Disk, a: seq<Effect>, b: seq<Effect>)
    ensures AllAllowed(lost, d, a + b) <==> AllAllowed(lost, d, a) && AllAllowed(lost, Perform(d, a), b)
    decreases |a|
  {
    if a == [] {
      assert a + b == b;
    } else {
      assert (a + b)[1..] == a[1..] + b;
      AllowedAppend(lost, Apply(d, a[0]), a[1..], b);
    }
  }

  lemma {:induction false} QuietAppend(lost: set<nat>, d: Disk, a: seq<Effect>, b: seq<Effect>)
    ensures AllQuiet(lost, d, a + b) <==> AllQuiet(lost, d, a) && AllQuiet(lost, Perform(d, a), b)
    decreases |a|
  {
    if a == [] {
      assert a + b == b;
    } else {
      assert (a + b)[1..] == a[1..] + b;
      QuietAppend(lost, Apply(d, a[0]), a[1..], b);
    }
  }

  // ---- restoring, committing, recovering -----------------------------------------------------

  lemma PerformOne(lost: set<nat>, d: Disk, e: Effect)
    ensures Perform(d, [e]) == Apply(d, e)
    ensures AllAllowed(lost, d, [e]) <==> Allowed(lost, d, e)
    ensures AllQuiet(lost, d, [e]) <==> Quiet(lost, d, e)
  {
    assert [e][1..] == [];
    C.Run1(Apply, d, e);
  }

  lemma {:induction false} RestoreRuns(d: Disk, saved: seq<Saved>)
    ensures Perform(d, RestoreEffects(saved)) == d.(files := Restored(d.files, saved))
    decreases |saved|
  {
    if saved != [] {
      var n := |saved| - 1;
      RestoreRuns(d, saved[..n]);
      assert RestoreEffects(saved) == RestoreEffects(saved[..n]) + [RestoreEffect(saved[n])];
      C.RunAppend(Apply, d, RestoreEffects(saved[..n]), [RestoreEffect(saved[n])]);
      C.Run1(Apply, Perform(d, RestoreEffects(saved[..n])), RestoreEffect(saved[n]));
    }
  }

  ghost predicate AllListed(saved: seq<Saved>, part: seq<Saved>) {
    forall x :: x in part ==> SavedAt(saved, x.path).Some?
  }

  lemma {:induction false} ListsItself(saved: seq<Saved>)
    ensures AllListed(saved, saved)
  {
    if saved != [] {
      var n := |saved| - 1;
      ListsItself(saved[..n]);
      assert saved == saved[..n] + [saved[n]];
    }
  }

  /** Restoring under the marker is quiet: recovery may die and start over at any point. */
  lemma {:induction false} RestoreIsQuiet(lost: set<nat>, d: Disk, part: seq<Saved>)
    requires d.marker.Some? && Sealed(d.backups, d.marker.value) && AllListed(d.backups[d.marker.value].value, part)
    ensures AllQuiet(lost, d, RestoreEffects(part))
    decreases |part|
  {
    if part != [] {
      assert part[0] in part;
      RestoreIsQuiet(lost, Apply(d, RestoreEffect(part[0])), part[1..]);
      assert RestoreEffects(part)[1..] == RestoreEffects(part[1..]);
    }
  }

  lemma {:induction false} RestoreIsAllowed(lost: set<nat>, d: Disk, part: seq<Saved>)
    requires d.marker.None? && StateLinesGood(lost, d.backups, part)
    ensures AllAllowed(lost, d, RestoreEffects(part))
    decreases |part|
  {
    if part != [] {
      assert part[0] in part;
      RestoreIsAllowed(lost, Apply(d, RestoreEffect(part[0])), part[1..]);
      assert RestoreEffects(part)[1..] == RestoreEffects(part[1..]);
    }
  }

  lemma {:induction false} RowsAreQuiet(lost: set<nat>, d: Disk, es: seq<Effect>, run: nat)
    requires run in d.backups && forall e :: e in es ==> e.WriteRow? && e.row.run == run
    ensures AllQuiet(lost, d, es) && Perform(d, es) == d.(memory := Perform(d, es).memory)
    decreases |es|
  {
    if es != [] {
      assert es[0] in es;
      RowsAreQuiet(lost, Apply(d, es[0]), es[1..], run);
    }
  }

  lemma {:induction false} CanonicalAreRows(run: nat, candidates: seq<Candidate>)
    ensures forall e :: e in CanonicalEffects(run, candidates) ==> e.WriteRow? && e.row.run == run
  {
    if candidates != [] {
      CanonicalAreRows(run, candidates[1..]);
    }
  }

  lemma {:induction false} WritesAreQuiet(lost: set<nat>, d: Disk, es: seq<Effect>)
    requires d.marker.Some? && forall e :: e in es ==> e.WriteFile? && Protects(d, e.path)
    ensures AllQuiet(lost, d, es) && Perform(d, es) == d.(files := Perform(d, es).files)
    decreases |es|
  {
    if es != [] {
      assert es[0] in es;
      var d' := Apply(d, es[0]);
      assert forall e :: e in es[1..] ==> Protects(d', e.path);
      WritesAreQuiet(lost, d', es[1..]);
    }
  }

  /** A disk from which a run may be committed: nothing to recover, and an unused run id. */
  ghost predicate Ready(lost: set<nat>, d: Disk, p: Proposal) {
    Inv(lost, d) && d.marker.None? && p.run !in d.backups && p.run !in lost
  }

  lemma SavedIsGood(lost: set<nat>, d: Disk, p: Proposal, backups: map<nat, Option<seq<Saved>>>)
    requires Ready(lost, d, p) && Grows(d.backups, backups) && NoneSealed(lost, backups)
    ensures GoodBackup(lost, backups, Save(d.files, Affected(p.profiles)))
  {
    var saved := Save(d.files, Affected(p.profiles));
    assert StatePath == Affected(p.profiles)[0];
    SaveLists(d.files, Affected(p.profiles), StatePath);
    GoodStateGrows(lost, d.backups, backups, d.files[StatePath].state);
    assert forall x :: x in saved && x.path == StatePath ==> x.content == Some(d.files[StatePath]);
  }

  lemma BackupIsQuiet(lost: set<nat>, d: Disk, p: Proposal)
    requires Ready(lost, d, p)
    ensures var saved := Save(d.files, Affected(p.profiles));
            && AllQuiet(lost, d, BackupEffects(d, p))
            && Perform(d, BackupEffects(d, p)) == d.(backups := d.backups[p.run := Some(saved)], marker := Some(p.run))
  {
    var es := BackupEffects(d, p);
    var saved := Save(d.files, Affected(p.profiles));
    var d1 := Apply(d, es[0]);
    EffectKeepsInv(lost, d, es[0]);
    var d2 := Apply(d1, es[1]);
    SavedIsGood(lost, d, p, d1.backups);
    assert Quiet(lost, d1, es[1]);
    SavedRestoresItself(d.files, Affected(p.profiles));
    assert Quiet(lost, d2, es[2]);
    assert es[1..] == [es[1], es[2]] && es[1..][1..] == [es[2]];
    PerformOne(lost, d2, es[2]);
    C.Run3(Apply, d, es[0], es[1], es[2]);
    assert d2.backups == d.backups[p.run := Some(saved)];
  }

  lemma WritesAreAffected(p: Proposal, s: State)
    ensures forall e :: e in FileWrites(p, s) ==> e.WriteFile? && e.path in Affected(p.profiles)
  {
    var writes := FileWrites(p, s);
    forall e | e in writes ensures e.WriteFile? && e.path in Affected(p.profiles) {
      var i :| 0 <= i < |writes| && writes[i] == e;
      if i < |p.profiles| {
        assert Affected(p.profiles)[i + 2] == e.path;
      } else {
        assert Affected(p.profiles)[0] == StatePath && Affected(p.profiles)[1] == MemoriesPath;
      }
    }
  }

  /** With its backup made and its marker written, a run may write all its files; the state last. */
  lemma FilesAreQuiet(lost: set<nat>, d: Disk, files: map<Path, Content>, p: Proposal, s: State)
    requires d.marker == Some(p.run) && Lookup(d.backups, p.run) == Some(Some(Save(files, Affected(p.profiles))))
    ensures AllQuiet(lost, d, FileWrites(p, s))
    ensures var d' := Perform(d, FileWrites(p, s));
            d' == d.(files := d'.files) && Lookup(d'.files, StatePath) == Some(StateFile(s))
  {
    var writes := FileWrites(p, s);
    WritesAreAffected(p, s);
    forall e | e in writes ensures e.WriteFile? && Protects(d, e.path) {
      SaveLists(files, Affected(p.profiles), e.path);
    }
    WritesAreQuiet(lost, d, writes);
    var front, last := ProfileEffects(p.profiles) + [WriteFile(MemoriesPath, Text(p.memories))], WriteFile(StatePath, StateFile(s));
    assert writes == front + [last];
    C.RunAppend(Apply, d, front, [last]);
    C.Run1(Apply, Perform(d, front), last);
  }

  lemma BodyIsQuiet(lost: set<nat>, d: Disk, p: Proposal)
    requires Ready(lost, d, p)
    ensures AllQuiet(lost, d, CommitBody(d, p))
    ensures var d' := Perform(d, CommitBody(d, p));
            && d'.marker == Some(p.run) && d'.backups == d.backups[p.run := Some(Save(d.files, Affected(p.profiles)))]
            && HasState(d'.files) && d'.files[StatePath].state == NewState(d.files[StatePath].state, p.run, p.evidence)
  {
    var s' := NewState(d.files[StatePath].state, p.run, p.evidence);
    var backup, rows, writes := BackupEffects(d, p), CanonicalEffects(p.run, p.candidates), FileWrites(p, s');
    BackupIsQuiet(lost, d, p);
    var d1 := Perform(d, backup);
    CanonicalAreRows(p.run, p.candidates);
    RowsAreQuiet(lost, d1, rows, p.run);
    var d2 := Perform(d1, rows);
    FilesAreQuiet(lost, d2, d.files, p, s');
    QuietAppend(lost, d1, rows, writes);
    C.RunAppend(Apply, d1, rows, writes);
    QuietAppend(lost, d, backup, rows + writes);
    C.RunAppend(Apply, d, backup, rows + writes);
  }

  lemma BodyStaysSettled(lost: set<nat>, d: Disk, p: Proposal, n: nat)
    requires Ready(lost, d, p) && n <= |CommitBody(d, p)|
    ensures var d' := Perform(d, CommitBody(d, p)[..n]);
            Inv(lost, d') && Settled(d') == d.files && AllAllowed(lost, d, CommitBody(d, p)[..n])
  {
    var body := CommitBody(d, p);
    BodyIsQuiet(lost, d, p);
    assert body == body[..n] + body[n..];
    QuietAppend(lost, d, body[..n], body[n..]);
    RunStaysSettled(lost, d, body[..n]);
    RunKeepsInv(lost, d, body[..n]);
  }

  lemma CommitEnds(lost: set<nat>, d: Disk, p: Proposal)
    requires Ready(lost, d, p)
    ensures AllAllowed(lost, d, CommitEffects(d, p))
    ensures var d' := Perform(d, CommitEffects(d, p)); Inv(lost, d') && d'.marker.None?
  {
    var body := CommitBody(d, p);
    BodyStaysSettled(lost, d, p, |body|);
    assert body[..|body|] == body;
    var d1 := Perform(d, body);
    BodyIsQuiet(lost, d, p);
    CommittedStateIsGood(lost, d, p, d1.backups);
    PerformOne(lost, d1, Unmark);
    AllowedAppend(lost, d, body, [Unmark]);
    C.RunAppend(Apply, d, body, [Unmark]);
    EffectKeepsInv(lost, d1, Unmark);
  }

  /** The commit takes effect when its marker goes and not before: wherever the process dies,
      recovery would leave all the old files, or, once the marker is gone, all the new ones. */
  lemma CommitIsAtomic(lost: set<nat>, d: Disk, p: Proposal, n: nat)
    requires Ready(lost, d, p)
    ensures AllAllowed(lost, d, CommitEffects(d, p))
    ensures var d' := C.Live(Apply, d, CommitEffects(d, p), n);
            && Inv(lost, d')
            && Settled(d') == (if n < |CommitEffects(d, p)| then d.files else Perform(d, CommitEffects(d, p)).files)
            && (n >= |CommitEffects(d, p)| ==> d'.marker.None?)
  {
    var body, all := CommitBody(d, p), CommitEffects(d, p);
    CommitEnds(lost, d, p);
    if n <= |body| {
      assert all[..Min(n, |all|)] == body[..n];
      BodyStaysSettled(lost, d, p, n);
    } else {
      C.LiveAll(Apply, d, all, n);
    }
  }

  lemma CommittedStateIsGood(lost: set<nat>, d: Disk, p: Proposal, backups: map<nat, Option<seq<Saved>>>)
    requires Ready(lost, d, p) && backups == d.backups[p.run := Some(Save(d.files, Affected(p.profiles)))]
    ensures GoodState(lost, backups, NewState(d.files[StatePath].state, p.run, p.evidence))
  {
    var s := d.files[StatePath].state;
    var s' := NewState(s, p.run, p.evidence);
    NewStateAccounts(s, p.run, p.evidence);
    assert StatePath == Affected(p.profiles)[0];
    SaveLists(d.files, Affected(p.profiles), StatePath);
    forall i | 0 <= i < |s'.runs| ensures BackedUp(lost, backups, s'.runs, i) {
      if i < |s.runs| {
        assert BackedUp(lost, d.backups, s.runs, i);
        assert s'.runs[..i] == s.runs[..i];
      } else {
        assert s'.runs[..i] == s.runs;
      }
    }
  }

  // ---- what a commit leaves ------------------------------------------------------------------

  /** The text that a run renders last for a profile, if it renders it at all. */
  function TextFor(profiles: seq<Rendered>, name: nat): Option<nat> {
    if profiles == [] then None
    else if profiles[|profiles| - 1].name == name then Some(profiles[|profiles| - 1].text)
    else TextFor(profiles[..|profiles| - 1], name)
  }

  lemma {:induction false} TextForDistinct(profiles: seq<Rendered>, i: nat)
    requires i < |profiles| && forall k :: i < k < |profiles| ==> profiles[k].name != profiles[i].name
    ensures TextFor(profiles, profiles[i].name) == Some(profiles[i].text)
  {
    if i < |profiles| - 1 {
      TextForDistinct(profiles[..|profiles| - 1], i);
    }
  }

  lemma {:induction false} ProfilesWritten(d: Disk, profiles: seq<Rendered>, path: Path)
    ensures var d' := Perform(d, ProfileEffects(profiles));
            && d' == d.(files := d'.files)
            && Lookup(d'.files, path) ==
                 if path.Profile? && TextFor(profiles, path.name).Some? then Some(Text(TextFor(profiles, path.name).value))
                 else Lookup(d.files, path)
  {
    if profiles != [] {
      var n := |profiles| - 1;
      var last := WriteFile(Profile(profiles[n].name), Text(profiles[n].text));
      ProfilesWritten(d, profiles[..n], path);
      assert ProfileEffects(profiles) == ProfileEffects(profiles[..n]) + [last];
      C.RunAppend(Apply, d, ProfileEffects(profiles[..n]), [last]);
      C.Run1(Apply, Perform(d, ProfileEffects(profiles[..n])), last);
    }
  }

  /** The rows of a run's candidates: one for each piece of evidence of each. */
  predicate IsRowOf(row: Row, run: nat, candidates: seq<Candidate>) {
    row.run == run && exists c :: c in candidates && row.statement == c.statement && row.evidence in c.evidence
  }

  lemma {:induction false} RowsWritten(d: Disk, run: nat, evidence: seq<nat>, statement: nat)
    ensures var d' := Perform(d, RowEffects(run, evidence, statement));
            && d' == d.(memory := d'.memory)
            && forall row :: row in d'.memory <==>
                 row in d.memory || (row.run == run && row.statement == statement && row.evidence in evidence)
    decreases |evidence|
  {
    if evidence != [] {
      var d1 := Apply(d, WriteRow(Row(run, evidence[0], statement)));
      RowsWritten(d1, run, evidence[1..], statement);
      assert RowEffects(run, evidence, statement)[1..] == RowEffects(run, evidence[1..], statement);
    }
  }

  lemma {:induction false} CanonicalWritten(d: Disk, run: nat, candidates: seq<Candidate>)
    ensures var d' := Perform(d, CanonicalEffects(run, candidates));
            && d' == d.(memory := d'.memory)
            && forall row :: row in d'.memory <==> row in d.memory || IsRowOf(row, run, candidates)
    decreases |candidates|
  {
    if candidates != [] {
      var c := candidates[0];
      var rows := RowEffects(run, c.evidence, c.statement);
      RowsWritten(d, run, c.evidence, c.statement);
      CanonicalWritten(Perform(d, rows), run, candidates[1..]);
      C.RunAppend(Apply, d, rows, CanonicalEffects(run, candidates[1..]));
      forall row ensures IsRowOf(row, run, candidates) <==>
                           (row.run == run && row.statement == c.statement && row.evidence in c.evidence)
                           || IsRowOf(row, run, candidates[1..])
      {
        assert forall x :: x in candidates <==> x == c || x in candidates[1..];
      }
    }
  }

  lemma FilesWritten(d: Disk, p: Proposal, s: State, path: Path)
    ensures var d' := Perform(d, FileWrites(p, s));
            && d' == d.(files := d'.files)
            && Lookup(d'.files, path) ==
                 match path
                 case StatePath => Some(StateFile(s))
                 case MemoriesPath => Some(Text(p.memories))
                 case Profile(name) =>
                   if TextFor(p.profiles, name).Some? then Some(Text(TextFor(p.profiles, name).value)) else Lookup(d.files, path)
  {
    var profiles, memories, state := ProfileEffects(p.profiles), WriteFile(MemoriesPath, Text(p.memories)), WriteFile(StatePath, StateFile(s));
    ProfilesWritten(d, p.profiles, path);
    var d1 := Perform(d, profiles);
    assert [memories, state] == [memories] + [state];
    C.RunAppend(Apply, d, profiles, [memories, state]);
    C.RunAppend(Apply, d1, [memories], [state]);
    C.Run1(Apply, d1, memories);
    C.Run1(Apply, Apply(d1, memories), state);
  }

  /** A whole commit leaves what the run proposed, and nothing else: each profile holds the text that
      was rendered for it (last, if there were several), the index its new text, the state the run
      and its evidence; every other file is untouched; and memory has exactly the rows of the
      candidates besides the ones it had. */
  lemma CommitWritesTheProposal(d: Disk, p: Proposal)
    requires HasState(d.files)
    ensures var d', s := Perform(d, CommitEffects(d, p)), d.files[StatePath].state;
            var unseen := FreshByDay(p.evidence, s.processed);
            && (forall i :: 0 <= i < |p.profiles| && (forall k :: i < k < |p.profiles| ==> p.profiles[k].name != p.profiles[i].name) ==>
                  Lookup(d'.files, Profile(p.profiles[i].name)) == Some(Text(p.profiles[i].text)))
            && Lookup(d'.files, MemoriesPath) == Some(Text(p.memories))
            && Lookup(d'.files, StatePath)
                 == Some(StateFile(State(s.runs + [Run(p.run, unseen)], Consume(s.processed, unseen), Completed)))
            && (forall path :: path !in Affected(p.profiles) ==> Lookup(d'.files, path) == Lookup(d.files, path))
            && (forall row :: row in d'.memory <==> row in d.memory || IsRowOf(row, p.run, p.candidates))
            && d'.marker.None? && Lookup(d'.backups, p.run) == Some(Some(Save(d.files, Affected(p.profiles))))
  {
    var s' := NewState(d.files[StatePath].state, p.run, p.evidence);
    CommitInParts(d, p);
    var d1 := Perform(d, BackupEffects(d, p));
    BackupEffectsRun(d, p);
    CanonicalWritten(d1, p.run, p.candidates);
    var d2 := Perform(d1, CanonicalEffects(p.run, p.candidates));
    var d' := Perform(d2, FileWrites(p, s'));
    FilesWritten(d2, p, s', StatePath);
    FilesWritten(d2, p, s', MemoriesPath);
    forall i | 0 <= i < |p.profiles| && (forall k :: i < k < |p.profiles| ==> p.profiles[k].name != p.profiles[i].name)
      ensures Lookup(d'.files, Profile(p.profiles[i].name)) == Some(Text(p.profiles[i].text))
    {
      TextForDistinct(p.profiles, i);
      FilesWritten(d2, p, s', Profile(p.profiles[i].name));
    }
    forall path | path !in Affected(p.profiles) ensures Lookup(d'.files, path) == Lookup(d.files, path) {
      FilesWritten(d2, p, s', path);
      NotAffected(p.profiles, path);
    }
  }

  lemma BackupEffectsRun(d: Disk, p: Proposal)
    ensures Perform(d, BackupEffects(d, p))
              == d.(backups := d.backups[p.run := Some(Save(d.files, Affected(p.profiles)))], marker := Some(p.run))
  {
    var es := BackupEffects(d, p);
    C.Run3(Apply, d, es[0], es[1], es[2]);
    assert d.backups[p.run := None][p.run := Some(Save(d.files, Affected(p.profiles)))]
        == d.backups[p.run := Some(Save(d.files, Affected(p.profiles)))];
  }

  lemma CommitInParts(d: Disk, p: Proposal)
    requires HasState(d.files)
    ensures var s' := NewState(d.files[StatePath].state, p.run, p.evidence);
            var d2 := Perform(Perform(d, BackupEffects(d, p)), CanonicalEffects(p.run, p.candidates));
            Perform(d, CommitEffects(d, p)) == Apply(Perform(d2, FileWrites(p, s')), Unmark)
  {
    var s' := NewState(d.files[StatePath].state, p.run, p.evidence);
    var d1 := Perform(d, BackupEffects(d, p));
    C.RunAppend(Apply, d, CommitBody(d, p), [Unmark]);
    C.RunAppend(Apply, d, BackupEffects(d, p), WriteEffects(p, s'));
    C.RunAppend(Apply, d1, CanonicalEffects(p.run, p.candidates), FileWrites(p, s'));
    C.Run1(Apply, Perform(d, CommitBody(d, p)), Unmark);
  }

  lemma {:induction false} NotAffected(profiles: seq<Rendered>, path: Path)
    requires path !in Affected(profiles)
    ensures path.Profile? && TextFor(profiles, path.name).None?
  {
    assert Affected(profiles)[0] == StatePath && Affected(profiles)[1] == MemoriesPath;
    if profiles != [] {
      var n := |profiles| - 1;
      assert Affected(profiles)[n + 2] == Profile(profiles[n].name);
      assert Affected(profiles) == Affected(profiles[..n]) + [Profile(profiles[n].name)];
      NotAffected(profiles[..n], path);
    }
  }

  /** _ensure: restore from the backup that the marker names, then remove the marker. */
  function RecoverEffects(d: Disk): seq<Effect> {
    if d.marker.None? || !Sealed(d.backups, d.marker.value) then []
    else RestoreEffects(d.backups[d.marker.value].value) + [Unmark]
  }

  lemma RecoveryIsAllowed(lost: set<nat>, d: Disk)
    requires Inv(lost, d)
    ensures AllAllowed(lost, d, RecoverEffects(d))
    ensures Perform(d, RecoverEffects(d)) == d.(files := Settled(d), marker := None)
    ensures d.marker.Some? ==> AllQuiet(lost, d, RestoreEffects(d.backups[d.marker.value].value))
  {
    if d.marker.Some? {
      var saved := d.backups[d.marker.value].value;
      ListsItself(saved);
      RestoreIsQuiet(lost, d, saved);
      RestoreRuns(d, saved);
      RunStaysSettled(lost, d, RestoreEffects(saved));
      var d1 := Perform(d, RestoreEffects(saved));
      PerformOne(lost, d1, Unmark);
      AllowedAppend(lost, d, RestoreEffects(saved), [Unmark]);
      C.RunAppend(Apply, d, RestoreEffects(saved), [Unmark]);
    }
  }

  lemma RecoveryStaysSettled(lost: set<nat>, d: Disk, n: nat)
    requires Inv(lost, d)
    ensures var d' := C.Live(Apply, d, RecoverEffects(d), n);
            Inv(lost, d') && Settled(d') == Settled(d) && d'.memory == d.memory && d'.backups == d.backups
  {
    RecoveryIsAllowed(lost, d);
    var es := RecoverEffects(d);
    if n >= |es| {
      C.LiveAll(Apply, d, es, n);
      RunKeepsInv(lost, d, es);
    } else {
      var restore := RestoreEffects(d.backups[d.marker.value].value);
      assert es[..n] == restore[..n];
      assert restore == restore[..n] + restore[n..];
      QuietAppend(lost, d, restore[..n], restore[n..]);
      RunStaysSettled(lost, d, restore[..n]);
      RunKeepsInv(lost, d, restore[..n]);
      assert restore[..n] == RestoreEffects(d.backups[d.marker.value].value[..n]);
      RestoreRuns(d, d.backups[d.marker.value].value[..n]);
    }
  }

  /** Several starts of the service, each dying somewhere inside recovery. */
  function Recoveries(d: Disk, lives: seq<nat>): Disk
    decreases |lives|
  {
    if lives == [] then d else Recoveries(C.Live(Apply, d, RecoverEffects(d), lives[0]), lives[1..])
  }

  lemma {:induction false} RecoveriesStaySettled(lost: set<nat>, d: Disk, lives: seq<nat>)
    requires Inv(lost, d)
    ensures Inv(lost, Recoveries(d, lives)) && Settled(Recoveries(d, lives)) == Settled(d)
    ensures Recoveries(d, lives).memory == d.memory
    decreases |lives|
  {
    if lives != [] {
      RecoveryStaysSettled(lost, d, lives[0]);
      RecoveriesStaySettled(lost, C.Live(Apply, d, RecoverEffects(d), lives[0]), lives[1..]);
    }
  }

  /** The transaction: kill the commit anywhere, kill recovery any number of times, and let it
      finish once. The state, memory and profile files are all new if the commit had reached its
      end, and otherwise all old. Canonical memory is not brought back: it keeps what was written. */
  lemma DreamTransaction(lost: set<nat>, d: Disk, p: Proposal, n: nat, lives: seq<nat>)
    requires Ready(lost, d, p)
    ensures var d1 := Recoveries(C.Live(Apply, d, CommitEffects(d, p), n), lives);
            var d2 := Perform(d1, RecoverEffects(d1));
            && d2.marker.None?
            && d2.files == (if n < |CommitEffects(d, p)| then d.files else Perform(d, CommitEffects(d, p)).files)
            && d2.memory == C.Live(Apply, d, CommitEffects(d, p), n).memory
  {
    CommitIsAtomic(lost, d, p, n);
    var d0 := C.Live(Apply, d, CommitEffects(d, p), n);
    RecoveriesStaySettled(lost, d0, lives);
    RecoveryIsAllowed(lost, Recoveries(d0, lives));
  }

  // ---- every run of the service ----------------------------------------------------------------

  /** How processing a day with fresh evidence goes: to the end, to a failure before the commit,
      or to an exception inside the commit after so many of its effects. */
  datatype Fate = Finishes | ModelFails | CommitRaises(at: nat)

  datatype Op = Nothing | Process(p: Proposal, fate: Fate) | Rollback

  /** An exception inside _commit: its own handler restores the backup, if the marker was there,
      and then _process_range writes the state it had already changed. */
  function RaisedEffects(d: Disk, p: Proposal, k: nat): seq<Effect>
    requires HasState(d.files)
  {
    var body := CommitBody(d, p);
    var s' := NewState(d.files[StatePath].state, p.run, p.evidence).(status := Failed);
    body[..Min(k, |body|)] + (UndoEffects(d, p, k) + [WriteFile(StatePath, StateFile(s'))])
  }

  function UndoEffects(d: Disk, p: Proposal, k: nat): seq<Effect> {
    if k < 3 then [] else [Compensate(p.run)] + (RestoreEffects(Save(d.files, Affected(p.profiles))) + [Unmark])
  }

  function ProcessEffects(d: Disk, p: Proposal, fate: Fate): seq<Effect>
    requires HasState(d.files)
  {
    var s := d.files[StatePath].state;
    if FreshByDay(p.evidence, s.processed) == map[] then [WriteFile(StatePath, StateFile(s.(status := Noop)))]
    else match fate
      case Finishes => CommitEffects(d, p)
      case ModelFails => [WriteFile(StatePath, StateFile(s.(status := Failed)))]
      case CommitRaises(k) => RaisedEffects(d, p, k)
  }

  /** rollback: only the latest successful run, from its backup. */
  function RollbackEffects(d: Disk): seq<Effect>
    requires HasState(d.files)
  {
    var runs := d.files[StatePath].state.runs;
    if runs == [] || !Sealed(d.backups, runs[|runs| - 1].id) then []
    else
      var id := runs[|runs| - 1].id;
      RestoreEffects(d.backups[id].value) + [Compensate(id)]
  }

  function OpEffects(d: Disk, op: Op): seq<Effect> {
    if !HasState(d.files) then []
    else match op
      case Nothing => []
      case Process(p, fate) => ProcessEffects(d, p, fate)
      case Rollback => RollbackEffects(d)
  }

  /** The service starts, recovers, does one thing, and is killed after life effects. */
  datatype Command = Command(op: Op, life: nat)

  function Step(d: Disk, c: Command): Disk {
    var recover := RecoverEffects(d);
    var d1 := C.Live(Apply, d, recover, c.life);
    C.Live(Apply, d1, OpEffects(d1, c.op), Monus(c.life, |recover|))
  }

  /** Run ids are not used twice. */
  predicate Enabled(lost: set<nat>, d: Disk, op: Op) {
    op.Process? ==> op.p.run !in d.backups && op.p.run !in lost
  }

  /** The runs that an exception before the end of their backup leaves without one. */
  function Losing(lost: set<nat>, op: Op): set<nat> {
    if op.Process? && op.fate.CommitRaises? && op.fate.at < 2 then lost + {op.p.run} else lost
  }

  function Lost(lost: set<nat>, cs: seq<Command>): set<nat>
    decreases |cs|
  {
    if cs == [] then lost else Lost(Losing(lost, cs[0].op), cs[1..])
  }

  function Commands(d: Disk, cs: seq<Command>): Disk
    decreases |cs|
  {
    if cs == [] then d else Commands(Step(d, cs[0]), cs[1..])
  }

  predicate AllEnabled(lost: set<nat>, d: Disk, cs: seq<Command>)
    decreases |cs|
  {
    cs == [] || (Enabled(lost, d, cs[0].op) && AllEnabled(Losing(lost, cs[0].op), Step(d, cs[0]), cs[1..]))
  }

  lemma {:induction false} WritesKeepBackups(d: Disk, es: seq<Effect>)
    requires forall e :: e in es ==> e.WriteRow? || e.WriteFile?
    ensures Perform(d, es).backups == d.backups && Perform(d, es).marker == d.marker
    ensures d.memory <= Perform(d, es).memory
    decreases |es|
  {
    if es != [] {
      assert es[0] in es;
      WritesKeepBackups(Apply(d, es[0]), es[1..]);
    }
  }

  lemma BodySplits(d: Disk, p: Proposal, k: nat)
    requires HasState(d.files) && 3 <= k <= |CommitBody(d, p)|
    ensures var s' := NewState(d.files[StatePath].state, p.run, p.evidence);
            && CommitBody(d, p)[..k] == BackupEffects(d, p) + WriteEffects(p, s')[..k - 3]
            && forall e :: e in WriteEffects(p, s')[..k - 3] ==> e.WriteRow? || e.WriteFile?
  {
    CanonicalAreRows(p.run, p.candidates);
    var s' := NewState(d.files[StatePath].state, p.run, p.evidence);
    assert CommitBody(d, p)[..k] == BackupEffects(d, p) + WriteEffects(p, s')[..k - 3];
  }

  lemma BodyPartIsGood(lost: set<nat>, d: Disk, p: Proposal, k: nat)
    requires Ready(lost, d, p) && k <= |CommitBody(d, p)|
    ensures var d' := Perform(d, CommitBody(d, p)[..k]);
            AllAllowed(lost, d, CommitBody(d, p)[..k]) && Inv(lost, d') && Settled(d') == d.files
  {
    var body := CommitBody(d, p);
    BodyIsQuiet(lost, d, p);
    assert body == body[..k] + body[k..];
    QuietAppend(lost, d, body[..k], body[k..]);
    RunStaysSettled(lost, d, body[..k]);
    RunKeepsInv(lost, d, body[..k]);
  }

  /** A commit killed, or stopped by an exception, after k of its effects. */
  lemma BodyPart(lost: set<nat>, d: Disk, p: Proposal, k: nat)
    requires Ready(lost, d, p) && 2 <= k <= |CommitBody(d, p)|
    ensures var d' := Perform(d, CommitBody(d, p)[..k]);
            && d'.backups == d.backups[p.run := Some(Save(d.files, Affected(p.profiles)))]
            && d'.marker == if k >= 3 then Some(p.run) else None
  {
    var body := CommitBody(d, p);
    if k == 2 {
      assert body[..2] == [body[0]] + [body[1]];
      C.RunAppend(Apply, d, [body[0]], [body[1]]);
      C.Run1(Apply, d, body[0]);
      C.Run1(Apply, Apply(d, body[0]), body[1]);
    } else {
      BodySplits(d, p, k);
      BackupIsQuiet(lost, d, p);
      var writes := WriteEffects(p, NewState(d.files[StatePath].state, p.run, p.evidence))[..k - 3];
      C.RunAppend(Apply, d, BackupEffects(d, p), writes);
      WritesKeepBackups(Perform(d, BackupEffects(d, p)), writes);
    }
  }

  /** The handler inside _commit, after an exception that came once the backup was finished. */
  lemma UndoIsAllowed(lost: set<nat>, d: Disk, p: Proposal, d1: Disk, k: nat)
    requires Inv(lost, d1) && Settled(d1) == d.files && k >= 2
    requires Lookup(d1.backups, p.run) == Some(Some(Save(d.files, Affected(p.profiles))))
    requires d1.marker == if k >= 3 then Some(p.run) else None
    ensures AllAllowed(lost, d1, UndoEffects(d, p, k))
    ensures var d' := Perform(d1, UndoEffects(d, p, k));
            d'.files == d.files && d'.marker.None? && d'.backups == d1.backups
  {
    if k >= 3 {
      var c := Compensate(p.run);
      var d2 := Apply(d1, c);
      EffectKeepsInv(lost, d1, c);
      QuietStaysSettled(lost, d1, c);
      RecoveryIsAllowed(lost, d2);
      PerformOne(lost, d1, c);
      AllowedAppend(lost, d1, [c], RecoverEffects(d2));
      C.RunAppend(Apply, d1, [c], RecoverEffects(d2));
      assert UndoEffects(d, p, k) == [c] + RecoverEffects(d2);
    }
  }

  lemma FailedStateIsGood(lost: set<nat>, d: Disk, p: Proposal, backups: map<nat, Option<seq<Saved>>>)
    requires Ready(lost, d, p) && backups == d.backups[p.run := Some(Save(d.files, Affected(p.profiles)))]
    ensures GoodState(lost, backups, NewState(d.files[StatePath].state, p.run, p.evidence).(status := Failed))
  {
    var s' := NewState(d.files[StatePath].state, p.run, p.evidence);
    CommittedStateIsGood(lost, d, p, backups);
    assert Accounts(s'.(status := Failed));
    forall i | 0 <= i < |s'.runs| ensures BackedUp(lost, backups, s'.runs, i) {
    }
  }

  lemma RaisedIsAllowed(lost: set<nat>, d: Disk, p: Proposal, k: nat)
    requires Ready(lost, d, p) && k >= 2
    ensures AllAllowed(lost, d, RaisedEffects(d, p, k))
    ensures var d' := Perform(d, RaisedEffects(d, p, k));
            && HasState(d'.files) && d'.marker.None?
            && d'.files == d.files[StatePath := StateFile(NewState(d.files[StatePath].state, p.run, p.evidence).(status := Failed))]
  {
    var m := Min(k, |CommitBody(d, p)|);
    var part, undo := CommitBody(d, p)[..m], UndoEffects(d, p, k);
    BodyPartIsGood(lost, d, p, m);
    BodyPart(lost, d, p, m);
    var d1 := Perform(d, part);
    var s' := NewState(d.files[StatePath].state, p.run, p.evidence).(status := Failed);
    var last := WriteFile(StatePath, StateFile(s'));
    UndoIsAllowed(lost, d, p, d1, k);
    FailedStateIsGood(lost, d, p, d1.backups);
    var d3 := Perform(d1, undo);
    PerformOne(lost, d3, last);
    AllowedAppend(lost, d1, undo, [last]);
    C.RunAppend(Apply, d1, undo, [last]);
    AllowedAppend(lost, d, part, undo + [last]);
    C.RunAppend(Apply, d, part, undo + [last]);
  }

  /** The latest listed run has a finished backup. */
  predicate RollsBack(d: Disk) {
    HasState(d.files) && LatestBacked(d.files[StatePath].state.runs, d.backups, 1)
  }

  /** The latest k listed runs all have finished backups. */
  predicate LatestBacked(runs: seq<Run>, backups: map<nat, Option<seq<Saved>>>, k: nat) {
    k <= |runs| && forall i :: |runs| - k <= i < |runs| ==> Sealed(backups, runs[i].id)
  }

  lemma RollbackIsAllowed(lost: set<nat>, d: Disk)
    requires Inv(lost, d) && d.marker.None? && RollsBack(d)
    ensures AllAllowed(lost, d, RollbackEffects(d))
    ensures var runs := d.files[StatePath].state.runs;
            var id := runs[|runs| - 1].id;
            var d' := Perform(d, RollbackEffects(d));
            && Sealed(d.backups, id)
            && d' == d.(files := Restored(d.files, d.backups[id].value), memory := set x | x in d.memory && x.run != id)
            && HasState(d'.files) && d'.files[StatePath].state.runs == runs[..|runs| - 1]
  {
    var runs := d.files[StatePath].state.runs;
    assert BackedUp(lost, d.backups, runs, |runs| - 1);
    var id := runs[|runs| - 1].id;
    var saved := d.backups[id].value;
    RestoreIsAllowed(lost, d, saved);
    RestoreRuns(d, saved);
    RestoredAt(d.files, saved, StatePath);
    var d1 := Perform(d, RestoreEffects(saved));
    PerformOne(lost, d1, Compensate(id));
    AllowedAppend(lost, d, RestoreEffects(saved), [Compensate(id)]);
    C.RunAppend(Apply, d, RestoreEffects(saved), [Compensate(id)]);
  }

  /** An exception before the end of the backup: the run is listed, and lost. */
  lemma RaisedEarlyIsAllowed(lost: set<nat>, d: Disk, p: Proposal, k: nat)
    requires Inv(lost, d) && d.marker.None? && p.run !in d.backups && p.run in lost && k < 2
    requires forall i :: 0 <= i < |RunsOf(d)| ==> RunsOf(d)[i].id != p.run
    ensures AllAllowed(lost, d, RaisedEffects(d, p, k))
  {
    var s := d.files[StatePath].state;
    var s' := NewState(s, p.run, p.evidence).(status := Failed);
    var part, last := CommitBody(d, p)[..k], WriteFile(StatePath, StateFile(s'));
    NewStateAccounts(s, p.run, p.evidence);
    assert Accounts(s');
    var d1 := Perform(d, part);
    if k == 1 {
      assert part == [MakeBackup(p.run)];
      PerformOne(lost, d, MakeBackup(p.run));
      EffectKeepsInv(lost, d, MakeBackup(p.run));
    } else {
      assert part == [];
    }
    forall i | 0 <= i < |s'.runs| ensures BackedUp(lost, d1.backups, s'.runs, i) {
      if i < |s.runs| {
        assert BackedUp(lost, d1.backups, s.runs, i);
        assert s'.runs[..i] == s.runs[..i];
      }
    }
    PerformOne(lost, d1, last);
    AllowedAppend(lost, d, part, [last]);
    assert RaisedEffects(d, p, k) == part + [last];
  }

  /** A run id that was never used can be given up as lost. */
  lemma LosingKeepsInv(lost: set<nat>, d: Disk, r: nat)
    requires Inv(lost, d) && r !in d.backups
    ensures Inv(lost + {r}, d)
  {
    var lost' := lost + {r};
    StateLoses(lost, d.backups, Settled(d)[StatePath].state, r);
    forall x | Sealed(d.backups, x) ensures GoodBackup(lost', d.backups, d.backups[x].value) {
      var saved := d.backups[x].value;
      StateLoses(lost, d.backups, SavedState(saved), r);
      forall y | y in saved && y.path == StatePath
        ensures y.content.Some? && y.content.value.StateFile? && GoodState(lost', d.backups, y.content.value.state)
      {
        StateLoses(lost, d.backups, y.content.value.state, r);
      }
    }
  }

  lemma StateLoses(lost: set<nat>, backups: map<nat, Option<seq<Saved>>>, s: State, r: nat)
    requires GoodState(lost, backups, s) && r !in backups
    ensures GoodState(lost + {r}, backups, s)
    ensures r !in lost ==> forall i :: 0 <= i < |s.runs| ==> s.runs[i].id != r
  {
    forall i | 0 <= i < |s.runs|
      ensures BackedUp(lost + {r}, backups, s.runs, i) && (r !in lost ==> s.runs[i].id != r)
    {
      assert BackedUp(lost, backups, s.runs, i);
    }
  }

  lemma OpIsAllowed(lost: set<nat>, d: Disk, op: Op)
    requires Inv(lost, d) && d.marker.None? && Enabled(lost, d, op)
    ensures Inv(Losing(lost, op), d) && AllAllowed(Losing(lost, op), d, OpEffects(d, op))
  {
    match op
    case Nothing =>
    case Rollback =>
      if RollsBack(d) {
        RollbackIsAllowed(lost, d);
      } else {
        assert RollbackEffects(d) == [];
      }
    case Process(p, fate) =>
      if Losing(lost, op) != lost {
        LosingKeepsInv(lost, d, p.run);
      }
      ProcessIsAllowed(lost, d, p, fate);
  }

  lemma ProcessIsAllowed(lost: set<nat>, d: Disk, p: Proposal, fate: Fate)
    requires Ready(lost, d, p) && Inv(Losing(lost, Process(p, fate)), d)
    ensures AllAllowed(Losing(lost, Process(p, fate)), d, ProcessEffects(d, p, fate))
  {
    var lost' := Losing(lost, Process(p, fate));
    var s := d.files[StatePath].state;
    if FreshByDay(p.evidence, s.processed) == map[] {
      StatusIsGood(lost', d, Noop);
    } else {
      match fate
      case Finishes => CommitIsAtomic(lost, d, p, 0);
      case ModelFails => StatusIsGood(lost, d, Failed);
      case CommitRaises(k) =>
        if k < 2 {
          StateLoses(lost, d.backups, s, p.run);
          RaisedEarlyIsAllowed(lost', d, p, k);
        } else {
          RaisedIsAllowed(lost, d, p, k);
        }
    }
  }

  lemma StatusIsGood(lost: set<nat>, d: Disk, status: Status)
    requires Inv(lost, d) && d.marker.None?
    ensures AllAllowed(lost, d, [WriteFile(StatePath, StateFile(d.files[StatePath].state.(status := status)))])
  {
    var s := d.files[StatePath].state;
    assert Accounts(s.(status := status));
    forall i | 0 <= i < |s.runs| ensures BackedUp(lost, d.backups, s.runs, i) {
    }
    PerformOne(lost, d, WriteFile(StatePath, StateFile(s.(status := status))));
  }

  lemma StepKeepsInv(lost: set<nat>, d: Disk, c: Command)
    requires Inv(lost, d) && Enabled(lost, d, c.op)
    ensures Inv(Losing(lost, c.op), Step(d, c)) && Grows(d.backups, Step(d, c).backups)
  {
    var recover := RecoverEffects(d);
    RecoveryStaysSettled(lost, d, c.life);
    var d1 := C.Live(Apply, d, recover, c.life);
    var es, n := OpEffects(d1, c.op), Monus(c.life, |recover|);
    if n == 0 {
      C.DeadStays(Apply, d1, es);
      if c.op.Process? {
        LosingKeepsInv(lost, d1, c.op.p.run);
      }
    } else {
      C.LiveAll(Apply, d, recover, c.life);
      RecoveryIsAllowed(lost, d);
      OpIsAllowed(lost, d1, c.op);
      LiveKeepsInv(Losing(lost, c.op), d1, es, n);
    }
  }

  lemma LiveKeepsInv(lost: set<nat>, d: Disk, es: seq<Effect>, n: nat)
    requires Inv(lost, d) && AllAllowed(lost, d, es)
    ensures var d' := C.Live(Apply, d, es, n); Inv(lost, d') && Grows(d.backups, d'.backups)
  {
    var k := Min(n, |es|);
    assert es == es[..k] + es[k..];
    AllowedAppend(lost, d, es[..k], es[k..]);
    RunKeepsInv(lost, d, es[..k]);
  }

  /** The evidence ledger, over every run of the service: commits, empty days, failures, exceptions
      anywhere in a commit, rollbacks, and deaths in any of them and in recovery. In what recovery
      would restore, the processed evidence is the disjoint union of what the listed runs found
      fresh; and a listed run has the backup of the moment at which only the runs before it were
      listed, if and only if no exception came before that backup was finished. */
  lemma {:induction false} LedgerAlwaysAccounts(lost: set<nat>, d: Disk, cs: seq<Command>)
    requires Inv(lost, d) && AllEnabled(lost, d, cs)
    ensures var d' := Commands(d, cs);
            && Inv(Lost(lost, cs), d') && Grows(d.backups, d'.backups)
            && GoodFiles(Lost(lost, cs), d'.backups, Settled(d'))
    decreases |cs|
  {
    if cs != [] {
      StepKeepsInv(lost, d, cs[0]);
      LedgerAlwaysAccounts(Losing(lost, cs[0].op), Step(d, cs[0]), cs[1..]);
    }
  }

  function RunsOf(d: Disk): seq<Run> {
    if HasState(d.files) then d.files[StatePath].state.runs else []
  }

  function OneBack(d: Disk): Disk {
    if HasState(d.files) then Perform(d, RollbackEffects(d)) else d
  }

  function Rollbacks(d: Disk, k: nat): Disk {
    Iterate(OneBack, d, k)
  }

  function Iterate(back: Disk -> Disk, d: Disk, k: nat): Disk
    decreases k
  {
    if k == 0 then d else Iterate(back, back(d), k - 1)
  }

  lemma RollbackOnce(lost: set<nat>, d: Disk)
    requires Inv(lost, d) && d.marker.None? && RollsBack(d)
    ensures var runs := d.files[StatePath].state.runs;
            var d' := Perform(d, RollbackEffects(d));
            && Inv(lost, d') && d'.marker.None? && d'.backups == d.backups
            && d'.files[StatePath].state.runs == runs[..|runs| - 1]
            && d'.files == Restored(d.files, d.backups[runs[|runs| - 1].id].value)
  {
    RollbackIsAllowed(lost, d);
    RunKeepsInv(lost, d, RollbackEffects(d));
  }

  type Backups = map<nat, Option<seq<Saved>>>

  /** What the backup of the k-th latest of these runs says about a path. */
  function BackupBefore(runs: seq<Run>, backups: Backups, k: nat, p: Path): Option<Option<Content>> {
    if 1 <= k <= |runs| && Sealed(backups, runs[|runs| - k].id)
    then SavedAt(backups[runs[|runs| - k].id].value, p) else None
  }

  /** The listed runs and the backups of a disk with nothing to recover. */
  ghost function AtRest(lost: set<nat>, d: Disk): Option<(seq<Run>, Backups)> {
    if Inv(lost, d) && d.marker.None? then Some((RunsOf(d), d.backups)) else None
  }

  lemma OneRollback(lost: set<nat>, d: Disk, runs: seq<Run>, backups: Backups, p: Path)
    requires AtRest(lost, d) == Some((runs, backups)) && LatestBacked(runs, backups, 1)
    ensures AtRest(lost, OneBack(d)) == Some((runs[..|runs| - 1], backups))
    ensures BackupBefore(runs, backups, 1, p).Some? ==> Lookup(OneBack(d).files, p) == BackupBefore(runs, backups, 1, p).value
  {
    RollbackOnce(lost, d);
    RestoredAt(d.files, d.backups[runs[|runs| - 1].id].value, p);
  }

  // What follows about repeated rollbacks needs of one rollback only what it does to the list of
  // runs: rest says of a disk that it lists these runs and has nothing to recover.

  type Resting = (Disk, seq<Run>) -> bool

  ghost predicate TakesOneOff(back: Disk -> Disk, rest: Resting, backups: Backups) {
    forall d, runs :: rest(d, runs) && runs != [] ==>
      if LatestBacked(runs, backups, 1) then rest(back(d), runs[..|runs| - 1]) else back(d) == d
  }

  lemma {:induction false} IterateStays(back: Disk -> Disk, d: Disk, k: nat)
    requires back(d) == d
    ensures Iterate(back, d, k) == d
    decreases k
  {
    if k > 0 {
      IterateStays(back, d, k - 1);
    }
  }

  lemma {:induction false} IterateLast(back: Disk -> Disk, d: Disk, k: nat)
    ensures Iterate(back, d, k + 1) == back(Iterate(back, d, k))
    decreases k
  {
    if k > 0 {
      IterateLast(back, back(d), k - 1);
    }
  }

  /** Rolling back k times gets to the end, or stops at the first run without a finished backup. */
  lemma {:induction false} TakesRunsOff(back: Disk -> Disk, rest: Resting, backups: Backups, d: Disk, runs: seq<Run>, k: nat)
      returns (left: nat)
    requires TakesOneOff(back, rest, backups) && rest(d, runs) && k <= |runs|
    ensures |runs| - k <= left <= |runs| && rest(Iterate(back, d, k), runs[..left])
    ensures left == |runs| - k <==> LatestBacked(runs, backups, k)
    decreases k
  {
    left := |runs|;
    assert runs[..left] == runs;
    if k > 0 {
      if LatestBacked(runs, backups, 1) {
        var rest' := runs[..|runs| - 1];
        left := TakesRunsOff(back, rest, backups, back(d), rest', k - 1);
        assert rest'[..left] == runs[..left];
      } else {
        IterateStays(back, d, k);
      }
    }
  }

  /** The disk that the last of k rollbacks starts from. */
  lemma BeforeTheLast(back: Disk -> Disk, rest: Resting, backups: Backups, d: Disk, runs: seq<Run>, k: nat)
      returns (e: Disk)
    requires TakesOneOff(back, rest, backups) && rest(d, runs) && 1 <= k && LatestBacked(runs, backups, k)
    ensures rest(e, runs[..|runs| - (k - 1)]) && Iterate(back, d, k) == back(e)
  {
    e := Iterate(back, d, k - 1);
    IterateLast(back, d, k - 1);
    var left := TakesRunsOff(back, rest, backups, d, runs, k - 1);
  }

  ghost function RestingWith(lost: set<nat>, backups: Backups): Resting {
    (d, runs) => AtRest(lost, d) == Some((runs, backups))
  }

  lemma OneBackTakesOneOff(lost: set<nat>, backups: Backups)
    ensures TakesOneOff(OneBack, RestingWith(lost, backups), backups)
  {
    var rest := RestingWith(lost, backups);
    forall d, runs | rest(d, runs) && runs != []
      ensures if LatestBacked(runs, backups, 1) then rest(OneBack(d), runs[..|runs| - 1]) else OneBack(d) == d
    {
      if LatestBacked(runs, backups, 1) {
        OneRollback(lost, d, runs, backups, StatePath);
      }
    }
  }

  /** Exactly when k rollbacks take k runs off the list: the latest k have finished backups. */
  lemma RollbacksTakeRunsOff(lost: set<nat>, d: Disk, runs: seq<Run>, backups: Backups, k: nat)
    requires AtRest(lost, d) == Some((runs, backups)) && k <= |runs|
    ensures |RunsOf(Rollbacks(d, k))| == |runs| - k <==> LatestBacked(runs, backups, k)
    ensures LatestBacked(runs, backups, k) ==> AtRest(lost, Rollbacks(d, k)) == Some((runs[..|runs| - k], backups))
  {
    OneBackTakesOneOff(lost, backups);
    var left := TakesRunsOff(OneBack, RestingWith(lost, backups), backups, d, runs, k);
  }

  /** The last of k rollbacks. */
  lemma LastRollback(lost: set<nat>, e: Disk, runs: seq<Run>, backups: Backups, k: nat, p: Path)
    requires 1 <= k && LatestBacked(runs, backups, k) && AtRest(lost, e) == Some((runs[..|runs| - (k - 1)], backups))
    ensures var saved := BackupBefore(runs, backups, k, p); saved.Some? ==> Lookup(OneBack(e).files, p) == saved.value
  {
    var left := runs[..|runs| - (k - 1)];
    assert left[|left| - 1] == runs[|runs| - k];
    assert BackupBefore(left, backups, 1, p) == BackupBefore(runs, backups, k, p);
    OneRollback(lost, e, left, backups, p);
  }

  /** k rollbacks put every file that the k-th latest run's backup lists to what it says, if the
      latest k runs all have finished backups. */
  lemma RollbacksUndo(lost: set<nat>, d: Disk, runs: seq<Run>, backups: Backups, k: nat, p: Path)
    requires AtRest(lost, d) == Some((runs, backups)) && 1 <= k && LatestBacked(runs, backups, k)
    ensures var saved := BackupBefore(runs, backups, k, p);
            saved.Some? ==> Lookup(Rollbacks(d, k).files, p) == saved.value
  {
    OneBackTakesOneOff(lost, backups);
    var e := BeforeTheLast(OneBack, RestingWith(lost, backups), backups, d, runs, k);
    LastRollback(lost, e, runs, backups, k, p);
  }

  lemma CommitBacksUp(lost: set<nat>, d: Disk, p: Proposal, path: Path)
    requires Ready(lost, d, p) && path in Affected(p.profiles)
    ensures var d1 := Perform(d, CommitEffects(d, p));
            && Inv(lost, d1) && Sealed(d1.backups, p.run)
            && SavedAt(d1.backups[p.run].value, path) == Some(Lookup(d.files, path))
  {
    CommitIsAtomic(lost, d, p, |CommitEffects(d, p)|);
    C.LiveAll(Apply, d, CommitEffects(d, p), |CommitEffects(d, p)|);
    BodyIsQuiet(lost, d, p);
    C.RunAppend(Apply, d, CommitBody(d, p), [Unmark]);
    PerformOne(lost, Perform(d, CommitBody(d, p)), Unmark);
    SaveLists(d.files, Affected(p.profiles), path);
  }

  /** A backup that was sealed stays what k rollbacks return to when its run is k-th latest. */
  lemma SealedBackupsLast(lost: set<nat>, d1: Disk, cs: seq<Command>, k: nat, id: nat, p: Path)
    requires Inv(lost, d1) && AllEnabled(lost, d1, cs) && Sealed(d1.backups, id) && SavedAt(d1.backups[id].value, p).Some?
    ensures var d2 := Commands(d1, cs);
            d2.marker.None? && IsKthLatest(d2, k, id) && LatestBacked(RunsOf(d2), d2.backups, k) ==>
              Lookup(Rollbacks(d2, k).files, p) == SavedAt(d1.backups[id].value, p).value
  {
    var d2 := Commands(d1, cs);
    LedgerAlwaysAccounts(lost, d1, cs);
    if d2.marker.None? && IsKthLatest(d2, k, id) && LatestBacked(RunsOf(d2), d2.backups, k) {
      KthLatestUndone(Lost(lost, cs), d2, d1.backups, k, id, p);
    }
  }

  lemma KthLatestUndone(lost: set<nat>, d: Disk, earlier: Backups, k: nat, id: nat, p: Path)
    requires Inv(lost, d) && d.marker.None? && Grows(earlier, d.backups)
    requires IsKthLatest(d, k, id) && LatestBacked(RunsOf(d), d.backups, k) && Sealed(earlier, id) && SavedAt(earlier[id].value, p).Some?
    ensures Lookup(Rollbacks(d, k).files, p) == SavedAt(earlier[id].value, p).value
  {
    assert BackupBefore(RunsOf(d), d.backups, k, p) == SavedAt(earlier[id].value, p);
    RollbacksUndo(lost, d, RunsOf(d), d.backups, k, p);
  }

  /** Undo: whatever happened since a commit, once its run is the k-th latest on the list and the
      runs since have finished backups, k rollbacks put every file the commit touched back as it
      was just before the commit. */
  lemma RollbacksReturnToBeforeTheCommit(lost: set<nat>, d: Disk, p: Proposal, cs: seq<Command>, k: nat, path: Path)
    requires Ready(lost, d, p) && path in Affected(p.profiles)
    ensures var d1 := Perform(d, CommitEffects(d, p));
            var d2 := Commands(d1, cs);
            AllEnabled(lost, d1, cs) && d2.marker.None? && IsKthLatest(d2, k, p.run)
            && LatestBacked(RunsOf(d2), d2.backups, k) ==>
              Lookup(Rollbacks(d2, k).files, path) == Lookup(d.files, path)
  {
    CommitBacksUp(lost, d, p, path);
    var d1 := Perform(d, CommitEffects(d, p));
    if AllEnabled(lost, d1, cs) {
      SealedBackupsLast(lost, d1, cs, k, p.run, path);
    }
  }

  predicate IsKthLatest(d: Disk, k: nat, run: nat) {
    1 <= k <= |RunsOf(d)| && RunsOf(d)[|RunsOf(d)| - k].id == run
  }

  // ---- where the transaction does not reach ---------------------------------------------------------

  lemma RestIsWrites(p: Proposal, s: State, k: nat)
    ensures var rest := WriteEffects(p, s) + [Unmark];
            forall e :: e in rest[..Min(k, |rest|)] ==>
              !e.Compensate? && (e.WriteRow? ==> e in CanonicalEffects(p.run, p.candidates))
  {
    CanonicalAreRows(p.run, p.candidates);
    var rest := WriteEffects(p, s) + [Unmark];
    forall e | e in rest[..Min(k, |rest|)]
      ensures !e.Compensate? && (e.WriteRow? ==> e in CanonicalEffects(p.run, p.candidates))
    {
      assert e in rest;
      assert e in CanonicalEffects(p.run, p.candidates) || e in FileWrites(p, s) || e == Unmark;
    }
  }

  lemma RowsShow(d: Disk, p: Proposal, s: State, k: nat)
    requires k > 0 && forall row :: row in d.memory ==> row.run != p.run
    ensures var rest := WriteEffects(p, s) + [Unmark];
            Perform(d, rest[..Min(k, |rest|)]).memory == d.memory <==> CanonicalEffects(p.run, p.candidates) == []
  {
    var rest, rows := WriteEffects(p, s) + [Unmark], CanonicalEffects(p.run, p.candidates);
    var part := rest[..Min(k, |rest|)];
    RestIsWrites(p, s, k);
    MemoryOnlyGrows(d, part);
    if rows != [] {
      CanonicalAreRows(p.run, p.candidates);
      assert part[0] == rows[0] && rows[0] in rows && part[0] in part;
    }
  }

  /** A killed commit leaves canonical memory as it was exactly if it died before its first row. */
  lemma CrashKeepsCanonicalRows(lost: set<nat>, d: Disk, p: Proposal, n: nat)
    requires Ready(lost, d, p)
    ensures var same := C.Live(Apply, d, CommitEffects(d, p), n).memory == d.memory;
            same <==> n <= 3 || CanonicalEffects(p.run, p.candidates) == []
  {
    var s' := NewState(d.files[StatePath].state, p.run, p.evidence);
    var rest := WriteEffects(p, s') + [Unmark];
    assert CommitEffects(d, p) == BackupEffects(d, p) + rest;
    C.LiveAppend(Apply, d, BackupEffects(d, p), rest, n);
    BackupKeepsMemory(d, p, n);
    var d1 := C.Live(Apply, d, BackupEffects(d, p), n);
    if n <= 3 {
      C.DeadStays(Apply, d1, rest);
    } else {
      RowsShow(d1, p, s', n - 3);
    }
  }

  lemma {:induction false} MemoryOnlyGrows(d: Disk, es: seq<Effect>)
    requires forall e :: e in es ==> !e.Compensate?
    ensures d.memory <= Perform(d, es).memory
    ensures (forall e :: e in es ==> !e.WriteRow?) ==> Perform(d, es).memory == d.memory
    ensures forall e :: e in es && e.WriteRow? ==> e.row in Perform(d, es).memory
    decreases |es|
  {
    if es != [] {
      assert es[0] in es;
      MemoryOnlyGrows(Apply(d, es[0]), es[1..]);
    }
  }

  lemma BackupKeepsMemory(d: Disk, p: Proposal, n: nat)
    ensures C.Live(Apply, d, BackupEffects(d, p), n).memory == d.memory
  {
    var es := BackupEffects(d, p)[..Min(n, 3)];
    MemoryOnlyGrows(d, es);
  }

  lemma RaisedEarly(lost: set<nat>, d: Disk, p: Proposal, k: nat)
    requires Ready(lost, d, p) && k < 2
    ensures var d' := Perform(d, RaisedEffects(d, p, k));
            && d'.files == d.files[StatePath := StateFile(NewState(d.files[StatePath].state, p.run, p.evidence).(status := Failed))]
            && !Sealed(d'.backups, p.run)
  {
    var body := CommitBody(d, p);
    var s' := NewState(d.files[StatePath].state, p.run, p.evidence);
    var part, last := body[..k], WriteFile(StatePath, StateFile(s'.(status := Failed)));
    assert UndoEffects(d, p, k) + [last] == [last];
    C.RunAppend(Apply, d, part, [last]);
    PerformOne(lost, Perform(d, part), last);
    if k == 1 {
      assert part == [MakeBackup(p.run)];
      PerformOne(lost, d, MakeBackup(p.run));
    } else {
      assert part == [];
    }
  }

  /** Wherever the exception struck, of the files only the state ends up changed. */
  lemma RaisedWritesTheState(lost: set<nat>, d: Disk, p: Proposal, k: nat)
    requires Ready(lost, d, p)
    ensures var d' := Perform(d, RaisedEffects(d, p, k));
            d'.files == d.files[StatePath := StateFile(NewState(d.files[StatePath].state, p.run, p.evidence).(status := Failed))]
  {
    if k < 2 {
      RaisedEarly(lost, d, p, k);
    } else {
      RaisedIsAllowed(lost, d, p, k);
    }
  }

  /** A run that fails leaves its evidence to be processed again exactly if it failed before its
      commit; after an exception anywhere in the commit, while its backup is written included,
      the evidence counts as processed. */
  lemma FailedRunsAndTheirEvidence(lost: set<nat>, d: Disk, p: Proposal, fate: Fate)
    requires Ready(lost, d, p) && !fate.Finishes?
    requires FreshByDay(p.evidence, d.files[StatePath].state.processed) != map[]
    ensures var d' := Perform(d, ProcessEffects(d, p, fate));
            && HasState(d'.files) && d'.files[StatePath].state.status == Failed
            && (d'.files[StatePath].state.processed == d.files[StatePath].state.processed <==> fate.ModelFails?)
  {
    var s := d.files[StatePath].state;
    if fate.ModelFails? {
      PerformOne(lost, d, WriteFile(StatePath, StateFile(s.(status := Failed))));
    } else {
      RaisedWritesTheState(lost, d, p, fate.at);
      var unseen := FreshByDay(p.evidence, s.processed);
      FreshHasEvidence(p.evidence, s.processed);
      var day, id :| In(unseen, day, id);
      FreshIsExactlyTheUnprocessed(p.evidence, s.processed, day, id);
      assert In(Consume(s.processed, unseen), day, id);
    }
  }

  /** A range with nothing new, and one whose model failed, change the status and nothing else. */
  lemma QuietRangesChangeOnlyTheStatus(d: Disk, p: Proposal, fate: Fate)
    requires HasState(d.files)
    requires FreshByDay(p.evidence, d.files[StatePath].state.processed) == map[] || fate.ModelFails?
    ensures var s := d.files[StatePath].state;
            var status := if FreshByDay(p.evidence, s.processed) == map[] then Noop else Failed;
            Perform(d, ProcessEffects(d, p, fate)) == d.(files := d.files[StatePath := StateFile(s.(status := status))])
  {
    var s := d.files[StatePath].state;
    C.Run1(Apply, d, WriteFile(StatePath, StateFile(s.(status := Noop))));
    C.Run1(Apply, d, WriteFile(StatePath, StateFile(s.(status := Failed))));
  }

  lemma {:induction false} FilesKeepMemory(d: Disk, es: seq<Effect>)
    requires forall e :: e in es ==> !e.WriteRow? && !e.Compensate?
    ensures Perform(d, es).memory == d.memory
    decreases |es|
  {
    if es != [] {
      assert es[0] in es && forall e :: e in es[1..] ==> e in es;
      FilesKeepMemory(Apply(d, es[0]), es[1..]);
    }
  }

  lemma {:induction false} OwnRowsOnly(d: Disk, es: seq<Effect>, run: nat)
    requires forall e :: e in es ==> !e.Compensate? && (e.WriteRow? ==> e.row.run == run)
    ensures forall row: Row :: row.run != run ==> (row in Perform(d, es).memory <==> row in d.memory)
    decreases |es|
  {
    if es != [] {
      assert es[0] in es && forall e :: e in es[1..] ==> e in es;
      OwnRowsOnly(Apply(d, es[0]), es[1..], run);
    }
  }

  lemma BodyWritesOwnRows(d: Disk, p: Proposal, k: nat)
    requires HasState(d.files) && k <= |CommitBody(d, p)|
    ensures forall e :: e in CommitBody(d, p)[..k] ==> !e.Compensate? && (e.WriteRow? ==> e.row.run == p.run)
    ensures k <= 3 ==> forall e :: e in CommitBody(d, p)[..k] ==> !e.WriteRow?
  {
    CanonicalAreRows(p.run, p.candidates);
    var s' := NewState(d.files[StatePath].state, p.run, p.evidence);
    var body := CommitBody(d, p);
    assert body == BackupEffects(d, p) + (CanonicalEffects(p.run, p.candidates) + FileWrites(p, s'));
    assert forall e :: e in body[..k] ==> e in body;
    if k <= 3 {
      assert body[..k] == BackupEffects(d, p)[..k];
    }
  }

  /** Wherever an exception strikes in a commit, memory ends up as it was: the handler takes the
      run's rows out again. */
  lemma RaisedLeavesMemory(lost: set<nat>, d: Disk, p: Proposal, k: nat)
    requires Ready(lost, d, p)
    ensures Perform(d, RaisedEffects(d, p, k)).memory == d.memory
  {
    var m := Min(k, |CommitBody(d, p)|);
    var part, undo := CommitBody(d, p)[..m], UndoEffects(d, p, k);
    var s' := NewState(d.files[StatePath].state, p.run, p.evidence).(status := Failed);
    var last := WriteFile(StatePath, StateFile(s'));
    var d1 := Perform(d, part);
    BodyWritesOwnRows(d, p, m);
    OwnRowsOnly(d, part, p.run);
    C.RunAppend(Apply, d, part, undo + [last]);
    C.RunAppend(Apply, d1, undo, [last]);
    C.Run1(Apply, Perform(d1, undo), last);
    if k < 3 {
      FilesKeepMemory(d, part);
    } else {
      var c, rest := Compensate(p.run), RestoreEffects(Save(d.files, Affected(p.profiles))) + [Unmark];
      C.RunAppend(Apply, d1, [c], rest);
      C.Run1(Apply, d1, c);
      FilesKeepMemory(Apply(d1, c), rest);
    }
  }

  lemma {:induction false} FreshHasEvidence(evidence: seq<Evidence>, processed: Ledger)
    ensures var f := FreshByDay(evidence, processed); f != map[] ==> exists day, id :: In(f, day, id)
  {
    if evidence != [] {
      var n := |evidence| - 1;
      FreshHasEvidence(evidence[..n], processed);
      var f := FreshByDay(evidence, processed);
      if !In(processed, evidence[n].day, evidence[n].id) {
        assert In(f, evidence[n].day, evidence[n].id);
      }
    }
  }

  /** An exception while the backup is being written still lists the run as successful; the run
      can be rolled back, and with it every earlier one, only if the backup was complete. */
  lemma RaiseDuringBackupBlocksRollback(lost: set<nat>, d: Disk, p: Proposal, k: nat)
    requires Ready(lost, d, p)
    ensures var d' := Perform(d, RaisedEffects(d, p, k));
            && HasState(d'.files)
            && var runs := d'.files[StatePath].state.runs;
               && runs == d.files[StatePath].state.runs + [Run(p.run, FreshByDay(p.evidence, d.files[StatePath].state.processed))]
               && (RollbackEffects(d') != [] <==> k >= 2)
  {
    var s' := NewState(d.files[StatePath].state, p.run, p.evidence);
    if k >= 2 {
      RaisedIsAllowed(lost, d, p, k);
      RunKeepsInv(lost, d, RaisedEffects(d, p, k));
      var d' := Perform(d, RaisedEffects(d, p, k));
      var runs := d'.files[StatePath].state.runs;
      assert BackedUp(lost, d'.backups, runs, |runs| - 1);
      RollbackIsAllowed(lost, d');
      assert |RollbackEffects(d')| > 0;
    } else {
      RaisedEarly(lost, d, p, k);
    }
  }

  predicate DistinctPaths(saved: seq<Saved>) {
    forall i, k :: 0 <= i < k < |saved| ==> saved[i].path != saved[k].path
  }

  /** The files already hold what these lines of a backup say. */
  predicate AsSaved(files: map<Path, Content>, lines: seq<Saved>) {
    forall x :: x in lines ==> Lookup(files, x.path) == x.content
  }

  lemma {:induction false} SavedAtIsALine(saved: seq<Saved>, p: Path)
    ensures SavedAt(saved, p).Some? ==> exists x :: x in saved && x.path == p && x.content == SavedAt(saved, p).value
  {
    if saved != [] && saved[|saved| - 1].path != p {
      SavedAtIsALine(saved[..|saved| - 1], p);
      if x :| x in saved[..|saved| - 1] && x.path == p && Some(x.content) == SavedAt(saved[..|saved| - 1], p) {
        assert x in saved;
      }
    }
  }

  lemma {:induction false} SavedAtSplits(saved: seq<Saved>, k: nat, p: Path)
    requires k <= |saved|
    ensures SavedAt(saved, p) == if SavedAt(saved[k..], p).Some? then SavedAt(saved[k..], p) else SavedAt(saved[..k], p)
    decreases |saved|
  {
    if k == |saved| {
      assert saved[..k] == saved;
    } else {
      var n := |saved| - 1;
      SavedAtSplits(saved[..n], k, p);
      assert saved[..n][..k] == saved[..k] && saved[..n][k..] == saved[k..][..n - k];
    }
  }

  /** Restoring lines changes nothing exactly if the files already hold what they say. */
  lemma RestoringNothingNew(files: map<Path, Content>, lines: seq<Saved>)
    requires DistinctPaths(lines)
    ensures Restored(files, lines) == files <==> AsSaved(files, lines)
  {
    if AsSaved(files, lines) {
      forall p ensures Lookup(Restored(files, lines), p) == Lookup(files, p) {
        RestoredAt(files, lines, p);
        SavedAtIsALine(lines, p);
      }
      SameFiles(Restored(files, lines), files);
    }
    if Restored(files, lines) == files {
      forall x | x in lines ensures Lookup(files, x.path) == x.content {
        var i :| 0 <= i < |lines| && lines[i] == x;
        DistinctSaved(lines, i);
        RestoredAt(files, lines, x.path);
      }
    }
  }

  lemma LaterLineNotListed(saved: seq<Saved>, k: nat, i: nat)
    requires DistinctPaths(saved) && k <= i < |saved|
    ensures SavedAt(saved[..k], saved[i].path).None?
  {
    NotListed(saved[..k], saved[i].path);
  }

  /** Restoring the first k lines is restoring all exactly if the files already hold the others. */
  lemma RestoringEnough(files: map<Path, Content>, saved: seq<Saved>, k: nat)
    requires DistinctPaths(saved) && k <= |saved|
    ensures Restored(files, saved[..k]) == Restored(files, saved) <==> AsSaved(files, saved[k..])
  {
    var part, all := Restored(files, saved[..k]), Restored(files, saved);
    forall i | k <= i < |saved|
      ensures Lookup(all, saved[i].path) == saved[i].content && Lookup(part, saved[i].path) == Lookup(files, saved[i].path)
    {
      DistinctSaved(saved, i);
      RestoredAt(files, saved, saved[i].path);
      LaterLineNotListed(saved, k, i);
      RestoredAt(files, saved[..k], saved[i].path);
    }
    if part == all {
      forall x | x in saved[k..] ensures Lookup(files, x.path) == x.content {
        var i :| 0 <= i < |saved| - k && saved[k..][i] == x;
        assert saved[k + i] == x;
      }
    }
    if AsSaved(files, saved[k..]) {
      forall p ensures Lookup(part, p) == Lookup(all, p) {
        SavedAtSplits(saved, k, p);
        SavedAtIsALine(saved[k..], p);
        RestoredAt(files, saved, p);
        RestoredAt(files, saved[..k], p);
        if SavedAt(saved[k..], p).Some? {
          var x :| x in saved[k..] && x.path == p && x.content == SavedAt(saved[k..], p).value;
          var i :| 0 <= i < |saved| - k && saved[k..][i] == x;
          LaterLineNotListed(saved, k, k + i);
        }
      }
      SameFiles(part, all);
    }
  }

  /** A killed rollback leaves the files all as they were, or all as the backup says, exactly if
      they already held what the lines before its death say, or what the lines after it say; and
      as no marker was written, recovery does nothing about it. */
  lemma KilledRollbackIsTorn(lost: set<nat>, d: Disk, n: nat)
    requires Inv(lost, d) && d.marker.None? && d.files[StatePath].state.runs != []
    requires var runs := d.files[StatePath].state.runs;
             var id := runs[|runs| - 1].id;
             Sealed(d.backups, id) && DistinctPaths(d.backups[id].value)
    ensures var runs := d.files[StatePath].state.runs;
            var saved := d.backups[runs[|runs| - 1].id].value;
            var k := Min(n, |saved|);
            var d' := C.Live(Apply, d, RollbackEffects(d), n);
            && (d'.files == d.files || d'.files == Restored(d.files, saved)
                <==> AsSaved(d.files, saved[..k]) || AsSaved(d.files, saved[k..]))
            && RecoverEffects(d') == []
  {
    var runs := d.files[StatePath].state.runs;
    var id := runs[|runs| - 1].id;
    var saved := d.backups[id].value;
    C.LiveAppend(Apply, d, RestoreEffects(saved), [Compensate(id)], n);
    var k := Min(n, |saved|);
    assert RestoreEffects(saved)[..k] == RestoreEffects(saved[..k]);
    RestoreRuns(d, saved[..k]);
    var d1 := C.Live(Apply, d, RestoreEffects(saved), n);
    C.LiveStep(Apply, d1, [Compensate(id)], Monus(n, |saved|));
    RestoringNothingNew(d.files, saved[..k]);
    RestoringEnough(d.files, saved, k);
  }

  lemma {:induction false} DistinctSaved(saved: seq<Saved>, i: nat)
    requires DistinctPaths(saved) && i < |saved|
    ensures SavedAt(saved, saved[i].path) == Some(saved[i].content)
  {
    if i < |saved| - 1 {
      DistinctSaved(saved[..|saved| - 1], i);
    }
  }

  lemma {:induction false} NotListed(saved: seq<Saved>, p: Path)
    requires forall x :: x in saved ==> x.path != p
    ensures SavedAt(saved, p).None?
  {
    if saved != [] {
      NotListed(saved[..|saved| - 1], p);
    }
  }

  // ---- the service, as it runs -------------------------------------------------------------------------

  /** The loop of _fresh_evidence_by_day. */
  method GroupFreshEvidence(evidence: seq<Evidence>, processed: Ledger) returns (grouped: Ledger)
    ensures grouped == FreshByDay(evidence, processed)
  {
    grouped := map[];
    var i := 0;
    while i < |evidence|
      invariant 0 <= i <= |evidence| && grouped == FreshByDay(evidence[..i], processed)
    {
      var item := evidence[i];
      assert evidence[..i + 1][..i] == evidence[..i];
      if !(item.day in processed && item.id in processed[item.day]) {
        var group := if item.day in grouped then grouped[item.day] else {};
        grouped := grouped[item.day := group + {item.id}];
      }
      i := i + 1;
    }
    assert evidence[..|evidence|] == evidence;
  }

  lemma ConsumeMore(processed: Ledger, part: Ledger, day: nat, ids: set<nat>)
    requires day !in part
    ensures Consume(processed, part[day := ids]) == Consume(processed, part)[day := DayOf(Consume(processed, part), day) + ids]
  {
    var a, b := Consume(processed, part[day := ids]), Consume(processed, part);
    var c := b[day := DayOf(b, day) + ids];
    assert a.Keys == c.Keys;
    assert a[day] == DayOf(processed, day) + ids == c[day];
    forall x | x in a && x != day ensures a[x] == c[x] {
      assert DayOf(part[day := ids], x) == DayOf(part, x);
    }
  }

  lemma ConsumeNothing(processed: Ledger)
    ensures Consume(processed, map[]) == processed
  {
    var a := Consume(processed, map[]);
    assert a.Keys == processed.Keys;
    forall day | day in a ensures a[day] == processed[day] {
      assert a[day] == DayOf(processed, day) + DayOf(map[], day);
    }
  }

  /** The loop of _process_range that marks the fresh evidence of each day as processed. */
  method ConsumeFresh(processed: Ledger, unseen: Ledger) returns (all: Ledger)
    ensures all == Consume(processed, unseen)
  {
    all := processed;
    var days := unseen.Keys;
    ConsumeNothing(processed);
    ghost var done: Ledger := map[];
    while days != {}
      invariant days <= unseen.Keys && done == unseen - days && all == Consume(processed, done)
      decreases days
    {
      var day :| day in days;
      var already := if day in all then all[day] else {};
      ConsumeMore(processed, done, day, unseen[day]);
      all := all[day := already + unseen[day]];
      done := done[day := unseen[day]];
      days := days - {day};
    }
    assert done == unseen;
  }

  class DreamService {
    var disk: Disk
    var life: nat

    method Do(e: Effect)
      modifies this
      ensures disk == C.Live(Apply, old(disk), [e], old(life)) && life == Monus(old(life), 1)
    {
      C.LiveStep(Apply, disk, [e], life);
      if life > 0 {
        life := life - 1;
        disk := Apply(disk, e);
      }
    }

    method CreateBackup(run: nat, paths: seq<Path>, files: map<Path, Content>)
      modifies this
      ensures var es := [MakeBackup(run), SealBackup(run, Save(files, paths))];
              disk == C.Live(Apply, old(disk), es, old(life)) && life == Monus(old(life), 2)
    {
      ghost var d, n := disk, life;
      Do(MakeBackup(run));
      var manifest: seq<Saved> := [];
      while |manifest| < |paths|
        invariant |manifest| <= |paths| && manifest == Save(files, paths[..|manifest|])
      {
        var path := paths[|manifest|];
        var content := if path in files then Some(files[path]) else None;
        manifest := manifest + [Saved(path, content)];
      }
      assert paths[..|paths|] == paths;
      Do(SealBackup(run, manifest));
      assert [MakeBackup(run), SealBackup(run, manifest)] == [MakeBackup(run)] + [SealBackup(run, manifest)];
      C.LiveAppend(Apply, d, [MakeBackup(run)], [SealBackup(run, manifest)], n);
    }

    method RestoreBackup(saved: seq<Saved>)
      modifies this
      ensures disk == C.Live(Apply, old(disk), RestoreEffects(saved), old(life)) && life == Monus(old(life), |saved|)
    {
      ghost var d, n, es := disk, life, RestoreEffects(saved);
      var i := 0;
      C.DeadStays(Apply, d, es);
      assert es[..0] == [];
      C.LiveAll(Apply, d, [], n);
      while i < |saved|
        invariant 0 <= i <= |saved|
        invariant disk == C.Live(Apply, d, es[..i], n) && life == Monus(n, i)
      {
        assert es[..i + 1] == es[..i] + [es[i]];
        C.LiveAppend(Apply, d, es[..i], [es[i]], n);
        if saved[i].content.Some? {
          Do(WriteFile(saved[i].path, saved[i].content.value));
        } else {
          Do(RemoveFile(saved[i].path));
        }
        i := i + 1;
      }
      assert es[..|es|] == es;
    }

    method WriteRows(run: nat, evidence: seq<nat>, statement: nat)
      modifies this
      ensures var es := RowEffects(run, evidence, statement);
              disk == C.Live(Apply, old(disk), es, old(life)) && life == Monus(old(life), |es|)
    {
      ghost var d, n, rows := disk, life, RowEffects(run, evidence, statement);
      C.LiveAll(Apply, d, [], n);
      assert rows[..0] == [];
      var k := 0;
      while k < |evidence|
        invariant 0 <= k <= |evidence|
        invariant disk == C.Live(Apply, d, rows[..k], n) && life == Monus(n, k)
      {
        assert rows[..k + 1] == rows[..k] + [rows[k]];
        C.LiveAppend(Apply, d, rows[..k], [rows[k]], n);
        Do(WriteRow(Row(run, evidence[k], statement)));
        k := k + 1;
      }
      assert rows[..|rows|] == rows;
    }

    /** The nested loop of _commit that writes canonical memory. */
    method WriteCanonical(run: nat, candidates: seq<Candidate>)
      modifies this
      ensures var es := CanonicalEffects(run, candidates);
              disk == C.Live(Apply, old(disk), es, old(life)) && life == Monus(old(life), |es|)
    {
      ghost var d, n := disk, life;
      ghost var done: seq<Effect> := [];
      C.LiveAll(Apply, d, [], n);
      var i := 0;
      while i < |candidates|
        invariant 0 <= i <= |candidates|
        invariant done + CanonicalEffects(run, candidates[i..]) == CanonicalEffects(run, candidates)
        invariant disk == C.Live(Apply, d, done, n) && life == Monus(n, |done|)
      {
        var c := candidates[i];
        ghost var rows := RowEffects(run, c.evidence, c.statement);
        assert candidates[i..][0] == c && candidates[i..][1..] == candidates[i + 1..];
        C.LiveAppend(Apply, d, done, rows, n);
        WriteRows(run, c.evidence, c.statement);
        assert (done + rows) + CanonicalEffects(run, candidates[i + 1..])
            == done + (rows + CanonicalEffects(run, candidates[i + 1..]));
        done := done + rows;
        i := i + 1;
      }
      assert done == CanonicalEffects(run, candidates);
    }

    method WriteFiles(p: Proposal, s: State)
      modifies this
      ensures var es := FileWrites(p, s);
              disk == C.Live(Apply, old(disk), es, old(life)) && life == Monus(old(life), |es|)
    {
      ghost var d, n, es := disk, life, FileWrites(p, s);
      var i := 0;
      assert es[..0] == [];
      C.LiveAll(Apply, d, [], n);
      while i < |p.profiles|
        invariant 0 <= i <= |p.profiles|
        invariant disk == C.Live(Apply, d, es[..i], n) && life == Monus(n, i)
      {
        assert es[..i + 1] == es[..i] + [es[i]];
        C.LiveAppend(Apply, d, es[..i], [es[i]], n);
        Do(WriteFile(Profile(p.profiles[i].name), Text(p.profiles[i].text)));
        i := i + 1;
      }
      assert es[..i + 1] == es[..i] + [es[i]] && es == es[..i + 1] + [es[i + 1]];
      C.LiveAppend(Apply, d, es[..i], [es[i]], n);
      Do(WriteFile(MemoriesPath, Text(p.memories)));
      C.LiveAppend(Apply, d, es[..i + 1], [es[i + 1]], n);
      Do(WriteFile(StatePath, StateFile(s)));
    }

    method CommitBodyOf(p: Proposal, s': State)
      requires HasState(disk.files) && s' == NewState(disk.files[StatePath].state, p.run, p.evidence)
      modifies this
      ensures var es := CommitBody(old(disk), p);
              disk == C.Live(Apply, old(disk), es, old(life)) && life == Monus(old(life), |es|)
    {
      ghost var d, n := disk, life;
      var paths := [StatePath, MemoriesPath];
      var i := 0;
      while i < |p.profiles|
        invariant 0 <= i <= |p.profiles| && paths == Affected(p.profiles[..i])
      {
        paths := paths + [Profile(p.profiles[i].name)];
        i := i + 1;
      }
      assert p.profiles[..|p.profiles|] == p.profiles;
      CreateBackup(p.run, paths, disk.files);
      Do(Mark(p.run));
      ghost var front := BackupEffects(d, p)[..2];
      assert front == [MakeBackup(p.run), SealBackup(p.run, Save(d.files, paths))];
      assert BackupEffects(d, p) == front + [Mark(p.run)];
      C.LiveAppend(Apply, d, front, [Mark(p.run)], n);
      ghost var d1 := disk;
      WriteCanonical(p.run, p.candidates);
      WriteFiles(p, s');
      C.LiveAppend(Apply, d1, CanonicalEffects(p.run, p.candidates), FileWrites(p, s'), Monus(n, 3));
      C.LiveAppend(Apply, d, BackupEffects(d, p), WriteEffects(p, s'), n);
    }

    method Commit(p: Proposal, s': State)
      requires HasState(disk.files) && s' == NewState(disk.files[StatePath].state, p.run, p.evidence)
      modifies this
      ensures disk == C.Live(Apply, old(disk), CommitEffects(old(disk), p), old(life))
    {
      ghost var d, n := disk, life;
      CommitBodyOf(p, s');
      Do(Unmark);
      C.LiveAppend(Apply, d, CommitBody(d, p), [Unmark], n);
    }

    /** _commit and the handlers around it when an exception stops it after k effects. */
    method CommitThatRaises(p: Proposal, s': State, k: nat)
      requires HasState(disk.files) && s' == NewState(disk.files[StatePath].state, p.run, p.evidence)
      modifies this
      ensures disk == C.Live(Apply, old(disk), RaisedEffects(old(disk), p, k), old(life))
    {
      ghost var d, n, body := disk, life, CommitBody(disk, p);
      var saved := Save(disk.files, Affected(p.profiles));
      var m := Min(k, |CommitBody(disk, p)|);
      var left := Monus(life, m);
      life := Min(life, m);
      CommitBodyOf(p, s');
      life := left;
      ghost var part := body[..m];
      assert body[..Min(Min(n, m), |body|)] == part[..Min(n, |part|)];
      ghost var d1 := disk;
      assert d1 == C.Live(Apply, d, part, n);
      ghost var undo := UndoEffects(d, p, k);
      C.LiveAll(Apply, d1, [], left);
      if k >= 3 {
        Do(Compensate(p.run));
        ghost var d2, n2 := disk, life;
        RestoreBackup(saved);
        Do(Unmark);
        C.LiveAppend(Apply, d2, RestoreEffects(saved), [Unmark], n2);
        C.LiveAppend(Apply, d1, [Compensate(p.run)], RestoreEffects(saved) + [Unmark], left);
      }
      assert disk == C.Live(Apply, d1, undo, left) && life == Monus(left, |undo|);
      ghost var last := WriteFile(StatePath, StateFile(s'.(status := Failed)));
      Do(WriteFile(StatePath, StateFile(s'.(status := Failed))));
      C.LiveAppend(Apply, d1, undo, [last], left);
      C.LiveAppend(Apply, d, part, undo + [last], n);
    }

    /** _process_range with its outcome given. */
    method ProcessRange(p: Proposal, fate: Fate)
      requires HasState(disk.files)
      modifies this
      ensures disk == C.Live(Apply, old(disk), ProcessEffects(old(disk), p, fate), old(life))
    {
      var s := disk.files[StatePath].state;
      var unseen := GroupFreshEvidence(p.evidence, s.processed);
      if unseen == map[] {
        Do(WriteFile(StatePath, StateFile(s.(status := Noop))));
        return;
      }
      if fate.ModelFails? {
        Do(WriteFile(StatePath, StateFile(s.(status := Failed))));
        return;
      }
      var processed := ConsumeFresh(s.processed, unseen);
      var s' := State(s.runs + [Run(p.run, unseen)], processed, Completed);
      if fate.Finishes? {
        Commit(p, s');
      } else {
        CommitThatRaises(p, s', fate.at);
      }
    }

    method RollBack()
      requires HasState(disk.files)
      modifies this
      ensures disk == C.Live(Apply, old(disk), RollbackEffects(old(disk)), old(life))
    {
      ghost var d, n := disk, life;
      C.LiveAll(Apply, d, [], n);
      var runs := disk.files[StatePath].state.runs;
      if runs == [] {
        return;
      }
      var latest := runs[|runs| - 1].id;
      if latest !in disk.backups || disk.backups[latest].None? {
        return;
      }
      var saved := disk.backups[latest].value;
      RestoreBackup(saved);
      Do(Compensate(latest));
      C.LiveAppend(Apply, d, RestoreEffects(saved), [Compensate(latest)], n);
    }

    /** The recovery loop of _ensure. */
    method Recover()
      modifies this
      ensures disk == C.Live(Apply, old(disk), RecoverEffects(old(disk)), old(life))
      ensures life == Monus(old(life), |RecoverEffects(old(disk))|)
    {
      ghost var d, n := disk, life;
      C.LiveAll(Apply, d, [], n);
      if disk.marker.Some? && disk.marker.value in disk.backups && disk.backups[disk.marker.value].Some? {
        var saved := disk.backups[disk.marker.value].value;
        RestoreBackup(saved);
        Do(Unmark);
        C.LiveAppend(Apply, d, RestoreEffects(saved), [Unmark], n);
      }
    }

    method Serve(c: Command)
      modifies this
      ensures disk == Step(old(disk), c)
    {
      life := c.life;
      Recover();
      C.LiveAll(Apply, disk, [], life);
      if StatePath in disk.files && disk.files[StatePath].StateFile? {
        match c.op
        case Nothing =>
        case Process(p, fate) => ProcessRange(p, fate);
        case Rollback => RollBack();
      }
    }
  }
}
