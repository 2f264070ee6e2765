/** What a death inside an append does to a restore (backup/control.py, backup/restore.py). It may
    leave a last line that does not parse, which the reader refuses, and every append reads first;
    or a whole record without its newline, which the reader accepts, and which the next append
    spoils by writing its own record on the same line. */
module TornJournal {
  import opened Wrappers
  import opened Restore
  import opened RestoreReplay
  import C = Crash
  import J = Journal

  /** How the journal file ends: with a newline; with a whole record that has none; or with a line
      that does not parse, after so many good ones, itself ended by a newline or not. */
  datatype Ending = Ended | Open | Torn(good: nat, ended: bool)

  /** The disk with its journal file. disk.journal holds the entries that were written whole, a
      record that shares its line with another included. */
  datatype Store = Store(disk: Disk, ending: Ending)

  predicate WellEnded(s: Store) {
    (s.ending.Open? ==> s.disk.journal != []) && (s.ending.Torn? ==> s.ending.good <= |s.disk.journal|)
  }

  /** A process writes one more effect. */
  function ApplyTo(s: Store, e: Effect): Store {
    Store(Apply(s.disk, e), if e.Append? && s.ending.Open? then Torn(Monus(|s.disk.journal|, 1), true) else s.ending)
  }

  // ---- the file ------------------------------------------------------------------------------

  type Encoding = Entry -> J.Body

  function BodiesOf(enc: Encoding, j: seq<Entry>): seq<J.Body> {
    seq(|j|, i requires 0 <= i < |j| => enc(j[i]))
  }

  function LinesOf(rs: seq<J.Record>): seq<J.Line> {
    seq(|rs|, i requires 0 <= i < |rs| => J.Parsed(rs[i]))
  }

  function RecordsIn(h: J.Hash, enc: Encoding, s: Store): seq<J.Record> {
    J.Build(h, BodiesOf(enc, s.disk.journal))
  }

  /** The journal file of a store: a chained record for each entry, and the damage. */
  function FileOf(h: J.Hash, enc: Encoding, s: Store): J.File {
    var lines := LinesOf(RecordsIn(h, enc, s));
    match s.ending
    case Ended => J.File(lines, true)
    case Open => J.File(lines, false)
    case Torn(good, ended) => J.File(lines[..Min(good, |lines|)] + [J.Damaged], ended)
  }

  lemma {:induction false} LinesHoldRecords(rs: seq<J.Record>)
    ensures J.Undamaged(LinesOf(rs)) && J.RecordsOf(LinesOf(rs)) == rs
  {
    if rs != [] {
      var n := |rs| - 1;
      LinesHoldRecords(rs[..n]);
      assert LinesOf(rs)[..n] == LinesOf(rs[..n]);
      assert rs == rs[..n] + [rs[n]];
    }
  }

  lemma {:induction false} BuiltBodies(h: J.Hash, bodies: seq<J.Body>)
    ensures J.Bodies(J.Build(h, bodies)) == bodies && J.Accepted(h, J.Build(h, bodies))
  {
    var rs := J.Build(h, bodies);
    if bodies != [] {
      var n := |bodies| - 1;
      BuiltBodies(h, bodies[..n]);
      assert rs == J.Build(h, bodies[..n]) + [J.Next(h, J.Build(h, bodies[..n]), bodies[n])];
      assert J.Bodies(rs) == J.Bodies(J.Build(h, bodies[..n])) + [bodies[n]];
      assert bodies == bodies[..n] + [bodies[n]];
    }
    J.AcceptedIffBuilt(h, rs);
  }

  /** The journal file can be read, and so be appended to, exactly while no line is torn; and what
      an append leaves can be read again exactly if the last line had its newline. */
  lemma TornFilesAreRefused(h: J.Hash, enc: Encoding, s: Store)
    requires WellEnded(s)
    ensures J.Readable(h, FileOf(h, enc, s)) <==> !s.ending.Torn?
    ensures J.EndsClean(FileOf(h, enc, s)) && J.Readable(h, FileOf(h, enc, s)) <==> s.ending.Ended?
  {
    var rs := RecordsIn(h, enc, s);
    LinesHoldRecords(rs);
    BuiltBodies(h, BodiesOf(enc, s.disk.journal));
    if s.ending.Torn? {
      var lines := FileOf(h, enc, s).lines;
      assert lines[|lines| - 1] == J.Damaged;
    } else if s.ending.Open? {
      assert LinesOf(rs)[|rs| - 1] == J.Parsed(rs[|rs| - 1]);
    }
  }

  lemma BuildSnoc(h: J.Hash, enc: Encoding, j: seq<Entry>, e: Entry)
    ensures var rs := J.Build(h, BodiesOf(enc, j));
            && J.Build(h, BodiesOf(enc, j + [e])) == rs + [J.Next(h, rs, enc(e))]
            && LinesOf(rs + [J.Next(h, rs, enc(e))]) == LinesOf(rs) + [J.Parsed(J.Next(h, rs, enc(e)))]
  {
    var all := BodiesOf(enc, j + [e]);
    assert all == BodiesOf(enc, j) + [enc(e)] && all[..|all| - 1] == BodiesOf(enc, j);
  }

  /** Appending an entry to a journal that reads is what append does to the file: a line more, or
      a spoiled last line. */
  lemma AppendsReachTheFile(h: J.Hash, enc: Encoding, s: Store, e: Entry)
    requires WellEnded(s) && !s.ending.Torn?
    ensures FileOf(h, enc, ApplyTo(s, Append(e))) == J.Appended(h, FileOf(h, enc, s), enc(e))
  {
    var rs := RecordsIn(h, enc, s);
    BuildSnoc(h, enc, s.disk.journal, e);
    LinesHoldRecords(rs);
    TornFilesAreRefused(h, enc, s);
    var lines, n := LinesOf(rs), |rs|;
    if s.ending.Open? {
      assert lines[n - 1] == J.Parsed(rs[n - 1]);
      assert LinesOf(rs + [J.Next(h, rs, enc(e))])[..n - 1] == lines[..n - 1];
    }
  }

  // ---- processes that may tear it ---------------------------------------------------------------

  /** Where death cuts the write of a line: not at all, inside the record, or before its newline. */
  datatype Cut = Between | Inside | BeforeNewline

  function CutShort(s: Store, e: Effect, cut: Cut): Store {
    var n := |s.disk.journal|;
    match cut
    case Between => s
    case Inside =>
      Store(s.disk, match s.ending case Ended => Torn(n, false) case Open => Torn(Monus(n, 1), false) case Torn(_, _) => s.ending)
    case BeforeNewline =>
      Store(Apply(s.disk, e),
            match s.ending case Ended => Open case Open => Torn(Monus(n, 1), false) case Torn(_, _) => s.ending)
  }

  /** A process dies after n effects; if the next one is an append, perhaps inside that. */
  function Die(s: Store, es: seq<Effect>, n: nat, cut: Cut): Store {
    var s' := C.Live(ApplyTo, s, es, n);
    if n < |es| && es[n].Append? then CutShort(s', es[n], cut) else s'
  }

  /** The place of the first append. */
  function FirstAppend(es: seq<Effect>): (k: nat)
    ensures k <= |es| && (k < |es| ==> es[k].Append?) && forall i :: 0 <= i < k ==> !es[i].Append?
  {
    if es == [] || es[0].Append? then 0 else 1 + FirstAppend(es[1..])
  }

  /** The effects before the second append. */
  function OneAppend(es: seq<Effect>): seq<Effect> {
    var k := FirstAppend(es);
    if k == |es| then es else es[..k + 1 + FirstAppend(es[k + 1..])]
  }

  /** Each append reads the file first. Recovery starts by reading it, rollback and the failure
      handler by appending to it, so that on a torn file all three raise before they change
      anything. A last line without its newline reads; the first append spoils it, and the second
      raises. */
  function PlanOn(s: Store, c: Command): Plan {
    var p := CommandPlan(s.disk, c);
    match s.ending
    case Ended => p
    case Open => Plan(OneAppend(p.effects), p.ok && OneAppend(p.effects) == p.effects)
    case Torn(_, _) => Plan([], false)
  }

  datatype Death = Death(command: Command, cut: Cut)

  function Step(s: Store, x: Death): Store {
    Die(s, PlanOn(s, x.command).effects, x.command.life, x.cut)
  }

  function Steps(s: Store, xs: seq<Death>): Store
    decreases |xs|
  {
    if xs == [] then s else Steps(Step(s, xs[0]), xs[1..])
  }

  /** A restore that may die inside an append, and then any later processes that may. */
  function StoreReached(d: Disk, a: Archive, n: nat, cut: Cut, xs: seq<Death>): Store {
    Steps(Die(Store(d, Ended), RestorePlan(d, a).effects, n, cut), xs)
  }

  /** Once a line is torn, no recovery, rollback or failure handler changes anything. */
  lemma {:induction false} TornStopsEverything(s: Store, xs: seq<Death>)
    requires s.ending.Torn?
    ensures Steps(s, xs) == s
    decreases |xs|
  {
    if xs != [] {
      C.LiveAll(ApplyTo, s, [], xs[0].command.life);
      TornStopsEverything(s, xs[1..]);
    }
  }

  // ---- what stays true --------------------------------------------------------------------------

  lemma {:induction false} RunOnStore(s: Store, es: seq<Effect>)
    requires WellEnded(s)
    ensures C.Run(ApplyTo, s, es).disk == Run(s.disk, es) && WellEnded(C.Run(ApplyTo, s, es))
    ensures s.ending.Ended? ==> C.Run(ApplyTo, s, es).ending.Ended?
    ensures s.ending.Torn? ==> C.Run(ApplyTo, s, es).ending == s.ending
    ensures s.ending.Open? && (exists e :: e in es && e.Append?) ==> C.Run(ApplyTo, s, es).ending.Torn?
    decreases |es|
  {
    if es != [] {
      RunOnStore(ApplyTo(s, es[0]), es[1..]);
    }
  }

  /** Dying inside an append leaves the disk of a death just before it or just after it. */
  lemma DieKeepsInv(s: Store, es: seq<Effect>, n: nat, cut: Cut, o: Tree)
    requires WellEnded(s) && Inv(s.disk, o) && AllAllowed(s.disk, es, o)
    ensures WellEnded(Die(s, es, n, cut)) && Inv(Die(s, es, n, cut).disk, o)
  {
    CrashKeepsInv(s.disk, es, n, o);
    RunOnStore(s, es[..Min(n, |es|)]);
    if n < |es| && es[n].Append? {
      CrashKeepsInv(s.disk, es, n + 1, o);
      assert es[..n + 1] == es[..n] + [es[n]];
      RunAppend(s.disk, es[..n], [es[n]]);
      Run1(Run(s.disk, es[..n]), es[n]);
    }
  }

  lemma OneAppendAllowed(d: Disk, es: seq<Effect>, o: Tree)
    requires AllAllowed(d, es, o)
    ensures AllAllowed(d, OneAppend(es), o)
  {
    var part := OneAppend(es);
    assert es == part + es[|part|..];
    AllowedAppend(d, part, es[|part|..], o);
  }

  lemma StepKeepsInv(s: Store, x: Death, o: Tree)
    requires WellEnded(s) && Inv(s.disk, o)
    ensures WellEnded(Step(s, x)) && Inv(Step(s, x).disk, o)
  {
    CommandAllowed(s.disk, x.command, o);
    OneAppendAllowed(s.disk, CommandPlan(s.disk, x.command).effects, o);
    DieKeepsInv(s, PlanOn(s, x.command).effects, x.command.life, x.cut, o);
  }

  lemma {:induction false} StepsKeepInv(s: Store, xs: seq<Death>, o: Tree)
    requires WellEnded(s) && Inv(s.disk, o)
    ensures WellEnded(Steps(s, xs)) && Inv(Steps(s, xs).disk, o)
    decreases |xs|
  {
    if xs != [] {
      StepKeepsInv(s, xs[0], o);
      StepsKeepInv(Step(s, xs[0]), xs[1..], o);
    }
  }

  /** A rollback that finds a last line without its newline spoils it and raises: it may sweep what
      is staged, but moves nothing and leaves the fence up. */
  lemma RollbackOnOpen(s: Store, left: Option<Tree>, life: nat)
    requires s.ending.Open? && s.disk.fence
    ensures var p := PlanOn(s, RollBack(left, life));
            !p.ok && p.effects == [Append(State(RollingBack))] + if Rollback in s.disk.slots then [] else [Sweep(left)]
  {
    var start := Append(State(RollingBack));
    var undo, finish := UndoPlan(Apply(s.disk, start)), FinishRollback(left).effects;
    var es := RollbackPlan(s.disk, left).effects;
    if Rollback in s.disk.slots {
      assert es[0] == start && es[1].Append?;
      assert FirstAppend(es[1..]) == 0;
    } else {
      assert undo == Plan([], true);
      assert es == [start] + ([] + finish);
      assert es[1..][0] == Sweep(left) && es[1..][1..][0] == Append(State(RolledBack));
      assert FirstAppend(es[1..][1..]) == 0;
      assert FirstAppend(es[1..]) == 1;
    }
  }

  /** Crash safety with appends that death cuts short: however processes die, inside appends or
      between effects, while the fence stands the old home is kept; and a rollback that lives
      returns it and lifts the fence if and only if the last line of the journal has its newline.
      Otherwise it raises, the fence stays up, the old home is still kept, and the journal is torn. */
  lemma TornCrashSafety(d: Disk, a: Archive, n: nat, cut: Cut, xs: seq<Death>, left: Option<Tree>, life: nat, o: Tree)
    requires Fresh(d) && Lookup(d.slots, Home) == Some(o)
    requires StoreReached(d, a, n, cut, xs).disk.fence
    ensures var s := StoreReached(d, a, n, cut, xs);
            var p := PlanOn(s, RollBack(left, life));
            var s' := C.Run(ApplyTo, s, p.effects);
            && OldHomeKept(s.disk, o)
            && (p.ok && !s'.disk.fence && Lookup(s'.disk.slots, Home) == Some(o) <==> s.ending.Ended?)
            && (!s.ending.Ended? ==> !p.ok && s'.disk.fence && OldHomeKept(s'.disk, o) && s'.ending.Torn?)
  {
    RestoreAllowed(d, a, o);
    DieKeepsInv(Store(d, Ended), RestorePlan(d, a).effects, n, cut, o);
    StepsKeepInv(Die(Store(d, Ended), RestorePlan(d, a).effects, n, cut), xs, o);
    RollbackOnStore(StoreReached(d, a, n, cut, xs), left, life, o);
  }

  lemma RollbackOnStore(s: Store, left: Option<Tree>, life: nat, o: Tree)
    requires WellEnded(s) && Inv0(s.disk, o) && s.disk.fence
    ensures var p := PlanOn(s, RollBack(left, life));
            var s' := C.Run(ApplyTo, s, p.effects);
            && (s.ending.Ended? ==> p.ok && !s'.disk.fence && Lookup(s'.disk.slots, Home) == Some(o))
            && (!s.ending.Ended? ==> !p.ok && s'.disk.fence && OldHomeKept(s'.disk, o) && s'.ending.Torn?)
  {
    var es := PlanOn(s, RollBack(left, life)).effects;
    RunOnStore(s, es);
    if s.ending.Ended? {
      RollbackRuns(s.disk, left, o);
    } else if s.ending.Open? {
      RollbackOnOpen(s, left, life);
      var start := Append(State(RollingBack));
      assert start in es;
      Run1(s.disk, start);
      if Rollback !in s.disk.slots {
        RunAppend(s.disk, [start], [Sweep(left)]);
        Run1(Apply(s.disk, start), Sweep(left));
      }
    }
  }

  // ---- what recovery does about a last line without its newline -------------------------------------

  lemma {:induction false} SettlingOnce(d: Disk, j: seq<Entry>, ids: seq<ActionId>)
    ensures var es := OneAppend(SettleAll(d, j, ids).effects);
            es == [] || (es[0].Append? && (|es| == 1 || (|es| == 2 && es[1].Move?)))
    decreases |ids|
  {
    if ids != [] {
      if ids[0] in Commits(j) || LastIntent(j, ids[0]).None? {
        SettlingOnce(d, j, ids[1..]);
      } else {
        var p := SettlePlan(d, LastIntent(j, ids[0]).value);
        var rest := SettleAll(Run(d, p.effects), j, ids[1..]).effects;
        var es := SettleAll(d, j, ids).effects;
        if |p.effects| == 3 {
          assert es[0].Append? && es[1].Move? && es[2].Append?;
          assert es[1..][1..][0] == es[2];
          assert FirstAppend(es[1..][1..]) == 0;
          assert FirstAppend(es[1..]) == 1;
        } else if p.ok {
          assert es == p.effects + rest;
          SettlingOnce(Run(d, p.effects), j, ids[1..]);
          assert es[1..] == rest;
          StartsWithAppend(rest);
        } else {
          assert es[1..] == [];
        }
      }
    }
  }

  lemma StartsWithAppend(es: seq<Effect>)
    requires var once := OneAppend(es); once == [] || once[0].Append?
    ensures FirstAppend(es) == 0
  {
  }

  /** On a last line without its newline no process does more than one append and one other
      effect; whichever appends tears the journal, and the others only lift the fence of a
      committed restore, or nothing. */
  lemma OpenJournalIsSpentAtOnce(s: Store, c: Command)
    requires s.ending.Open?
    ensures var es := PlanOn(s, c).effects;
            || es == [] || es == [DropFence]
            || (es[0].Append? && |es| <= 2 && (|es| == 2 ==> es[1].Move? || es[1].Sweep?))
  {
    var d := s.disk;
    match c
    case Recover(_) => SettlingOnce(d, d.journal, IntentOrder(d.journal));
    case RollBack(left, life) =>
      if d.fence {
        RollbackOnOpen(s, left, life);
      }
    case HandleFailure(left, _) =>
      var es := CommandPlan(d, c).effects;
      if d.fence {
        assert es[1] == Append(State(RollingBack));
        assert FirstAppend(es[1..]) == 0;
      } else {
        assert es == [Append(Note)] + [];
        assert es[1..] == [];
      }
  }

  /** It happens, and can strand the home: from every fresh disk and for every archive, a restore
      that dies before the newline of its first intent, and a recovery that lives for two effects,
      leave the old home in the rollback slot behind a torn journal, where no later process brings
      it back or lifts the fence. */
  lemma RecoveryStrandsTheHome(d: Disk, a: Archive, life: nat, cut: Cut, xs: seq<Death>, o: Tree)
    requires Fresh(d) && Lookup(d.slots, Home) == Some(o) && life >= 2
    ensures var s := StoreReached(d, a, 7, BeforeNewline, []);
            s.ending.Open? && s.disk.fence && Lookup(s.disk.slots, Home) == Some(o)
    ensures var s := StoreReached(d, a, 7, BeforeNewline, [Death(Recover(life), cut)] + xs);
            s.ending.Torn? && s.disk.fence && Home !in s.disk.slots && Lookup(s.disk.slots, Rollback) == Some(o)
  {
    var s0, x := StoreReached(d, a, 7, BeforeNewline, []), Death(Recover(life), cut);
    DiesBeforeNewline(d, a, o);
    var s1 := Step(s0, x);
    RecoveryMovesOnce(s0, life, cut, o);
    assert ([x] + xs)[0] == x && ([x] + xs)[1..] == xs;
    assert Steps(s0, [x] + xs) == Steps(s1, xs);
    TornStopsEverything(s1, xs);
  }

  lemma DiesBeforeNewline(d: Disk, a: Archive, o: Tree)
    requires Fresh(d) && Lookup(d.slots, Home) == Some(o)
    ensures var s := StoreReached(d, a, 7, BeforeNewline, []);
            && s.ending.Open? && s.disk.fence && s.disk.slots == d.slots[Staging := a.extracted]
            && s.disk.journal == PreparedJournal() + [FirstIntent(o)]
  {
    var es := RestorePlan(d, a).effects;
    DiesAfterFirstIntent(d, a, o);
    RunOnStore(Store(d, Ended), es[..7]);
    assert es[..8] == es[..7] + [es[7]];
    RunAppend(d, es[..7], [es[7]]);
    Run1(Run(d, es[..7]), es[7]);
  }

  lemma RecoveryMovesOnce(s: Store, life: nat, cut: Cut, o: Tree)
    requires s.ending.Open? && s.disk.fence && Lookup(s.disk.slots, Home) == Some(o) && Rollback !in s.disk.slots
    requires s.disk.journal == PreparedJournal() + [FirstIntent(o)] && life >= 2
    ensures var s' := Step(s, Death(Recover(life), cut));
            s'.ending.Torn? && s'.disk.fence && Home !in s'.disk.slots && Lookup(s'.disk.slots, Rollback) == Some(o)
  {
    var d := s.disk;
    RecoveryRetries(d, o);
    var es := RenamePlan(d, Retry(RenameOldHome), Home, Rollback).effects;
    assert es[1..][1..] == [es[2]] && FirstAppend([es[2]]) == 0;
    assert FirstAppend(es[1..]) == 1;
    assert OneAppend(es) == es[..2] == [es[0]] + [es[1]];
    C.LiveAll(ApplyTo, s, es[..2], life);
    C.RunAppend(ApplyTo, s, [es[0]], [es[1]]);
    C.Run1(ApplyTo, s, es[0]);
    C.Run1(ApplyTo, ApplyTo(s, es[0]), es[1]);
  }
}
