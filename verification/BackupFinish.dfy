/** Finishing a frozen backup: storing objects, publishing the manifest, verifying, completing;
    and doing so again after any number of process deaths (backup/service.py). */
module BackupFinish {
  import opened Wrappers
  import opened ObjectStore
  import opened BackupOperations
  import C = Crash

  /** What a process has for a backup key: the mode and name it goes by, and the key itself. */
  datatype Secret = Secret(id: int, key: int)

  /** The operation row, its immutable staging directory, and the backup root. keyId is the secret
      the operation names, key the one that the object store was made with. */
  datatype Disk = Disk(
    h: Hash, mh: ManifestHash, keyId: int, key: int,
    phase: Phase, attempts: nat,
    seed: seq<Member>, files: map<int, Bytes>, staged: bool,
    objects: Objects, manifest: Option<Manifest>, recorded: bool)

  datatype Effect =
    | Enter(phase: Phase)
    | Put(id: int, bytes: Bytes, sealedSize: nat)
    | Publish(manifest: Manifest)
    | Record
    | DropStaging

  function Apply(d: Disk, e: Effect): Disk {
    match e
    case Enter(p) => d.(phase := p, attempts := if p == StoringObjects then d.attempts + 1 else d.attempts)
    case Put(id, bytes, n) => d.(objects := AfterPut(d.h, d.key, d.objects, id, |bytes|, [bytes], n))
    case Publish(m) => d.(manifest := Some(m))
    case Record => d.(recorded := true)
    case DropStaging => d.(staged := false)
  }

  function Run(d: Disk, es: seq<Effect>): Disk {
    C.Run(Apply, d, es)
  }

  /** What the member loop has done so far; ok is false once a check has failed. */
  datatype Progress = Progress(effects: seq<Effect>, records: seq<Member>, ok: bool)

  function StoreMember(d: Disk, m: Member, sealedSize: nat): Progress {
    if m.objectId.None? || !d.staged || m.objectId.value !in d.files then Progress([], [], false)
    else
      var bytes := d.files[m.objectId.value];
      if |bytes| != m.size || d.h(bytes) != m.sha then Progress([], [], false)
      else
        var outcome := PutOutcome(d.h, d.objects, m.sha, |bytes|, [bytes], sealedSize);
        if !outcome.Stored? then Progress([], [], false)
        else Progress([Put(m.sha, bytes, sealedSize)], [m.(objectId := Some(m.sha), stored := Some(outcome.size))], true)
  }

  /** seal(n) is the size that sealing the object n would give in this process. */
  function StoreMembers(d: Disk, ms: seq<Member>, seal: int -> nat): Progress
    decreases |ms|
  {
    if ms == [] then Progress([], [], true)
    else
      var first := StoreMember(d, ms[0], seal(ms[0].sha));
      if !first.ok then first
      else
        var rest := StoreMembers(Run(d, first.effects), ms[1..], seal);
        Progress(first.effects + rest.effects, first.records + rest.records, rest.ok)
  }

  /** Verification: the key is that of the store, every member opens, and its header says what the
      manifest says. */
  predicate Verifies(d: Disk, key: int) {
    && d.manifest.Some? && Readable(d.mh, d.manifest.value) && key == d.key
    && forall m :: m in d.manifest.value.members ==>
         m.objectId.Some? && Open(d.h, key, d.objects, m.objectId.value).Some?
         && d.objects[m.objectId.value].header == Header(m.sha, m.size)
  }

  /** Verification succeeds exactly when a published manifest that reads names, for each member, an
      object that opens with the store's key to content of the member's own hash and size. */
  lemma VerifiedMeansIntact(d: Disk, key: int)
    ensures Verifies(d, key) <==>
              && d.manifest.Some? && Readable(d.mh, d.manifest.value) && key == d.key
              && forall m :: m in d.manifest.value.members ==>
                   m.objectId.Some? && Open(d.h, key, d.objects, m.objectId.value).Some?
                   && d.h(Open(d.h, key, d.objects, m.objectId.value).value) == m.sha
                   && |Open(d.h, key, d.objects, m.objectId.value).value| == m.size
  {
    if d.manifest.Some? {
      forall m | m in d.manifest.value.members && m.objectId.Some? && Open(d.h, key, d.objects, m.objectId.value).Some?
        ensures d.objects[m.objectId.value].header == Header(m.sha, m.size) <==>
                  d.h(Open(d.h, key, d.objects, m.objectId.value).value) == m.sha
                  && |Open(d.h, key, d.objects, m.objectId.value).value| == m.size
      {
        OpenChecksTheContent(d.h, key, d.objects, m.objectId.value, Open(d.h, key, d.objects, m.objectId.value).value);
      }
    }
  }

  function CompleteEffects(d: Disk, key: int): seq<Effect> {
    if Verifies(d, key) then [Record, DropStaging, Enter(Completed)] else [Enter(Phase.Failed)]
  }

  /** What follows the member loop. */
  function PublishEffects(d: Disk, records: seq<Member>, ok: bool): seq<Effect> {
    if !ok then [Enter(Phase.Failed)]
    else
      var publish := [Publish(Finalize(d.mh, records)), Enter(Verifying)];
      publish + CompleteEffects(Run(d, publish), d.key)
  }

  /** The member loop and what follows it. Before the loop the frozen members must be there, and
      the object store must accept the key. */
  function StoreEffects(d: Disk, seal: int -> nat, key: int): seq<Effect> {
    if !d.staged then [Enter(Phase.Failed)]
    else if key != d.key then [Enter(Phase.RecoveryRequired)]
    else
      var stored := StoreMembers(d, d.seed, seal);
      stored.effects + PublishEffects(Run(d, stored.effects), stored.records, stored.ok)
  }

  function ParkEffects(d: Disk): seq<Effect> {
    if Terminal(d.phase) then [] else [Enter(Phase.RecoveryRequired)]
  }

  /** A secret that goes by another name than the operation's, or a phase that cannot be finished,
      parks the operation unless it has already ended. */
  function FinishEffects(d: Disk, seal: int -> nat, secret: Secret): seq<Effect> {
    if secret.id != d.keyId || d.phase !in {SnapshotReady, StoringObjects, Verifying} then ParkEffects(d)
    else if d.phase == Verifying then CompleteEffects(d, secret.key)
    else [Enter(StoringObjects)] + StoreEffects(Apply(d, Enter(StoringObjects)), seal, secret.key)
  }

  /** One start of the process: how long it lives, how its seals come out, and the secret it finds.
      A passphrase is never stored, so after a death a backup made with one finds none. */
  datatype Start = Start(life: nat, seal: int -> nat, secret: Option<Secret>)

  /** reconcile_startup, and the completion that follows it: staging left by an operation that has
      ended is swept; one that was not frozen, or whose secret is gone, fails. */
  function StartEffects(d: Disk, seal: int -> nat, secret: Option<Secret>): seq<Effect> {
    if Terminal(d.phase) then [DropStaging]
    else if d.phase in {Preparing, Snapshotting} || secret.None? then [Enter(Phase.Failed), DropStaging]
    else FinishEffects(d, seal, secret.value)
  }

  function AfterStart(d: Disk, s: Start): Disk {
    C.Live(Apply, d, StartEffects(d, s.seal, s.secret), s.life)
  }

  function Starts(d: Disk, starts: seq<Start>): Disk {
    if starts == [] then d else AfterStart(Starts(d, starts[..|starts| - 1]), starts[|starts| - 1])
  }

  // ---- what a frozen snapshot is ------------------------------------------------------

  /** Staging holds every member under the hash of its bytes. */
  predicate Frozen(h: Hash, seed: seq<Member>, files: map<int, Bytes>) {
    && DistinctPaths(seed)
    && forall m :: m in seed ==>
         m.sha in files && h(files[m.sha]) == m.sha && |files[m.sha]| == m.size && m.objectId == Some(m.sha)
  }

  /** The frozen home: what each path held. */
  function FrozenMap(seed: seq<Member>, files: map<int, Bytes>): map<nat, Bytes>
    requires forall m :: m in seed ==> m.sha in files
  {
    if seed == [] then map[]
    else
      var last := seed[|seed| - 1];
      assert last in seed;
      FrozenMap(seed[..|seed| - 1], files)[last.path := files[last.sha]]
  }

  /** The members as the manifest lists them: each with the size its object has in the store. */
  function Stamped(seed: seq<Member>, objects: Objects): seq<Member>
    requires forall m :: m in seed ==> m.sha in objects
  {
    seq(|seed|, i requires 0 <= i < |seed| =>
      assert seed[i] in seed;
      seed[i].(stored := Some(objects[seed[i].sha].storedSize)))
  }

  predicate Holds(d: Disk, ms: seq<Member>) {
    forall m :: m in ms ==> m.sha in d.files && m.sha in d.objects && Open(d.h, d.key, d.objects, m.sha) == Some(d.files[m.sha])
                            && d.objects[m.sha].header == Header(m.sha, m.size)
  }

  ghost predicate Good(d: Disk) {
    && Frozen(d.h, d.seed, d.files)
    && AllGenuine(d.h, d.key, d.objects)
    && d.phase !in {Preparing, Snapshotting}
    && (d.phase in {SnapshotReady, StoringObjects} ==> d.staged)
    && (d.phase in {Verifying, Completed} || d.recorded ==> d.manifest.Some?)
    && (d.phase == Completed ==> d.recorded && !d.staged)
    && (d.manifest.Some? ==> Published(d))
  }

  ghost predicate Published(d: Disk) {
    && d.manifest.Some? && Frozen(d.h, d.seed, d.files) && Holds(d, d.seed)
    && d.manifest.value == Finalize(d.mh, Stamped(d.seed, d.objects))
  }

  /** What never changes: the snapshot, the keys, and every object once stored; and a manifest,
      once published, is published again only as itself. */
  ghost predicate Continues(d: Disk, d': Disk) {
    && d'.h == d.h && d'.mh == d.mh && d'.keyId == d.keyId && d'.key == d.key && d'.seed == d.seed && d'.files == d.files
    && (forall id :: id in d.objects ==> id in d'.objects && d'.objects[id] == d.objects[id])
    && (d.manifest.Some? ==> d'.manifest == d.manifest)
  }

  ghost predicate Allowed(d: Disk, e: Effect) {
    match e
    case Enter(p) =>
      || (p == StoringObjects && d.phase in {SnapshotReady, StoringObjects} && d.staged)
      || (p == Verifying && d.manifest.Some?)
      || (p == Completed && d.manifest.Some? && d.recorded && !d.staged)
      || p in {Phase.Failed, Phase.RecoveryRequired}
    case Put(id, bytes, _) => d.h(bytes) == id
    case Publish(m) => Holds(d, d.seed) && m == Finalize(d.mh, Stamped(d.seed, d.objects))
    case Record => d.manifest.Some?
    case DropStaging => d.phase !in {SnapshotReady, StoringObjects}
  }

  ghost predicate AllAllowed(d: Disk, es: seq<Effect>)
    decreases |es|
  {
    es == [] || (Allowed(d, es[0]) && AllAllowed(Apply(d, es[0]), es[1..]))
  }

  lemma StampedKept(seed: seq<Member>, a: Objects, b: Objects)
    requires forall m :: m in seed ==> m.sha in a
    requires forall id :: id in a ==> id in b && b[id] == a[id]
    ensures forall m :: m in seed ==> m.sha in b
    ensures Stamped(seed, a) == Stamped(seed, b)
  {
  }

  lemma EffectIsGood(d: Disk, e: Effect)
    requires Good(d) && Injective(d.h) && Allowed(d, e)
    ensures Good(Apply(d, e)) && Continues(d, Apply(d, e))
  {
    if e.Put? {
      PutThenOpen(d.h, d.key, d.objects, e.bytes, [e.bytes], e.sealedSize) by {
        assert [e.bytes][..0] == [];
        assert Flatten([e.bytes]) == e.bytes;
      }
      var d' := Apply(d, e);
      if d.manifest.Some? {
        StampedKept(d.seed, d.objects, d'.objects);
      }
    }
    if e.Publish? && d.manifest.Some? {
      assert Published(d);
    }
  }

  lemma ContinuesTransitive(a: Disk, b: Disk, c: Disk)
    requires Continues(a, b) && Continues(b, c)
    ensures Continues(a, c)
  {
  }

  lemma {:induction false} RunIsGood(d: Disk, es: seq<Effect>)
    requires Good(d) && Injective(d.h) && AllAllowed(d, es)
    ensures Good(Run(d, es)) && Continues(d, Run(d, es))
    decreases |es|
  {
    if es != [] {
      EffectIsGood(d, es[0]);
      RunIsGood(Apply(d, es[0]), es[1..]);
      ContinuesTransitive(d, Apply(d, es[0]), Run(d, es));
    }
  }

  lemma {:induction false} AllowedAppend(d: Disk, a: seq<Effect>, b: seq<Effect>)
    ensures AllAllowed(d, a + b) <==> AllAllowed(d, a) && AllAllowed(Run(d, a), b)
    decreases |a|
  {
    if a == [] {
      assert a + b == b;
    } else {
      assert (a + b)[1..] == a[1..] + b;
      AllowedAppend(Apply(d, a[0]), a[1..], b);
    }
  }

  lemma Allowed1(d: Disk, e: Effect)
    ensures AllAllowed(d, [e]) <==> Allowed(d, e)
    ensures Run(d, [e]) == Apply(d, e)
  {
    assert [e][1..] == [];
    C.Run1(Apply, d, e);
  }

  /** Storing one frozen member always succeeds, and afterwards the store holds its bytes. */
  lemma MemberStores(d: Disk, m: Member, sealedSize: nat)
    requires Good(d) && Injective(d.h) && d.staged && m in d.seed
    ensures var s := StoreMember(d, m, sealedSize);
            && s.ok && s.effects == [Put(m.sha, d.files[m.sha], sealedSize)] && Allowed(d, s.effects[0])
            && var d' := Apply(d, s.effects[0]);
               && m.sha in d'.objects && s.records == [m.(stored := Some(d'.objects[m.sha].storedSize))]
               && Holds(d', [m])
  {
    var bytes := d.files[m.sha];
    assert [bytes][..0] == [];
    assert Flatten([bytes]) == bytes;
    PutThenOpen(d.h, d.key, d.objects, bytes, [bytes], sealedSize);
    if m.sha in d.objects {
      assert Genuine(d.h, d.key, m.sha, d.objects[m.sha]);
    }
  }

  lemma HoldsKept(d: Disk, d': Disk, ms: seq<Member>)
    requires Holds(d, ms) && Continues(d, d')
    ensures Holds(d', ms)
  {
  }

  lemma StampedCons(ms: seq<Member>, a: Objects, b: Objects)
    requires ms != [] && forall m :: m in ms ==> m.sha in b
    requires ms[0].sha in a && a[ms[0].sha] == b[ms[0].sha]
    ensures forall m :: m in ms[1..] ==> m in ms
    ensures Stamped(ms, b) == [ms[0].(stored := Some(a[ms[0].sha].storedSize))] + Stamped(ms[1..], b)
  {
  }

  lemma HoldsCons(d: Disk, ms: seq<Member>)
    requires ms != [] && Holds(d, [ms[0]]) && Holds(d, ms[1..])
    ensures Holds(d, ms)
  {
    assert ms[0] in [ms[0]];
    assert forall m :: m in ms ==> m == ms[0] || m in ms[1..];
  }

  lemma {:induction false} MembersStore(d: Disk, ms: seq<Member>, seal: int -> nat)
    requires Good(d) && Injective(d.h) && d.staged && d.phase == StoringObjects
    requires forall m :: m in ms ==> m in d.seed
    ensures var s := StoreMembers(d, ms, seal);
            var d' := Run(d, s.effects);
            && s.ok && AllAllowed(d, s.effects) && Holds(d', ms) && s.records == Stamped(ms, d'.objects)
            && d' == d.(objects := d'.objects)
    decreases |ms|
  {
    if ms != [] {
      assert ms[0] in ms;
      MemberStores(d, ms[0], seal(ms[0].sha));
      var first := StoreMember(d, ms[0], seal(ms[0].sha)).effects;
      Allowed1(d, first[0]);
      EffectIsGood(d, first[0]);
      var d1 := Run(d, first);
      MembersStore(d1, ms[1..], seal);
      var rest := StoreMembers(d1, ms[1..], seal).effects;
      RunIsGood(d1, rest);
      var d' := Run(d1, rest);
      C.RunAppend(Apply, d, first, rest);
      AllowedAppend(d, first, rest);
      HoldsKept(d1, d', [ms[0]]);
      HoldsCons(d', ms);
      StampedCons(ms, d1.objects, d'.objects);
    }
  }

  lemma PublishedVerifies(d: Disk)
    requires Good(d) && d.manifest.Some?
    ensures Verifies(d, d.key)
  {
    var ms := d.manifest.value.members;
    assert ms == Stamped(d.seed, d.objects);
    forall m | m in ms
      ensures m.objectId == Some(m.sha) && Open(d.h, d.key, d.objects, m.sha).Some? && d.objects[m.sha].header == Header(m.sha, m.size)
    {
      var i :| 0 <= i < |ms| && ms[i] == m;
      assert d.seed[i] in d.seed;
    }
  }

  /** Effects after which the operation has not failed and is not parked, if it was not before. */
  ghost predicate NeverStops(es: seq<Effect>) {
    forall e :: e in es ==> e != Enter(Phase.Failed) && e != Enter(Phase.RecoveryRequired)
  }

  predicate Stopped(d: Disk) {
    d.phase in {Phase.Failed, Phase.RecoveryRequired}
  }

  lemma {:induction false} StaysUnstopped(d: Disk, es: seq<Effect>)
    requires NeverStops(es) && !Stopped(d)
    ensures !Stopped(Run(d, es))
    decreases |es|
  {
    if es != [] {
      assert es[0] in es && forall e :: e in es[1..] ==> e in es;
      StaysUnstopped(Apply(d, es[0]), es[1..]);
    }
  }

  lemma CompletionIsGood(d: Disk)
    requires Good(d) && Injective(d.h) && d.phase == Verifying
    ensures var es := CompleteEffects(d, d.key);
            AllAllowed(d, es) && NeverStops(es) && Run(d, es).phase == Completed
  {
    PublishedVerifies(d);
    var es := CompleteEffects(d, d.key);
    assert es[1..] == [DropStaging, Enter(Completed)] && es[1..][1..] == [Enter(Completed)];
    C.Run3(Apply, d, es[0], es[1], es[2]);
    Allowed1(Apply(Apply(d, es[0]), es[1]), es[2]);
  }

  lemma PublishIsGood(d: Disk, records: seq<Member>)
    requires Good(d) && Injective(d.h) && d.phase == StoringObjects
    requires Holds(d, d.seed) && records == Stamped(d.seed, d.objects)
    ensures var es := PublishEffects(d, records, true);
            AllAllowed(d, es) && NeverStops(es) && Run(d, es).phase == Completed
  {
    var p := Publish(Finalize(d.mh, records));
    var d1 := Apply(d, p);
    EffectIsGood(d, p);
    Allowed1(d, p);
    Allowed1(d1, Enter(Verifying));
    EffectIsGood(d1, Enter(Verifying));
    var d2 := Apply(d1, Enter(Verifying));
    assert [p, Enter(Verifying)] == [p] + [Enter(Verifying)];
    AllowedAppend(d, [p], [Enter(Verifying)]);
    C.RunAppend(Apply, d, [p], [Enter(Verifying)]);
    CompletionIsGood(d2);
    var rest := CompleteEffects(d2, d.key);
    AllowedAppend(d, [p, Enter(Verifying)], rest);
    C.RunAppend(Apply, d, [p, Enter(Verifying)], rest);
  }

  lemma {:induction false} StoringNeverStops(d: Disk, ms: seq<Member>, seal: int -> nat)
    ensures NeverStops(StoreMembers(d, ms, seal).effects)
    decreases |ms|
  {
    if ms != [] {
      var first := StoreMember(d, ms[0], seal(ms[0].sha));
      if first.ok {
        StoringNeverStops(Run(d, first.effects), ms[1..], seal);
      }
    }
  }

  lemma StoringIsGood(d: Disk, seal: int -> nat)
    requires Good(d) && Injective(d.h) && d.phase == StoringObjects
    ensures var es := StoreEffects(d, seal, d.key);
            AllAllowed(d, es) && NeverStops(es) && Run(d, es).phase == Completed
  {
    var stored := StoreMembers(d, d.seed, seal);
    MembersStore(d, d.seed, seal);
    StoringNeverStops(d, d.seed, seal);
    RunIsGood(d, stored.effects);
    var d1 := Run(d, stored.effects);
    PublishIsGood(d1, stored.records);
    var last := PublishEffects(d1, stored.records, true);
    AllowedAppend(d, stored.effects, last);
    C.RunAppend(Apply, d, stored.effects, last);
  }

  /** The secret of the operation: its name, and the key of the store. */
  function OwnSecret(d: Disk): Secret {
    Secret(d.keyId, d.key)
  }

  /** A process with the operation's secret that starts from any good disk writes only safe
      effects, never stops the operation, and completes it if it lives to the end. */
  lemma OwnFinishIsGood(d: Disk, seal: int -> nat)
    requires Good(d) && Injective(d.h) && !Terminal(d.phase)
    ensures var es := FinishEffects(d, seal, OwnSecret(d));
            AllAllowed(d, es) && NeverStops(es) && Run(d, es).phase == Completed
  {
    if d.phase == Verifying {
      CompletionIsGood(d);
    } else {
      var enter := Enter(StoringObjects);
      var d1 := Apply(d, enter);
      EffectIsGood(d, enter);
      StoringIsGood(d1, seal);
      Allowed1(d, enter);
      AllowedAppend(d, [enter], StoreEffects(d1, seal, d.key));
      C.RunAppend(Apply, d, [enter], StoreEffects(d1, seal, d.key));
    }
  }

  lemma Allowed2(d: Disk, a: Effect, b: Effect)
    ensures AllAllowed(d, [a, b]) <==> Allowed(d, a) && Allowed(Apply(d, a), b)
  {
    assert [a, b][1..] == [b];
    Allowed1(Apply(d, a), b);
  }

  /** Whatever secret it has or lacks, a process that starts from a good disk writes only safe
      effects. */
  lemma StartIsGood(d: Disk, seal: int -> nat, secret: Option<Secret>)
    requires Good(d) && Injective(d.h)
    ensures AllAllowed(d, StartEffects(d, seal, secret))
  {
    if Terminal(d.phase) {
      Allowed1(d, DropStaging);
    } else if secret.None? {
      Allowed2(d, Enter(Phase.Failed), DropStaging);
    } else if secret == Some(OwnSecret(d)) {
      OwnFinishIsGood(d, seal);
    } else if secret.value.id != d.keyId {
      Allowed1(d, Enter(Phase.RecoveryRequired));
    } else if d.phase == Verifying {
      Allowed1(d, Enter(Phase.Failed));
    } else {
      Allowed2(d, Enter(StoringObjects), Enter(Phase.RecoveryRequired));
    }
  }

  lemma OneStartIsGood(d: Disk, s: Start)
    requires Good(d) && Injective(d.h)
    ensures Good(AfterStart(d, s)) && Continues(d, AfterStart(d, s))
  {
    var es := StartEffects(d, s.seal, s.secret);
    var k := Min(s.life, |es|);
    StartIsGood(d, s.seal, s.secret);
    assert es == es[..k] + es[k..];
    AllowedAppend(d, es[..k], es[k..]);
    RunIsGood(d, es[..k]);
  }

  lemma {:induction false} StartsAreGood(d: Disk, starts: seq<Start>)
    requires Good(d) && Injective(d.h)
    ensures Good(Starts(d, starts)) && Continues(d, Starts(d, starts))
  {
    if starts != [] {
      var d1 := Starts(d, starts[..|starts| - 1]);
      StartsAreGood(d, starts[..|starts| - 1]);
      OneStartIsGood(d1, starts[|starts| - 1]);
      ContinuesTransitive(d, d1, Starts(d, starts));
    }
  }

  lemma {:induction false} StartsAppend(d: Disk, a: seq<Start>, b: seq<Start>)
    ensures Starts(d, a + b) == Starts(Starts(d, a), b)
  {
    if b == [] {
      assert a + b == a;
    } else {
      assert (a + b)[..|a + b| - 1] == a + b[..|b| - 1];
      StartsAppend(d, a, b[..|b| - 1]);
    }
  }

  // ---- starts that end the operation without completing it ---------------------------------------

  /** A start that fails the operation: it has no secret, or the secret of that name has another
      key when the manifest is verified. */
  predicate FailsIt(d: Disk, s: Start) {
    && !Terminal(d.phase) && s.life > 0
    && (s.secret.None? || (s.secret.value.id == d.keyId && s.secret.value.key != d.key && d.phase == Verifying))
  }

  /** A start that parks it: its secret goes by another name, or the object store refuses its key. */
  predicate ParksIt(d: Disk, s: Start) {
    && !Terminal(d.phase) && s.secret.Some?
    && if s.secret.value.id != d.keyId then s.life > 0
       else s.secret.value.key != d.key && d.phase != Verifying && s.life > 1
  }

  /** An operation that has ended stays as it ended. */
  lemma EndedStaysEnded(d: Disk, s: Start)
    requires Terminal(d.phase)
    ensures AfterStart(d, s).phase == d.phase
  {
    C.LiveStep(Apply, d, [DropStaging], s.life);
  }

  lemma ShortStart(d: Disk, s: Start)
    requires Good(d) && s.secret != Some(OwnSecret(d)) && !Terminal(d.phase)
    ensures var es := StartEffects(d, s.seal, s.secret);
            AfterStart(d, s).phase == if s.life == 0 then d.phase else if s.life == 1 || |es| == 1 then es[0].phase
                                      else if es[1].Enter? then es[1].phase else es[0].phase
  {
    var es := StartEffects(d, s.seal, s.secret);
    C.LiveStep(Apply, d, es, s.life);
    if s.life > 0 && |es| == 2 {
      assert es[1..] == [es[1]];
      C.LiveStep(Apply, Apply(d, es[0]), [es[1]], s.life - 1);
    }
  }

  /** Exactly when one start fails or parks a good operation. */
  lemma OneStartStops(d: Disk, s: Start)
    requires Good(d) && Injective(d.h)
    ensures AfterStart(d, s).phase == Phase.Failed <==> d.phase == Phase.Failed || FailsIt(d, s)
    ensures AfterStart(d, s).phase == Phase.RecoveryRequired <==> d.phase == Phase.RecoveryRequired || ParksIt(d, s)
  {
    if Terminal(d.phase) {
      EndedStaysEnded(d, s);
    } else if s.secret == Some(OwnSecret(d)) {
      OwnFinishIsGood(d, s.seal);
      var es := FinishEffects(d, s.seal, OwnSecret(d));
      var cut := es[..Min(s.life, |es|)];
      assert forall e :: e in cut ==> e in es;
      StaysUnstopped(d, cut);
    } else {
      ShortStart(d, s);
    }
  }

  ghost predicate SomeFails(d: Disk, starts: seq<Start>) {
    exists k :: 0 <= k < |starts| && FailsIt(Starts(d, starts[..k]), starts[k])
  }

  ghost predicate SomeParks(d: Disk, starts: seq<Start>) {
    exists k :: 0 <= k < |starts| && ParksIt(Starts(d, starts[..k]), starts[k])
  }

  lemma SomeFailsSnoc(d: Disk, p: seq<Start>, s: Start)
    ensures SomeFails(d, p + [s]) <==> SomeFails(d, p) || FailsIt(Starts(d, p), s)
  {
    var all := p + [s];
    assert all[..|p|] == p && all[|p|] == s;
    assert forall k :: 0 <= k < |p| ==> all[..k] == p[..k] && all[k] == p[k];
  }

  lemma SomeParksSnoc(d: Disk, p: seq<Start>, s: Start)
    ensures SomeParks(d, p + [s]) <==> SomeParks(d, p) || ParksIt(Starts(d, p), s)
  {
    var all := p + [s];
    assert all[..|p|] == p && all[|p|] == s;
    assert forall k :: 0 <= k < |p| ==> all[..k] == p[..k] && all[k] == p[k];
  }

  /** Exactly when any number of starts leave a good operation failed or parked: one of them came
      before it had ended and failed it, or parked it. */
  lemma {:induction false} StartsStop(d: Disk, starts: seq<Start>)
    requires Good(d) && Injective(d.h) && !Terminal(d.phase)
    ensures Starts(d, starts).phase == Phase.Failed <==> SomeFails(d, starts)
    ensures Starts(d, starts).phase == Phase.RecoveryRequired <==> SomeParks(d, starts)
  {
    if starts != [] {
      var p, s := starts[..|starts| - 1], starts[|starts| - 1];
      assert starts == p + [s];
      StartsStop(d, p);
      StartsAreGood(d, p);
      OneStartStops(Starts(d, p), s);
      SomeFailsSnoc(d, p, s);
      SomeParksSnoc(d, p, s);
    }
  }

  predicate StoresNothing(es: seq<Effect>) {
    forall e :: e in es ==> e != Enter(StoringObjects)
  }

  lemma {:induction false} AttemptsStay(d: Disk, es: seq<Effect>)
    requires StoresNothing(es)
    ensures Run(d, es).attempts == d.attempts
    decreases |es|
  {
    if es != [] {
      assert es[0] in es && forall e :: e in es[1..] ==> e in es;
      AttemptsStay(Apply(d, es[0]), es[1..]);
    }
  }

  lemma {:induction false} MembersOnlyPut(d: Disk, ms: seq<Member>, seal: int -> nat)
    ensures forall e :: e in StoreMembers(d, ms, seal).effects ==> e.Put?
    decreases |ms|
  {
    if ms != [] {
      var first := StoreMember(d, ms[0], seal(ms[0].sha));
      if first.ok {
        MembersOnlyPut(Run(d, first.effects), ms[1..], seal);
      }
    }
  }

  lemma AttemptsStayLive(d: Disk, es: seq<Effect>, n: nat)
    requires StoresNothing(es)
    ensures C.Live(Apply, d, es, n).attempts == d.attempts
  {
    var part := es[..Min(n, |es|)];
    assert forall e :: e in part ==> e in es;
    AttemptsStay(d, part);
  }

  lemma StoringEntersOnce(d: Disk, seal: int -> nat, key: int)
    ensures StoresNothing(StoreEffects(d, seal, key))
  {
    MembersOnlyPut(d, d.seed, seal);
  }

  predicate GoesAboutStoring(d: Disk, s: Start) {
    d.phase in {SnapshotReady, StoringObjects} && s.secret.Some? && s.secret.value.id == d.keyId
  }

  /** The attempts of an operation count the starts that went about storing its objects: those that
      lived, with a secret of its name, before its manifest was published. */
  lemma AttemptsCountStarts(d: Disk, s: Start)
    ensures AfterStart(d, s).attempts == d.attempts + if s.life > 0 && GoesAboutStoring(d, s) then 1 else 0
  {
    var es := StartEffects(d, s.seal, s.secret);
    if GoesAboutStoring(d, s) {
      var enter := Enter(StoringObjects);
      var d1 := Apply(d, enter);
      var rest := StoreEffects(d1, s.seal, s.secret.value.key);
      StoringEntersOnce(d1, s.seal, s.secret.value.key);
      assert es == [enter] + rest;
      C.LiveAppend(Apply, d, [enter], rest, s.life);
      C.LiveStep(Apply, d, [enter], s.life);
      if s.life == 0 {
        C.DeadStays(Apply, d, rest);
      } else {
        AttemptsStayLive(d1, rest, s.life - 1);
      }
    } else {
      assert StoresNothing(es);
      AttemptsStayLive(d, es, s.life);
    }
  }

  /** A manual passphrase is never stored: the first later start that lives fails the operation,
      and sweeps its snapshot if it lives for one effect more. */
  lemma InterruptedPassphraseFails(d: Disk, s: Start)
    requires Good(d) && !Terminal(d.phase) && s.secret.None? && s.life > 0
    ensures var d' := AfterStart(d, s); d'.phase == Phase.Failed && (s.life > 1 ==> !d'.staged)
  {
    var es := StartEffects(d, s.seal, s.secret);
    C.LiveStep(Apply, d, es, s.life);
    assert es[1..] == [DropStaging];
    C.LiveStep(Apply, Apply(d, es[0]), [DropStaging], s.life - 1);
  }

  lemma {:induction false} StampedMaterializes(d: Disk, seed: seq<Member>)
    requires Holds(d, seed) && Frozen(d.h, d.seed, d.files) && forall m :: m in seed ==> m in d.seed
    ensures Materializes(d.h, d.key, d.objects, Stamped(seed, d.objects))
    ensures Materialized(d.h, d.key, d.objects, Stamped(seed, d.objects)) == FrozenMap(seed, d.files)
    decreases |seed|
  {
    var ms := Stamped(seed, d.objects);
    forall m | m in ms
      ensures m.objectId.Some? && Open(d.h, d.key, d.objects, m.objectId.value).Some?
              && |Open(d.h, d.key, d.objects, m.objectId.value).value| == m.size
    {
      var i :| 0 <= i < |ms| && ms[i] == m;
      assert seed[i] in seed;
    }
    if seed != [] {
      var p := seed[..|seed| - 1];
      StampedMaterializes(d, p);
      assert ms[..|ms| - 1] == Stamped(p, d.objects);
      assert seed[|seed| - 1] in seed;
    }
  }

  /** Resume fidelity: from SNAPSHOT_READY, over any number of starts and deaths, with any secrets
      or none, the operation ends failed or parked exactly if some start failed or parked it;
      every manifest published is the same manifest; a published one materialises exactly the
      frozen map of paths to bytes, however the operation ended; a completed operation is in the
      index and has left no staging, and only a published backup is ever in the index. */
  lemma ResumeFidelity(d: Disk, before: seq<Start>, after: seq<Start>)
    requires Good(d) && d.phase == SnapshotReady && Injective(d.h)
    ensures var d1 := Starts(d, before);
            && (d1.phase == Phase.Failed <==> SomeFails(d, before))
            && (d1.phase == Phase.RecoveryRequired <==> SomeParks(d, before))
            && (d1.phase == Completed ==> d1.recorded && !d1.staged)
            && (d1.recorded ==> d1.manifest.Some?)
            && (d1.manifest.Some? ==>
                  && Starts(d, before + after).manifest == d1.manifest
                  && Readable(d.mh, d1.manifest.value)
                  && Materializes(d.h, d.key, d1.objects, d1.manifest.value.members)
                  && Materialized(d.h, d.key, d1.objects, d1.manifest.value.members) == FrozenMap(d.seed, d.files))
  {
    StartsStop(d, before);
    StartsAreGood(d, before);
    var d1 := Starts(d, before);
    StartsAppend(d, before, after);
    StartsAreGood(d1, after);
    if d1.manifest.Some? {
      PublishedVerifies(d1);
      StampedMaterializes(d1, d1.seed);
    }
  }

  /** With its secret, a start that lives to the end completes exactly what has not been stopped. */
  lemma OwnStartCompletes(d: Disk, seal: int -> nat)
    requires Good(d) && Injective(d.h)
    ensures Run(d, StartEffects(d, seal, Some(OwnSecret(d)))).phase == Completed <==> !Stopped(d)
  {
    if Terminal(d.phase) {
      C.Run1(Apply, d, DropStaging);
    } else {
      OwnFinishIsGood(d, seal);
    }
  }

  /** Progress: wherever earlier processes died, one that has the secret and lives long enough
      completes the operation, if and only if no earlier start failed or parked it. */
  lemma ResumeCompletes(d: Disk, before: seq<Start>, seal: int -> nat)
    requires Good(d) && d.phase == SnapshotReady && Injective(d.h)
    ensures var d1 := Starts(d, before);
            var d2 := Run(d1, StartEffects(d1, seal, Some(OwnSecret(d))));
            && (d2.phase == Completed <==> !SomeFails(d, before) && !SomeParks(d, before))
            && (d2.phase == Completed ==> d2.recorded && !d2.staged && d2.manifest.Some?)
  {
    StartsAreGood(d, before);
    OwnStartCompletes(Starts(d, before), seal);
    StartIsGood(Starts(d, before), seal, Some(OwnSecret(d)));
    RunIsGood(Starts(d, before), StartEffects(Starts(d, before), seal, Some(OwnSecret(d))));
    StartsStop(d, before);
  }

  /** An operation that cannot be finished as it stands fails, whatever state its disk is in: when
      its frozen files are gone, when one of them fails its checks, when what was published does not
      verify, and when it was never frozen. */
  lemma BrokenOperationsFail(d: Disk, seal: int -> nat)
    ensures d.phase in {SnapshotReady, StoringObjects} && (!d.staged || !StoreMembers(Apply(d, Enter(StoringObjects)), d.seed, seal).ok) ==>
              Run(d, FinishEffects(d, seal, OwnSecret(d))).phase == Phase.Failed
    ensures d.phase == Verifying && !Verifies(d, d.key) ==> Run(d, FinishEffects(d, seal, OwnSecret(d))).phase == Phase.Failed
    ensures d.phase in {Preparing, Snapshotting} ==>
              forall secret :: var d' := Run(d, StartEffects(d, seal, secret)); d'.phase == Phase.Failed && !d'.staged
  {
    var failed := Enter(Phase.Failed);
    if d.phase in {SnapshotReady, StoringObjects} {
      var enter := Enter(StoringObjects);
      var d1 := Apply(d, enter);
      C.RunAppend(Apply, d, [enter], StoreEffects(d1, seal, d.key));
      C.Run1(Apply, d, enter);
      if d.staged {
        var puts := StoreMembers(d1, d1.seed, seal).effects;
        C.RunAppend(Apply, d1, puts, [failed]);
        C.Run1(Apply, Run(d1, puts), failed);
      } else {
        C.Run1(Apply, d1, failed);
      }
    } else if d.phase == Verifying {
      C.Run1(Apply, d, failed);
    } else {
      assert [failed, DropStaging] == [failed] + [DropStaging];
      C.RunAppend(Apply, d, [failed], [DropStaging]);
      C.Run1(Apply, d, failed);
      C.Run1(Apply, Apply(d, failed), DropStaging);
    }
  }

  // ---- the process, as it runs ----------------------------------------------------------

  /** Part way through the member loop: from d1, with n1 effects left to live, the loop over ms
      would still bring the process to where the whole loop brings it, and done is what it has
      recorded. */
  ghost predicate Ahead(d: Disk, n: nat, whole: Progress, d1: Disk, n1: nat, ms: seq<Member>, seal: int -> nat, done: seq<Member>) {
    var rest := StoreMembers(d1, ms, seal);
    && C.Live(Apply, d, whole.effects, n) == C.Live(Apply, d1, rest.effects, n1)
    && Monus(n, |whole.effects|) == Monus(n1, |rest.effects|)
    && (n1 > 0 ==> whole.ok == rest.ok && whole.records == done + rest.records)
  }

  lemma AheadStarts(d: Disk, n: nat, seal: int -> nat)
    ensures Ahead(d, n, StoreMembers(d, d.seed, seal), d, n, d.seed[0..], seal, [])
  {
    assert d.seed[0..] == d.seed;
  }

  /** The process after it has stored one more member. */
  function AfterMember(d: Disk, n: nat, m: Member, sealedSize: nat): Disk {
    C.Live(Apply, d, StoreMember(d, m, sealedSize).effects, n)
  }

  lemma AheadStep(d: Disk, n: nat, whole: Progress, d1: Disk, n1: nat, ms: seq<Member>, seal: int -> nat, done: seq<Member>)
    requires ms != [] && Ahead(d, n, whole, d1, n1, ms, seal, done)
    requires StoreMember(d1, ms[0], seal(ms[0].sha)).ok
    ensures var s := StoreMember(d1, ms[0], seal(ms[0].sha));
            Ahead(d, n, whole, AfterMember(d1, n1, ms[0], seal(ms[0].sha)), Monus(n1, 1), ms[1..], seal, done + s.records)
  {
    var s := StoreMember(d1, ms[0], seal(ms[0].sha));
    var d2 := AfterMember(d1, n1, ms[0], seal(ms[0].sha));
    var rest := StoreMembers(Run(d1, s.effects), ms[1..], seal);
    C.LiveAppend(Apply, d1, s.effects, rest.effects, n1);
    C.LiveAll(Apply, d1, s.effects, n1);
    if n1 == 0 {
      C.DeadStays(Apply, d2, rest.effects);
      C.DeadStays(Apply, d2, StoreMembers(d2, ms[1..], seal).effects);
    }
    assert (done + s.records) + rest.records == done + (s.records + rest.records);
  }

  /** The loop ends when no members are left, or at one that fails its checks. */
  lemma AheadEnds(d: Disk, n: nat, whole: Progress, d1: Disk, n1: nat, ms: seq<Member>, seal: int -> nat, done: seq<Member>)
    requires Ahead(d, n, whole, d1, n1, ms, seal, done)
    requires ms == [] || !StoreMember(d1, ms[0], seal(ms[0].sha)).ok
    ensures d1 == C.Live(Apply, d, whole.effects, n) && n1 == Monus(n, |whole.effects|)
    ensures n1 > 0 ==> whole.ok == (ms == []) && whole.records == done
  {
    C.LiveAll(Apply, d1, [], n1);
  }

  /** What a process that lives for n more effects leaves after its member loop s. */
  function AfterLoop(d: Disk, s: Progress, n: nat): Disk {
    var d2 := C.Live(Apply, d, s.effects, n);
    if n > |s.effects| then C.Live(Apply, d2, PublishEffects(d2, s.records, s.ok), n - |s.effects|) else d2
  }

  lemma LoopThenPublish(d: Disk, s: Progress, n: nat)
    ensures C.Live(Apply, d, s.effects + PublishEffects(Run(d, s.effects), s.records, s.ok), n) == AfterLoop(d, s, n)
  {
    C.LiveThen(Apply, d, s.effects, PublishEffects(Run(d, s.effects), s.records, s.ok), n);
  }

  class BackupWorkflow {
    var disk: Disk
    var life: nat

    method Do(e: Effect)
      modifies this
      ensures disk == (if old(life) > 0 then Apply(old(disk), e) else old(disk)) && life == Monus(old(life), 1)
    {
      if life > 0 {
        life := life - 1;
        disk := Apply(disk, e);
      }
    }

    /** One round of the member loop: the checks, the put, and the record of it. */
    method StoreOne(m: Member, sealedSize: nat) returns (records: seq<Member>, ok: bool)
      modifies this
      ensures var s := StoreMember(old(disk), m, sealedSize);
              && records == s.records && ok == s.ok
              && disk == AfterMember(old(disk), old(life), m, sealedSize)
              && life == if ok then Monus(old(life), 1) else old(life)
    {
      ghost var s := StoreMember(disk, m, sealedSize);
      C.LiveAll(Apply, disk, [], life);
      if m.objectId.None? || !disk.staged || m.objectId.value !in disk.files {
        return [], false;
      }
      var bytes := disk.files[m.objectId.value];
      if |bytes| != m.size || disk.h(bytes) != m.sha {
        return [], false;
      }
      var outcome := PutOutcome(disk.h, disk.objects, m.sha, |bytes|, [bytes], sealedSize);
      if !outcome.Stored? {
        return [], false;
      }
      C.LiveStep(Apply, disk, s.effects, life);
      Do(Put(m.sha, bytes, sealedSize));
      return [m.(objectId := Some(m.sha), stored := Some(outcome.size))], true;
    }

    /** The member loop of _finish_operation. */
    method StoreObjects(seal: int -> nat) returns (records: seq<Member>, ok: bool)
      modifies this
      ensures var s := StoreMembers(old(disk), old(disk).seed, seal);
              && disk == C.Live(Apply, old(disk), s.effects, old(life)) && life == Monus(old(life), |s.effects|)
              && (life > 0 ==> ok == s.ok && records == s.records)
    {
      var members := disk.seed;
      var i := 0;
      ghost var d, n, all := disk, life, StoreMembers(disk, members, seal);
      AheadStarts(d, n, seal);
      records, ok := [], true;
      while i < |members|
        invariant 0 <= i <= |members|
        invariant Ahead(d, n, all, disk, life, members[i..], seal, records)
      {
        assert members[i..][0] == members[i] && members[i..][1..] == members[i + 1..];
        ghost var d1, n1 := disk, life;
        var stored;
        stored, ok := StoreOne(members[i], seal(members[i].sha));
        if !ok {
          AheadEnds(d, n, all, d1, n1, members[i..], seal, records);
          C.LiveAll(Apply, d1, [], n1);
          return;
        }
        AheadStep(d, n, all, d1, n1, members[i..], seal, records);
        records := records + stored;
        i := i + 1;
      }
      AheadEnds(d, n, all, disk, life, members[i..], seal, records);
      ok := true;
    }

    /** The member loop of _verify_snapshot_manifest. */
    method VerifyManifest(key: int) returns (ok: bool)
      ensures ok <==> Verifies(disk, key)
    {
      if disk.manifest.None? || !Readable(disk.mh, disk.manifest.value) || key != disk.key {
        return false;
      }
      var members := disk.manifest.value.members;
      var i := 0;
      while i < |members|
        invariant 0 <= i <= |members|
        invariant forall m :: m in members[..i] ==>
          m.objectId.Some? && Open(disk.h, key, disk.objects, m.objectId.value).Some?
          && disk.objects[m.objectId.value].header == Header(m.sha, m.size)
      {
        var m := members[i];
        assert m in members && members[..i + 1] == members[..i] + [m];
        if m.objectId.None? || Open(disk.h, key, disk.objects, m.objectId.value).None? {
          return false;
        }
        var header := disk.objects[m.objectId.value].header;
        if header.contentHash != m.sha || header.originalSize != m.size {
          return false;
        }
        i := i + 1;
      }
      assert members[..|members|] == members;
      return true;
    }

    method VerifyAndComplete(key: int)
      modifies this
      ensures disk == C.Live(Apply, old(disk), CompleteEffects(old(disk), key), old(life))
    {
      ghost var d, es := disk, CompleteEffects(disk, key);
      C.LiveStep(Apply, d, es, life);
      var verified := VerifyManifest(key);
      if !verified {
        Do(Enter(Phase.Failed));
        return;
      }
      assert es[1..] == [DropStaging, Enter(Completed)];
      Do(Record);
      C.LiveStep(Apply, disk, es[1..], life);
      Do(DropStaging);
      assert es[1..][1..] == [Enter(Completed)];
      C.LiveStep(Apply, disk, [Enter(Completed)], life);
      Do(Enter(Completed));
      C.DeadStays(Apply, d, es);
    }

    /** Publication of the manifest, or the failure of the member loop. */
    method PublishManifest(records: seq<Member>, ok: bool)
      modifies this
      ensures disk == C.Live(Apply, old(disk), PublishEffects(old(disk), records, ok), old(life))
    {
      ghost var d, n, es := disk, life, PublishEffects(disk, records, ok);
      C.LiveStep(Apply, d, es, n);
      if !ok {
        Do(Enter(Phase.Failed));
        return;
      }
      var manifest := Finalize(disk.mh, records);
      ghost var publish := [Publish(manifest), Enter(Verifying)];
      ghost var rest := CompleteEffects(Run(d, publish), d.key);
      C.LiveAppend(Apply, d, publish, rest, n);
      C.LiveStep(Apply, d, publish, n);
      assert publish[1..] == [Enter(Verifying)];
      C.LiveStep(Apply, Apply(d, publish[0]), [Enter(Verifying)], Monus(n, 1));
      Do(Publish(manifest));
      Do(Enter(Verifying));
      C.LiveAll(Apply, d, publish, n);
      C.DeadStays(Apply, disk, CompleteEffects(disk, disk.key));
      C.DeadStays(Apply, disk, rest);
      VerifyAndComplete(disk.key);
    }

    /** The part of _finish_operation from the frozen members on. */
    method StoreAndPublish(seal: int -> nat, key: int)
      modifies this
      ensures disk == C.Live(Apply, old(disk), StoreEffects(old(disk), seal, key), old(life))
    {
      ghost var d, n, es := disk, life, StoreEffects(disk, seal, key);
      C.LiveStep(Apply, d, es, n);
      if !disk.staged {
        Do(Enter(Phase.Failed));
        return;
      }
      if key != disk.key {
        Do(Enter(Phase.RecoveryRequired));
        return;
      }
      LoopThenPublish(d, StoreMembers(d, d.seed, seal), n);
      var records, ok := StoreObjects(seal);
      C.DeadStays(Apply, disk, PublishEffects(disk, records, ok));
      PublishManifest(records, ok);
    }

    method FinishOperation(seal: int -> nat, secret: Secret)
      modifies this
      ensures disk == C.Live(Apply, old(disk), FinishEffects(old(disk), seal, secret), old(life))
    {
      if secret.id != disk.keyId {
        Park();
        return;
      }
      if disk.phase == Verifying {
        VerifyAndComplete(secret.key);
        return;
      }
      if disk.phase !in {SnapshotReady, StoringObjects} {
        Park();
        return;
      }
      ghost var d, n := disk, life;
      ghost var enter, rest := Enter(StoringObjects), StoreEffects(Apply(disk, Enter(StoringObjects)), seal, secret.key);
      C.LiveAppend(Apply, d, [enter], rest, n);
      C.LiveStep(Apply, d, [enter], n);
      Do(Enter(StoringObjects));
      C.DeadStays(Apply, disk, rest);
      C.DeadStays(Apply, disk, StoreEffects(disk, seal, secret.key));
      StoreAndPublish(seal, secret.key);
    }

    /** The handler for a conflict or a changed key: an operation that has not ended is parked. */
    method Park()
      modifies this
      ensures disk == C.Live(Apply, old(disk), ParkEffects(old(disk)), old(life))
    {
      C.LiveAll(Apply, disk, [], life);
      if disk.phase != Completed && disk.phase != Phase.Failed && disk.phase != Phase.RecoveryRequired {
        C.LiveStep(Apply, disk, [Enter(Phase.RecoveryRequired)], life);
        Do(Enter(Phase.RecoveryRequired));
      }
    }

    /** reconcile_startup, with the completion of what it finds pending. */
    method ReconcileStartup(seal: int -> nat, secret: Option<Secret>)
      modifies this
      ensures disk == C.Live(Apply, old(disk), StartEffects(old(disk), seal, secret), old(life))
    {
      if Terminal(disk.phase) {
        C.LiveStep(Apply, disk, [DropStaging], life);
        Do(DropStaging);
        return;
      }
      if disk.phase == Preparing || disk.phase == Snapshotting || secret.None? {
        ghost var es := [Enter(Phase.Failed), DropStaging];
        assert es[1..] == [DropStaging];
        C.LiveStep(Apply, disk, es, life);
        Do(Enter(Phase.Failed));
        C.LiveStep(Apply, disk, es[1..], life);
        Do(DropStaging);
        return;
      }
      FinishOperation(seal, secret.value);
    }
  }
}
