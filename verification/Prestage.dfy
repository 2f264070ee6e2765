/** Copying the home before the freeze and again inside it (backup/service.py: _prestage_sources,
    _stage_consistent_sources). */
module Prestage {
  import opened Wrappers
  import opened ObjectStore

  /** stamp stands for device, inode and times; snapshot is what an SQLite backup of the file
      gives, and None when the file is not a database. */
  datatype File = File(bytes: Bytes, stamp: nat, wal: Option<Wal>, snapshot: Option<Bytes>)
  datatype Wal = Wal(size: nat, stamp: nat)

  datatype Entry = Entry(source: nat, path: nat, durability: nat)

  /** The home inside the freeze. */
  type Home = map<nat, File>

  /** Paths that are SQLite by name, and the test of a file's first bytes. */
  datatype Kinds = Kinds(required: set<nat>, header: Bytes -> bool)

  predicate IsSqlite(kinds: Kinds, home: Home, e: Entry) {
    e.path in kinds.required || (e.source in home && kinds.header(home[e.source].bytes))
  }

  datatype Fingerprint = Fingerprint(size: nat, stamp: nat, wal: Option<Wal>)

  function FingerprintOf(f: File, sqlite: bool): Fingerprint {
    Fingerprint(|f.bytes|, f.stamp, if sqlite then f.wal else None)
  }

  /** Two fingerprints of a file agree exactly if size and times do, and of a database also its log. */
  lemma FingerprintsSee(f: File, g: File)
    ensures FingerprintOf(f, false) == FingerprintOf(g, false) <==> |f.bytes| == |g.bytes| && f.stamp == g.stamp
    ensures FingerprintOf(f, true) == FingerprintOf(g, true) <==> |f.bytes| == |g.bytes| && f.stamp == g.stamp && f.wal == g.wal
  {
  }

  predicate WalIsEmpty(f: File) {
    f.wal.None? || f.wal.value.size == 0
  }

  function Copied(f: File, sqlite: bool, frozen: bool): Option<Bytes> {
    if sqlite && !(frozen && WalIsEmpty(f)) then f.snapshot else Some(f.bytes)
  }

  datatype Cached = Cached(source: nat, durability: nat, sqlite: bool, fingerprint: Fingerprint, size: nat, digest: int)
  type Cache = map<nat, Cached>

  /** The staging directory's files, under the hash of their bytes. */
  type Files = map<int, Bytes>

  function Keep(h: Hash, files: Files, bytes: Bytes): Files {
    if h(bytes) in files then files else files[h(bytes) := bytes]
  }

  predicate Hashed(h: Hash, files: Files) {
    forall d :: d in files ==> h(files[d]) == d
  }

  // ---- before the freeze --------------------------------------------------------------

  /** What copying one live file saw: its kind, the fingerprints around the copy (None once the
      file is missing), and the bytes that were copied, which may mix several versions. */
  datatype Seen = Seen(sqlite: bool, before: Option<Fingerprint>, bytes: Bytes, after: Option<Fingerprint>)

  predicate Reusable(s: Seen) {
    s.before.Some? && s.before == s.after && |s.bytes| == s.after.value.size
  }

  datatype Prestaged = Prestaged(cache: Cache, files: Files)

  function PrestageOne(h: Hash, p: Prestaged, e: Entry, s: Seen): Prestaged {
    if !Reusable(s) then p
    else Prestaged(
      p.cache[e.path := Cached(e.source, e.durability, s.sqlite, s.after.value, |s.bytes|, h(s.bytes))],
      Keep(h, p.files, s.bytes))
  }

  /** All entries, oldest first; None for a path that is already staged. */
  function PrestageAll(h: Hash, es: seq<Entry>, seen: seq<Seen>): Option<Prestaged>
    requires |es| == |seen|
  {
    if es == [] then Some(Prestaged(map[], map[]))
    else
      var n := |es| - 1;
      var p := PrestageAll(h, es[..n], seen[..n]);
      if p.None? || es[n].path in p.value.cache then None
      else Some(PrestageOne(h, p.value, es[n], seen[n]))
  }

  /** Equal fingerprints mean equal contents: if the fingerprint around a copy is the file's
      fingerprint inside the freeze, the copy is what copying it the same way would give now. */
  predicate Trustworthy(home: Home, e: Entry, s: Seen) {
    e.source in home && Reusable(s) && s.after.value == FingerprintOf(home[e.source], s.sqlite) ==>
      Some(s.bytes) == if s.sqlite then home[e.source].snapshot else Some(home[e.source].bytes)
  }

  // ---- inside the freeze ----------------------------------------------------------------

  /** A member as staged: its record, and whether it is listed as an SQLite member. */
  datatype Staged = Staged(member: Member, durability: nat, sqlite: bool)

  datatype Stage = Stage(members: seq<Staged>, total: nat, files: Files)

  predicate Matches(cache: Cache, e: Entry) {
    e.path in cache && cache[e.path].source == e.source && cache[e.path].durability == e.durability
  }

  /** The code takes the kind from a matching cache entry even when it then copies afresh. */
  predicate KindUsed(kinds: Kinds, home: Home, cache: Cache, e: Entry) {
    if Matches(cache, e) then cache[e.path].sqlite else IsSqlite(kinds, home, e)
  }

  predicate Reuses(home: Home, cache: Cache, e: Entry) {
    Matches(cache, e) && e.source in home && FingerprintOf(home[e.source], cache[e.path].sqlite) == cache[e.path].fingerprint
  }

  function StagedAs(e: Entry, sqlite: bool, size: nat, digest: int): Staged {
    Staged(Member(e.path, size, digest, Some(digest), None), e.durability, sqlite)
  }

  function StageOne(h: Hash, kinds: Kinds, home: Home, cache: Cache, frozen: bool, s: Stage, e: Entry): Option<Stage> {
    if e.source !in home then None
    else
      var sqlite := KindUsed(kinds, home, cache, e);
      if Reuses(home, cache, e) then
        var c := cache[e.path];
        if c.digest !in s.files then None
        else Some(Stage(s.members + [StagedAs(e, sqlite, c.size, c.digest)], s.total + c.size, s.files))
      else
        var copy := Copied(home[e.source], sqlite, frozen);
        if copy.None? then None
        else Some(Stage(s.members + [StagedAs(e, sqlite, |copy.value|, h(copy.value))], s.total + |copy.value|,
                        Keep(h, s.files, copy.value)))
  }

  predicate HasPath(es: seq<Entry>, path: nat) {
    exists e :: e in es && e.path == path
  }

  function StageAll(h: Hash, kinds: Kinds, home: Home, p: Prestaged, frozen: bool, es: seq<Entry>): Option<Stage> {
    if es == [] then Some(Stage([], 0, p.files))
    else
      var n := |es| - 1;
      var s := StageAll(h, kinds, home, p, frozen, es[..n]);
      if s.None? || HasPath(es[..n], es[n].path) then None
      else StageOne(h, kinds, home, p.cache, frozen, s.value, es[n])
  }

  /** The same members with the same bytes; the store may hold more, left by prestaging. */
  predicate SameSnapshot(a: Stage, b: Stage) {
    && a.members == b.members && a.total == b.total
    && forall m :: m in b.members ==>
         m.member.sha in a.files && m.member.sha in b.files && a.files[m.member.sha] == b.files[m.member.sha]
  }

  // ---- when prestaging changes nothing --------------------------------------------------

  /** Where a cache entry and a fresh look lead to the same member: the file's kind has not
      changed since, and a reused SQLite copy is one that a raw copy equals where that is what
      a fresh look would take. */
  predicate Harmless(kinds: Kinds, home: Home, cache: Cache, frozen: bool, e: Entry) {
    Matches(cache, e) && e.source in home ==>
      && cache[e.path].sqlite == IsSqlite(kinds, home, e)
      && (Reuses(home, cache, e) && cache[e.path].sqlite && frozen && WalIsEmpty(home[e.source]) ==>
            home[e.source].snapshot == Some(home[e.source].bytes))
  }

  /** What prestaging leaves behind. */
  ghost predicate GoodCache(h: Hash, home: Home, p: Prestaged) {
    && Hashed(h, p.files)
    && forall path :: path in p.cache ==> GoodEntry(h, home, p, path)
  }

  predicate GoodEntry(h: Hash, home: Home, p: Prestaged, path: nat)
    requires path in p.cache
  {
    var c := p.cache[path];
    && c.digest in p.files && c.size == |p.files[c.digest]|
    && (c.source in home && FingerprintOf(home[c.source], c.sqlite) == c.fingerprint ==>
          Some(p.files[c.digest]) == if c.sqlite then home[c.source].snapshot else Some(home[c.source].bytes))
  }

  lemma {:induction false} PrestagingIsGood(h: Hash, home: Home, es: seq<Entry>, seen: seq<Seen>)
    requires Injective(h) && |es| == |seen| && PrestageAll(h, es, seen).Some?
    requires forall i :: 0 <= i < |es| ==> Trustworthy(home, es[i], seen[i])
    ensures GoodCache(h, home, PrestageAll(h, es, seen).value)
  {
    if es != [] {
      var n := |es| - 1;
      PrestagingIsGood(h, home, es[..n], seen[..n]);
      var p, p' := PrestageAll(h, es[..n], seen[..n]).value, PrestageAll(h, es, seen).value;
      forall path | path in p'.cache ensures GoodEntry(h, home, p', path) {
        if path in p.cache {
          assert GoodEntry(h, home, p, path);
        }
      }
    }
  }

  /** The bytes a member stands for: the cached copy's, or those of a fresh copy. */
  function Taken(kinds: Kinds, home: Home, p: Prestaged, frozen: bool, e: Entry): Option<Bytes>
    requires e.source in home
  {
    if Reuses(home, p.cache, e) then Lookup(p.files, p.cache[e.path].digest)
    else Copied(home[e.source], KindUsed(kinds, home, p.cache, e), frozen)
  }

  function Add(h: Hash, s: Stage, e: Entry, sqlite: bool, bytes: Bytes): Stage {
    Stage(s.members + [StagedAs(e, sqlite, |bytes|, h(bytes))], s.total + |bytes|, Keep(h, s.files, bytes))
  }

  predicate Extends(files: Files, part: Files) {
    forall d :: d in part ==> d in files && files[d] == part[d]
  }

  lemma StagingAdds(h: Hash, kinds: Kinds, home: Home, p: Prestaged, frozen: bool, s: Stage, e: Entry)
    requires GoodCache(h, home, p) && e.source in home && Extends(s.files, p.files)
    ensures var bytes := Taken(kinds, home, p, frozen, e);
            StageOne(h, kinds, home, p.cache, frozen, s, e)
              == if bytes.None? then None else Some(Add(h, s, e, KindUsed(kinds, home, p.cache, e), bytes.value))
  {
    if Reuses(home, p.cache, e) {
      assert GoodEntry(h, home, p, e.path);
    }
  }

  lemma HarmlessMeansSame(h: Hash, kinds: Kinds, home: Home, p: Prestaged, frozen: bool, e: Entry)
    requires GoodCache(h, home, p) && e.source in home
    ensures var anew := Copied(home[e.source], IsSqlite(kinds, home, e), frozen);
            anew.Some? ==>
              (Harmless(kinds, home, p.cache, frozen, e) <==>
                Taken(kinds, home, p, frozen, e) == anew && KindUsed(kinds, home, p.cache, e) == IsSqlite(kinds, home, e))
  {
    if Reuses(home, p.cache, e) {
      assert GoodEntry(h, home, p, e.path);
    }
  }

  lemma AddingTheSame(h: Hash, a: Stage, b: Stage, e: Entry, x: bool, y: bool, xs: Bytes, ys: Bytes)
    requires Injective(h) && SameSnapshot(a, b) && Hashed(h, a.files) && Hashed(h, b.files)
    ensures var a', b' := Add(h, a, e, x, xs), Add(h, b, e, y, ys);
            && Hashed(h, a'.files) && Hashed(h, b'.files)
            && (a'.members == b'.members <==> x == y && xs == ys)
            && (x == y && xs == ys ==> SameSnapshot(a', b'))
  {
    var a', b' := Add(h, a, e, x, xs), Add(h, b, e, y, ys);
    var n := |a.members|;
    assert a'.members[n] == StagedAs(e, x, |xs|, h(xs)) && b'.members[n] == StagedAs(e, y, |ys|, h(ys));
    assert h(a'.files[h(xs)]) == h(xs) && h(b'.files[h(ys)]) == h(ys);
  }

  /** One entry: from matching snapshots, cached and fresh staging lead to matching snapshots
      exactly when the cache entry is harmless. */
  lemma OneEntry(h: Hash, kinds: Kinds, home: Home, p: Prestaged, frozen: bool, a: Stage, b: Stage, e: Entry)
    requires Injective(h) && GoodCache(h, home, p) && SameSnapshot(a, b) && Hashed(h, a.files) && Hashed(h, b.files)
    requires Extends(a.files, p.files)
    requires StageOne(h, kinds, home, map[], frozen, b, e).Some?
    ensures var a', b' := StageOne(h, kinds, home, p.cache, frozen, a, e), StageOne(h, kinds, home, map[], frozen, b, e).value;
            && ((a'.Some? && a'.value.members == b'.members) <==> Harmless(kinds, home, p.cache, frozen, e))
            && (Harmless(kinds, home, p.cache, frozen, e) ==> SameSnapshot(a'.value, b'))
            && (a'.Some? ==> Hashed(h, a'.value.files) && Extends(a'.value.files, p.files)) && Hashed(h, b'.files)
  {
    StagingAdds(h, kinds, home, p, frozen, a, e);
    HarmlessMeansSame(h, kinds, home, p, frozen, e);
    var taken, copy := Taken(kinds, home, p, frozen, e), Copied(home[e.source], IsSqlite(kinds, home, e), frozen);
    if taken.Some? {
      AddingTheSame(h, a, b, e, KindUsed(kinds, home, p.cache, e), IsSqlite(kinds, home, e), taken.value, copy.value);
    } else {
      AddingTheSame(h, a, b, e, true, true, copy.value, copy.value);
    }
  }

  ghost predicate AllHarmless(kinds: Kinds, home: Home, cache: Cache, frozen: bool, es: seq<Entry>) {
    forall e :: e in es ==> Harmless(kinds, home, cache, frozen, e)
  }

  /** A staging run that a fresh one can be compared with. */
  ghost predicate Tracks(h: Hash, p: Prestaged, a: Option<Stage>, b: Stage, harmless: bool) {
    && (harmless ==> a.Some? && SameSnapshot(a.value, b))
    && (a.Some? && a.value.members == b.members ==> harmless)
    && (a.Some? ==> Hashed(h, a.value.files) && Extends(a.value.files, p.files) && |a.value.members| == |b.members|)
    && Hashed(h, b.files)
  }

  lemma StagedMore(h: Hash, kinds: Kinds, home: Home, p: Prestaged, frozen: bool, s: Stage, e: Entry)
    requires GoodCache(h, home, p) && Extends(s.files, p.files) && Hashed(h, s.files)
    ensures var s' := StageOne(h, kinds, home, p.cache, frozen, s, e);
            s'.Some? ==> |s'.value.members| == |s.members| + 1 && s'.value.members[..|s.members|] == s.members
                         && Hashed(h, s'.value.files) && Extends(s'.value.files, p.files)
  {
  }

  lemma TrackStep(h: Hash, kinds: Kinds, home: Home, p: Prestaged, frozen: bool, a: Option<Stage>, b: Stage, harmless: bool, e: Entry)
    requires Injective(h) && GoodCache(h, home, p) && Tracks(h, p, a, b, harmless)
    requires StageOne(h, kinds, home, map[], frozen, b, e).Some?
    ensures var a' := if a.None? then None else StageOne(h, kinds, home, p.cache, frozen, a.value, e);
            Tracks(h, p, a', StageOne(h, kinds, home, map[], frozen, b, e).value,
                   harmless && Harmless(kinds, home, p.cache, frozen, e))
  {
    var none := Prestaged(map[], b.files);
    assert GoodCache(h, home, none);
    StagedMore(h, kinds, home, none, frozen, b, e);
    var b' := StageOne(h, kinds, home, map[], frozen, b, e).value;
    if harmless {
      OneEntry(h, kinds, home, p, frozen, a.value, b, e);
    }
    if a.Some? {
      StagedMore(h, kinds, home, p, frozen, a.value, e);
      var a' := StageOne(h, kinds, home, p.cache, frozen, a.value, e);
      if a'.Some? && a'.value.members == b'.members {
        assert a.value.members == a'.value.members[..|a.value.members|] == b'.members[..|b.members|] == b.members;
      }
    }
  }

  lemma {:induction false} StagingTracks(h: Hash, kinds: Kinds, home: Home, p: Prestaged, frozen: bool, es: seq<Entry>)
    requires Injective(h) && GoodCache(h, home, p)
    requires StageAll(h, kinds, home, Prestaged(map[], map[]), frozen, es).Some?
    ensures Tracks(h, p, StageAll(h, kinds, home, p, frozen, es),
                   StageAll(h, kinds, home, Prestaged(map[], map[]), frozen, es).value,
                   AllHarmless(kinds, home, p.cache, frozen, es))
  {
    if es != [] {
      var n := |es| - 1;
      var none := Prestaged(map[], map[]);
      StagingTracks(h, kinds, home, p, frozen, es[..n]);
      var a, b := StageAll(h, kinds, home, p, frozen, es[..n]), StageAll(h, kinds, home, none, frozen, es[..n]).value;
      var harmless := AllHarmless(kinds, home, p.cache, frozen, es[..n]);
      TrackStep(h, kinds, home, p, frozen, a, b, harmless, es[n]);
      AllHarmlessSnoc(kinds, home, p.cache, frozen, es);
    }
  }

  lemma AllHarmlessSnoc(kinds: Kinds, home: Home, cache: Cache, frozen: bool, es: seq<Entry>)
    requires es != []
    ensures AllHarmless(kinds, home, cache, frozen, es)
        <==> AllHarmless(kinds, home, cache, frozen, es[..|es| - 1]) && Harmless(kinds, home, cache, frozen, es[|es| - 1])
  {
    assert es == es[..|es| - 1] + [es[|es| - 1]];
  }

  /** Pre-staging refines frozen copying, exactly: after copying the live home while files come,
      go and change, a frozen staging that uses those copies yields the member list and bytes of
      one that copies everything, if and only if every entry it matches is harmless. */
  lemma PrestagingRefinesFrozenCopying(
      h: Hash, kinds: Kinds, home: Home, live: seq<Entry>, seen: seq<Seen>, frozen: bool, es: seq<Entry>)
    requires Injective(h) && |live| == |seen| && PrestageAll(h, live, seen).Some?
    requires forall i :: 0 <= i < |live| ==> Trustworthy(home, live[i], seen[i])
    requires StageAll(h, kinds, home, Prestaged(map[], map[]), frozen, es).Some?
    ensures var p := PrestageAll(h, live, seen).value;
            var a, b := StageAll(h, kinds, home, p, frozen, es), StageAll(h, kinds, home, Prestaged(map[], map[]), frozen, es).value;
            (a.Some? && SameSnapshot(a.value, b)) <==> AllHarmless(kinds, home, p.cache, frozen, es)
  {
    PrestagingIsGood(h, home, live, seen);
    StagingTracks(h, kinds, home, PrestageAll(h, live, seen).value, frozen, es);
  }

  lemma SingleEntry(h: Hash, kinds: Kinds, home: Home, p: Prestaged, frozen: bool, e: Entry)
    ensures StageAll(h, kinds, home, p, frozen, [e]) == StageOne(h, kinds, home, p.cache, frozen, Stage([], 0, p.files), e)
  {
    assert [e][..0] == [];
    assert StageAll(h, kinds, home, p, frozen, [e][..0]) == Some(Stage([], 0, p.files));
  }

  lemma SinglePrestaged(h: Hash, e: Entry, s: Seen)
    ensures PrestageAll(h, [e], [s]) == Some(PrestageOne(h, Prestaged(map[], map[]), e, s))
  {
    assert [e][..0] == [] && [s][..0] == [];
    assert PrestageAll(h, [e][..0], [s][..0]) == Some(Prestaged(map[], map[]));
  }

  // ---- what staging holds ------------------------------------------------------------------

  predicate DistinctEntries(es: seq<Entry>) {
    forall i, k :: 0 <= i < k < |es| ==> es[i].path != es[k].path
  }

  /** What the backup should hold for an entry: a file's bytes as they are, and of a database what
      a snapshot gives, unless it is frozen and its log is empty. */
  function Wanted(kinds: Kinds, home: Home, frozen: bool, e: Entry): Option<Bytes> {
    if e.source !in home then None
    else if !IsSqlite(kinds, home, e) || (frozen && (home[e.source].wal.None? || home[e.source].wal.value.size == 0))
    then Some(home[e.source].bytes)
    else home[e.source].snapshot
  }

  predicate HoldsWanted(h: Hash, kinds: Kinds, home: Home, frozen: bool, s: Stage, es: seq<Entry>, i: nat)
    requires i < |s.members| && i < |es| && Wanted(kinds, home, frozen, es[i]).Some?
  {
    var bytes, m := Wanted(kinds, home, frozen, es[i]).value, s.members[i].member;
    && m.path == es[i].path && m.size == |bytes| && m.sha == h(bytes) && m.objectId == Some(h(bytes)) && m.stored.None?
    && s.members[i].durability == es[i].durability && s.members[i].sqlite == IsSqlite(kinds, home, es[i])
    && h(bytes) in s.files && s.files[h(bytes)] == bytes
  }

  function TotalSize(members: seq<Staged>): nat {
    if members == [] then 0 else TotalSize(members[..|members| - 1]) + members[|members| - 1].member.size
  }

  lemma FreshStageOne(h: Hash, kinds: Kinds, home: Home, frozen: bool, s: Stage, e: Entry)
    ensures var bytes := Wanted(kinds, home, frozen, e);
            StageOne(h, kinds, home, map[], frozen, s, e)
              == if bytes.None? then None else Some(Add(h, s, e, IsSqlite(kinds, home, e), bytes.value))
  {
  }

  /** The stage holds what is wanted of each entry. */
  predicate HoldsAll(h: Hash, kinds: Kinds, home: Home, frozen: bool, s: Stage, es: seq<Entry>) {
    && |s.members| == |es| && Hashed(h, s.files) && s.total == TotalSize(s.members)
    && forall i :: 0 <= i < |es| ==> Wanted(kinds, home, frozen, es[i]).Some? && HoldsWanted(h, kinds, home, frozen, s, es, i)
  }

  lemma AddHolds(h: Hash, kinds: Kinds, home: Home, frozen: bool, s: Stage, es: seq<Entry>, e: Entry)
    requires Injective(h) && HoldsAll(h, kinds, home, frozen, s, es) && Wanted(kinds, home, frozen, e).Some?
    ensures HoldsAll(h, kinds, home, frozen, Add(h, s, e, IsSqlite(kinds, home, e), Wanted(kinds, home, frozen, e).value), es + [e])
  {
    var bytes, all := Wanted(kinds, home, frozen, e).value, es + [e];
    var s' := Add(h, s, e, IsSqlite(kinds, home, e), bytes);
    assert s'.members[..|es|] == s.members;
    assert h(s'.files[h(bytes)]) == h(bytes);
    forall i | 0 <= i < |all| ensures Wanted(kinds, home, frozen, all[i]).Some? && HoldsWanted(h, kinds, home, frozen, s', all, i) {
      if i < |es| {
        assert HoldsWanted(h, kinds, home, frozen, s, es, i);
      }
    }
  }

  /** No path is taken twice, and every entry can be had. */
  predicate CanStage(kinds: Kinds, home: Home, frozen: bool, es: seq<Entry>) {
    DistinctEntries(es) && forall e :: e in es ==> Wanted(kinds, home, frozen, e).Some?
  }

  lemma CanStageSnoc(kinds: Kinds, home: Home, frozen: bool, es: seq<Entry>, e: Entry)
    ensures CanStage(kinds, home, frozen, es + [e]) <==>
              CanStage(kinds, home, frozen, es) && !HasPath(es, e.path) && Wanted(kinds, home, frozen, e).Some?
  {
    DistinctSnoc(es + [e]);
    assert (es + [e])[..|es|] == es;
    assert forall x :: x in es + [e] <==> x in es || x == e;
  }

  lemma StageSnoc(h: Hash, kinds: Kinds, home: Home, p: Prestaged, frozen: bool, es: seq<Entry>, e: Entry)
    ensures var s := StageAll(h, kinds, home, p, frozen, es);
            StageAll(h, kinds, home, p, frozen, es + [e])
              == if s.None? || HasPath(es, e.path) then None else StageOne(h, kinds, home, p.cache, frozen, s.value, e)
  {
    assert (es + [e])[..|es|] == es;
  }

  /** Staging that copies everything succeeds exactly if no path is taken twice and every entry can be
      had; and then it lists every entry, in order, with the hash of what should be kept of it, and
      holds exactly that. With PrestagingRefinesFrozenCopying this is what staging with copies made
      before holds too, where those are harmless. */
  lemma {:induction false} StagingHoldsTheHome(h: Hash, kinds: Kinds, home: Home, frozen: bool, es: seq<Entry>)
    requires Injective(h)
    ensures var s := StageAll(h, kinds, home, Prestaged(map[], map[]), frozen, es);
            && (s.Some? <==> CanStage(kinds, home, frozen, es))
            && (s.Some? ==> HoldsAll(h, kinds, home, frozen, s.value, es))
    decreases |es|
  {
    if es != [] {
      var n := |es| - 1;
      var front, e := es[..n], es[n];
      StagingHoldsTheHome(h, kinds, home, frozen, front);
      assert es == front + [e];
      CanStageSnoc(kinds, home, frozen, front, e);
      StageSnoc(h, kinds, home, Prestaged(map[], map[]), frozen, front, e);
      var s := StageAll(h, kinds, home, Prestaged(map[], map[]), frozen, front);
      if s.Some? {
        FreshStageOne(h, kinds, home, frozen, s.value, e);
        if Wanted(kinds, home, frozen, e).Some? {
          AddHolds(h, kinds, home, frozen, s.value, front, e);
        }
      }
    }
  }

  lemma DistinctSnoc(es: seq<Entry>)
    requires es != []
    ensures DistinctEntries(es) <==> DistinctEntries(es[..|es| - 1]) && !HasPath(es[..|es| - 1], es[|es| - 1].path)
  {
    var n := |es| - 1;
    assert forall e :: e in es[..n] ==> exists i :: 0 <= i < n && es[i] == e;
    if DistinctEntries(es[..n]) && !HasPath(es[..n], es[n].path) {
      forall i, k | 0 <= i < k < |es| ensures es[i].path != es[k].path {
        assert es[i] in es[..n];
        if k < n {
          assert es[..n][i] == es[i] && es[..n][k] == es[k];
        }
      }
    }
  }

  /** Prestaging caches exactly the files that were copied whole, by their own paths, with what the
      copy saw; a cached copy of a file that has not changed since is used and nothing is copied. */
  lemma {:induction false} StableFilesAreCached(h: Hash, es: seq<Entry>, seen: seq<Seen>, i: nat)
    requires |es| == |seen| && DistinctEntries(es) && PrestageAll(h, es, seen).Some? && i < |es|
    ensures var p := PrestageAll(h, es, seen).value;
            && (es[i].path in p.cache <==> Reusable(seen[i]))
            && (Reusable(seen[i]) ==>
                  p.cache[es[i].path] == Cached(es[i].source, es[i].durability, seen[i].sqlite, seen[i].after.value, |seen[i].bytes|, h(seen[i].bytes))
                  && h(seen[i].bytes) in p.files)
            && (forall path :: path in p.cache ==> HasPath(es, path))
  {
    var n := |es| - 1;
    assert es == es[..n] + [es[n]];
    if n > 0 {
      StableFilesAreCached(h, es[..n], seen[..n], if i < n then i else 0);
    }
    assert forall path :: HasPath(es[..n], path) ==> HasPath(es, path);
    assert HasPath(es, es[n].path);
  }

  /** A copy may be used if the file was there before and after it, and looked the same, and the copy
      has its size. */
  lemma WholeCopiesAreReusable(s: Seen)
    ensures Reusable(s) <==> s.before.Some? && s.after == s.before && s.before.value.size == |s.bytes|
  {
  }

  predicate CachedBefore(es: seq<Entry>, seen: seq<Seen>, k: nat, path: nat)
    requires |es| == |seen| && k <= |es|
  {
    exists i :: 0 <= i < k && es[i].path == path && Reusable(seen[i])
  }

  /** Prestaging gives up exactly at a path that it has cached already. */
  lemma {:induction false} PrestagingRefusesDuplicates(h: Hash, es: seq<Entry>, seen: seq<Seen>)
    requires |es| == |seen|
    ensures var p := PrestageAll(h, es, seen);
            && (p.Some? <==> forall k :: 0 <= k < |es| ==> !CachedBefore(es, seen, k, es[k].path))
            && (p.Some? ==> forall path :: path in p.value.cache <==> CachedBefore(es, seen, |es|, path))
  {
    if es != [] {
      var n := |es| - 1;
      PrestagingRefusesDuplicates(h, es[..n], seen[..n]);
      forall k, path | 0 <= k <= n ensures CachedBefore(es[..n], seen[..n], k, path) <==> CachedBefore(es, seen, k, path) {
        if i :| 0 <= i < k && es[i].path == path && Reusable(seen[i]) {
          assert es[..n][i].path == path && Reusable(seen[..n][i]);
        }
        if i :| 0 <= i < k && es[..n][i].path == path && Reusable(seen[..n][i]) {
          assert es[i].path == path && Reusable(seen[i]);
        }
      }
      forall path ensures CachedBefore(es, seen, |es|, path) <==> CachedBefore(es, seen, n, path) || (es[n].path == path && Reusable(seen[n])) {
        if es[n].path == path && Reusable(seen[n]) {
          assert 0 <= n < |es| && es[n].path == path && Reusable(seen[n]);
        }
      }
    }
  }

  lemma UnchangedFilesAreNotCopied(h: Hash, kinds: Kinds, home: Home, cache: Cache, frozen: bool, s: Stage, e: Entry)
    requires e.source in home && e.path in cache && cache[e.path].source == e.source && cache[e.path].durability == e.durability
    requires FingerprintOf(home[e.source], cache[e.path].sqlite) == cache[e.path].fingerprint && cache[e.path].digest in s.files
    ensures var s' := StageOne(h, kinds, home, cache, frozen, s, e);
            && s'.Some? && s'.value.files == s.files && |s'.value.members| == |s.members| + 1
            && s'.value.members[|s.members|].member.sha == cache[e.path].digest
  {
  }

  /** Every file that was no database when it was prestaged, and has become one with something in
      its log by the freeze, is copied raw inside it. */
  lemma StaleKindLosesTheLog(h: Hash, kinds: Kinds, home: Home, e: Entry, s: Seen)
    requires Injective(h) && e.source in home && IsSqlite(kinds, home, e)
    requires Reusable(s) && !s.sqlite && s.after.value != FingerprintOf(home[e.source], false)
    requires var f := home[e.source]; !WalIsEmpty(f) && f.snapshot.Some? && f.snapshot.value != f.bytes
    ensures PrestageAll(h, [e], [s]).Some? && Trustworthy(home, e, s)
    ensures LosesTheLog(h, kinds, home, PrestageAll(h, [e], [s]).value, [e], home[e.source])
  {
    var f, none := home[e.source], Prestaged(map[], map[]);
    SinglePrestaged(h, e, s);
    var p := PrestageAll(h, [e], [s]).value;
    SingleEntry(h, kinds, home, p, true, e);
    SingleEntry(h, kinds, home, none, true, e);
    var raw, whole := StagedAs(e, false, |f.bytes|, h(f.bytes)), StagedAs(e, true, |f.snapshot.value|, h(f.snapshot.value));
    assert StageAll(h, kinds, home, p, true, [e]).value.members == [raw];
    assert StageAll(h, kinds, home, none, true, [e]).value.members == [whole];
    assert [raw][0] != [whole][0];
    assert e in [e] && !Harmless(kinds, home, p.cache, true, e);
  }

  lemma EmptyDatabase(h: Hash) returns (kinds: Kinds, home: Home, e: Entry, s: Seen)
    requires Injective(h)
    ensures e.source in home && IsSqlite(kinds, home, e) && s.bytes == [] && home[e.source].snapshot == Some([1, 2])
    ensures PrestageAll(h, [e], [s]).Some? && Trustworthy(home, e, s)
    ensures LosesTheLog(h, kinds, home, PrestageAll(h, [e], [s]).value, [e], home[e.source])
  {
    kinds := Kinds({}, (b: Bytes) => b != []);
    e := Entry(0, 0, 0);
    home := map[0 := File([1], 1, Some(Wal(1, 1)), Some([1, 2]))];
    s := Seen(false, Some(Fingerprint(0, 0, None)), [], Some(Fingerprint(0, 0, None)));
    assert IsSqlite(kinds, home, e) && Reusable(s);
    StaleKindLosesTheLog(h, kinds, home, e, s);
  }

  /** And there are such files: a database that is still empty when it is prestaged. */
  lemma NewDatabaseIsCopiedRaw(h: Hash)
    requires Injective(h)
    ensures exists kinds, home: Home, e: Entry, s: Seen ::
      && e.source in home && IsSqlite(kinds, home, e) && s.bytes == [] && home[e.source].snapshot == Some([1, 2])
      && PrestageAll(h, [e], [s]).Some? && Trustworthy(home, e, s)
      && LosesTheLog(h, kinds, home, PrestageAll(h, [e], [s]).value, [e], home[e.source])
  {
    var kinds, home, e, s := EmptyDatabase(h);
  }

  /** The one entry is staged as its raw bytes, although a fresh staging takes its snapshot, which
      is something else; so the two stagings differ. */
  ghost predicate LosesTheLog(h: Hash, kinds: Kinds, home: Home, p: Prestaged, live: seq<Entry>, f: File)
    requires |live| == 1
  {
    var a, b := StageAll(h, kinds, home, p, true, live), StageAll(h, kinds, home, Prestaged(map[], map[]), true, live);
    && a.Some? && b.Some? && !SameSnapshot(a.value, b.value) && !AllHarmless(kinds, home, p.cache, true, live)
    && f.snapshot.Some? && f.snapshot.value != f.bytes
    && a.value.members == [StagedAs(live[0], false, |f.bytes|, h(f.bytes))]
    && b.value.members == [StagedAs(live[0], true, |f.snapshot.value|, h(f.snapshot.value))]
  }

  function PathsOf(es: seq<Entry>): set<nat> {
    set e | e in es :: e.path
  }

  // ---- the loops ---------------------------------------------------------------------------

  class StagingDirectory {
    var files: Files
    const h: Hash

    constructor (h: Hash)
      ensures this.h == h && files == map[]
    {
      this.h := h;
      files := map[];
    }

    /** _prestage_sources. */
    method PrestageSources(live: seq<Entry>, seen: seq<Seen>) returns (ok: bool, cache: Cache)
      requires |live| == |seen| && files == map[]
      modifies this
      ensures ok <==> PrestageAll(h, live, seen).Some?
      ensures ok ==> Prestaged(cache, files) == PrestageAll(h, live, seen).value
    {
      ok, cache := true, map[];
      var i := 0;
      while i < |live|
        invariant 0 <= i <= |live|
        invariant PrestageAll(h, live[..i], seen[..i]) == Some(Prestaged(cache, files))
      {
        var e, s := live[i], seen[i];
        assert live[..i + 1][..i] == live[..i] && seen[..i + 1][..i] == seen[..i];
        if e.path in cache {
          StaysNone(h, live, seen, i + 1);
          return false, cache;
        }
        if s.before.Some? && s.after.Some? && s.before == s.after && |s.bytes| == s.after.value.size {
          if h(s.bytes) !in files {
            files := files[h(s.bytes) := s.bytes];
          }
          cache := cache[e.path := Cached(e.source, e.durability, s.sqlite, s.after.value, |s.bytes|, h(s.bytes))];
        }
        i := i + 1;
      }
      assert live[..|live|] == live && seen[..|seen|] == seen;
    }

    /** The inner function add of _stage_consistent_sources, past its duplicate check. */
    method AddMember(kinds: Kinds, home: Home, cache: Cache, frozen: bool, e: Entry, ghost s: Stage)
        returns (added: Option<Staged>)
      requires s.files == files
      modifies this
      ensures StageOne(h, kinds, home, cache, frozen, s, e)
                == if added.None? then None
                   else Some(Stage(s.members + [added.value], s.total + added.value.member.size, files))
    {
      if e.source !in home {
        return None;
      }
      var matches := Matches(cache, e);
      var sqlite := if matches then cache[e.path].sqlite else IsSqlite(kinds, home, e);
      if matches && FingerprintOf(home[e.source], sqlite) == cache[e.path].fingerprint {
        var c := cache[e.path];
        return if c.digest in files then Some(StagedAs(e, sqlite, c.size, c.digest)) else None;
      }
      var copy := Copied(home[e.source], sqlite, frozen);
      if copy.None? {
        return None;
      }
      var digest := h(copy.value);
      if digest !in files {
        files := files[digest := copy.value];
      }
      return Some(StagedAs(e, sqlite, |copy.value|, digest));
    }

    /** The inner function add. */
    method AddOnce(kinds: Kinds, home: Home, cache: Cache, frozen: bool, e: Entry, paths: set<nat>, ghost s: Stage)
        returns (added: Option<Staged>)
      requires s.files == files
      modifies this
      ensures (if e.path in paths then None else StageOne(h, kinds, home, cache, frozen, s, e))
                == if added.None? then None
                   else Some(Stage(s.members + [added.value], s.total + added.value.member.size, files))
    {
      if e.path in paths {
        return None;
      }
      added := AddMember(kinds, home, cache, frozen, e, s);
    }

    /** _stage_consistent_sources: on any failure the staging directory is removed. */
    method StageConsistentSources(kinds: Kinds, home: Home, cache: Cache, frozen: bool, es: seq<Entry>)
        returns (ok: bool, members: seq<Staged>, total: nat)
      modifies this
      ensures var s := StageAll(h, kinds, home, Prestaged(cache, old(files)), frozen, es);
              && ok == s.Some?
              && (ok ==> s.value == Stage(members, total, files))
              && (!ok ==> files == map[])
    {
      ghost var p := Prestaged(cache, files);
      ok, members, total := true, [], 0;
      var paths: set<nat> := {};
      var i := 0;
      while i < |es|
        invariant 0 <= i <= |es|
        invariant AsFar(h, kinds, home, p, frozen, es, i, paths, Stage(members, total, files))
      {
        ghost var s := Stage(members, total, files);
        var added := AddOnce(kinds, home, cache, frozen, es[i], paths, s);
        FurtherOrNone(h, kinds, home, p, frozen, es, i, paths, s);
        if added.None? {
          files := map[];
          return false, [], 0;
        }
        members, total, paths := members + [added.value], total + added.value.member.size, paths + {es[i].path};
        i := i + 1;
      }
      assert es[..|es|] == es;
    }
  }

  /** The loop has staged the first i entries. */
  ghost predicate AsFar(h: Hash, kinds: Kinds, home: Home, p: Prestaged, frozen: bool, es: seq<Entry>, i: nat, paths: set<nat>, s: Stage)
    requires i <= |es|
  {
    paths == PathsOf(es[..i]) && StageAll(h, kinds, home, p, frozen, es[..i]) == Some(s)
  }

  lemma FurtherOrNone(h: Hash, kinds: Kinds, home: Home, p: Prestaged, frozen: bool, es: seq<Entry>, i: nat, paths: set<nat>, s: Stage)
    requires i < |es| && AsFar(h, kinds, home, p, frozen, es, i, paths, s)
    ensures var next := if es[i].path in paths then None else StageOne(h, kinds, home, p.cache, frozen, s, es[i]);
            if next.Some? then AsFar(h, kinds, home, p, frozen, es, i + 1, paths + {es[i].path}, next.value)
            else StageAll(h, kinds, home, p, frozen, es).None?
  {
    StageNext(h, kinds, home, p, frozen, es, i, s);
    if StageAll(h, kinds, home, p, frozen, es[..i + 1]).None? {
      StageStaysNone(h, kinds, home, p, frozen, es, i + 1);
    }
  }

  lemma {:induction false} StaysNone(h: Hash, es: seq<Entry>, seen: seq<Seen>, k: nat)
    requires k <= |es| == |seen| && PrestageAll(h, es[..k], seen[..k]).None?
    ensures PrestageAll(h, es, seen).None?
  {
    if k == |es| {
      assert es[..k] == es && seen[..k] == seen;
    } else {
      var n := |es| - 1;
      assert es[..n][..k] == es[..k] && seen[..n][..k] == seen[..k];
      StaysNone(h, es[..n], seen[..n], k);
    }
  }

  lemma StageNext(h: Hash, kinds: Kinds, home: Home, p: Prestaged, frozen: bool, es: seq<Entry>, i: nat, s: Stage)
    requires i < |es| && StageAll(h, kinds, home, p, frozen, es[..i]) == Some(s)
    ensures StageAll(h, kinds, home, p, frozen, es[..i + 1])
              == if es[i].path in PathsOf(es[..i]) then None else StageOne(h, kinds, home, p.cache, frozen, s, es[i])
    ensures PathsOf(es[..i + 1]) == PathsOf(es[..i]) + {es[i].path}
  {
    assert es[..i + 1][..i] == es[..i];
    assert es[..i + 1] == es[..i] + [es[i]];
    assert HasPath(es[..i], es[i].path) <==> es[i].path in PathsOf(es[..i]);
  }

  lemma {:induction false} StageStaysNone(
      h: Hash, kinds: Kinds, home: Home, p: Prestaged, frozen: bool, es: seq<Entry>, k: nat)
    requires k <= |es| && StageAll(h, kinds, home, p, frozen, es[..k]).None?
    ensures StageAll(h, kinds, home, p, frozen, es).None?
  {
    if k == |es| {
      assert es[..k] == es;
    } else {
      var n := |es| - 1;
      assert es[..n][..k] == es[..k];
      StageStaysNone(h, kinds, home, p, frozen, es[..n], k);
      assert StageAll(h, kinds, home, p, frozen, es[..n]).None?;
    }
  }
}
