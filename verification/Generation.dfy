/** Composing a generation of runtime plugins (Agent/resources.py): the checks of discover, and
    what is left after a failed plugin is quarantined. */
module Generation {
  datatype Profile =
    | Interactive | CronJobs | DreamRuns | Subagent | Compression | Maintenance
    | HarnessManual | HarnessError | HarnessCapability | HarnessDream

  const PROFILES: seq<Profile> := [
    Interactive, CronJobs, DreamRuns, Subagent, Compression, Maintenance,
    HarnessManual, HarnessError, HarnessCapability, HarnessDream]

  predicate IsHarness(p: Profile) {
    p in {HarnessManual, HarnessError, HarnessCapability, HarnessDream}
  }

  datatype Root = Source | Agent

  /** A segment of a path, with the names that the code treats specially told apart. */
  datatype Segment =
    | Tools | Skills | ExtensionDir | ObserverPlugins | RuntimePlugins | RuntimeResources
    | HarnessEvolution | RuntimeDir | DotYy | Agents | NamedFor(p: Profile) | Other(n: nat)

  type Path = seq<Segment>

  datatype Member = Member(root: Root, path: Path, hash: int)
  datatype Contribution = Contribution(kind: nat, name: nat, profiles: seq<Profile>)
  datatype Descriptor = Descriptor(
    id: nat, coreApi: nat, requires': set<nat>, conflicts: set<nat>,
    contributions: seq<Contribution>, files: seq<Member>)

  const CORE_API_VERSION := 1

  /** _profile_member_path */
  function Mount(p: Profile, m: Member): Path {
    var path := if m.root == Source && |m.path| >= 3 && m.path[0] == RuntimePlugins then m.path[2..] else m.path;
    if IsHarness(p) && m.root == Source && |path| > 2 && path[..2] == [HarnessEvolution, RuntimeDir] then path[2..]
    else if p in {Interactive, CronJobs, DreamRuns} && m.root == Source && |path| > 2
            && path[..2] == [RuntimeResources, NamedFor(p)] then path[2..]
    else path
  }

  /** _validate_hot_resource_member */
  predicate IsHot(m: Member) {
    match m.root
    case Agent => |m.path| >= 2 && m.path[..2] == [DotYy, Agents]
    case Source =>
      || (m.path != [] && m.path[0] in {Tools, Skills, ExtensionDir, ObserverPlugins, RuntimePlugins, RuntimeResources})
      || (|m.path| >= 2 && m.path[..2] == [HarnessEvolution, RuntimeDir])
  }

  predicate Exposes(d: Descriptor, p: Profile) {
    exists c :: c in d.contributions && p in c.profiles
  }

  function ExposedAmong(d: Descriptor, ps: seq<Profile>): seq<Profile> {
    if ps == [] then []
    else
      var rest := ExposedAmong(d, ps[..|ps| - 1]);
      if Exposes(d, ps[|ps| - 1]) then rest + [ps[|ps| - 1]] else rest
  }

  // ---- identities that must not occur twice ----------------------------------------------

  predicate NoDup<T(==)>(s: seq<T>) {
    forall i, k :: 0 <= i < k < |s| ==> s[i] != s[k]
  }

  function Flat<S, T>(ss: seq<S>, f: S -> seq<T>): seq<T> {
    if ss == [] then [] else Flat(ss[..|ss| - 1], f) + f(ss[|ss| - 1])
  }

  function IdOf(d: Descriptor): seq<nat> {
    [d.id]
  }

  function NamesOf(d: Descriptor): seq<(Profile, nat, nat)> {
    Flat(d.contributions, (c: Contribution) => seq(|c.profiles|, i requires 0 <= i < |c.profiles| => (c.profiles[i], c.kind, c.name)))
  }

  function IdentitiesOf(d: Descriptor): seq<(Root, Path)> {
    seq(|d.files|, i requires 0 <= i < |d.files| => (d.files[i].root, d.files[i].path))
  }

  /** Where a member is mounted, in each of the profiles. */
  function MountsIn(m: Member, ps: seq<Profile>): seq<(Profile, Root, Path)> {
    seq(|ps|, i requires 0 <= i < |ps| => (ps[i], m.root, Mount(ps[i], m)))
  }

  function MountsOfAll(ms: seq<Member>, ps: seq<Profile>): seq<(Profile, Root, Path)> {
    if ms == [] then [] else MountsOfAll(ms[..|ms| - 1], ps) + MountsIn(ms[|ms| - 1], ps)
  }

  function MountsOf(d: Descriptor): seq<(Profile, Root, Path)> {
    MountsOfAll(d.files, ExposedAmong(d, PROFILES))
  }

  lemma NoDupAppend<T>(a: seq<T>, b: seq<T>)
    ensures NoDup(a + b) <==> NoDup(a) && NoDup(b) && (forall x :: x in a ==> x !in b)
  {
    var s := a + b;
    if NoDup(s) {
      forall i, k | 0 <= i < k < |a| ensures a[i] != a[k] {
        assert s[i] == a[i] && s[k] == a[k];
      }
      forall i, k | 0 <= i < k < |b| ensures b[i] != b[k] {
        assert s[|a| + i] == b[i] && s[|a| + k] == b[k];
      }
      forall i, k | 0 <= i < |a| && 0 <= k < |b| ensures a[i] != b[k] {
        assert s[i] == a[i] && s[|a| + k] == b[k];
      }
    } else if NoDup(a) && NoDup(b) && (forall x :: x in a ==> x !in b) {
      forall i, k | 0 <= i < k < |s| ensures s[i] != s[k] {
        assert s[i] == if i < |a| then a[i] else b[i - |a|];
        assert s[k] == if k < |a| then a[k] else b[k - |a|];
        assert i < |a| ==> s[i] in a;
        assert k >= |a| ==> s[k] in b;
      }
      assert NoDup(s);
    }
  }

  // ---- the checks of discover ---------------------------------------------------------------

  predicate Has(ds: seq<Descriptor>, id: nat) {
    exists d :: d in ds && d.id == id
  }

  /** What discover asks of one descriptor among the others. */
  ghost predicate FitsAmong(ds: seq<Descriptor>, d: Descriptor) {
    && d.coreApi == CORE_API_VERSION
    && (forall r :: r in d.requires' ==> Has(ds, r))
    && (forall x :: x in d.conflicts ==> !Has(ds, x))
    && Covered(ds, d)
    && (forall m :: m in d.files ==> IsHot(m))
  }

  /** Each requirement is exposed to every profile that the descriptor is exposed to. */
  ghost predicate Covered(ds: seq<Descriptor>, d: Descriptor) {
    forall e, p :: e in ds && e.id in d.requires' && Exposes(d, p) ==> Exposes(e, p)
  }

  ghost predicate Accepted(ds: seq<Descriptor>) {
    && (forall d :: d in ds ==> FitsAmong(ds, d))
    && NoDup(Flat(ds, IdOf)) && NoDup(Flat(ds, NamesOf)) && NoDup(Flat(ds, IdentitiesOf)) && NoDup(Flat(ds, MountsOf))
  }

  /** Where a member is mounted: a harness sees its runtime at the top, and an interactive, cron or
      dream profile its own resources. */
  lemma MountedWhere(p: Profile, rest: Path, hash: int)
    requires rest != []
    ensures Mount(p, Member(Source, [HarnessEvolution, RuntimeDir] + rest, hash))
              == if p in {HarnessManual, HarnessError, HarnessCapability, HarnessDream} then rest
                 else [HarnessEvolution, RuntimeDir] + rest
    ensures Mount(p, Member(Source, [RuntimeResources, NamedFor(p)] + rest, hash))
              == if p in {Interactive, CronJobs, DreamRuns} then rest else [RuntimeResources, NamedFor(p)] + rest
  {
    MountedBelow(p, HarnessEvolution, RuntimeDir, rest, hash);
    MountedBelow(p, RuntimeResources, NamedFor(p), rest, hash);
  }

  /** What a plugin ships stands where it would stand without the plugin's own two leading segments. */
  lemma MountedFromPlugin(p: Profile, x: Segment, rest: Path, hash: int)
    requires rest != [] && rest[0] != RuntimePlugins
    ensures Mount(p, Member(Source, [RuntimePlugins, x] + rest, hash)) == Mount(p, Member(Source, rest, hash))
  {
    assert ([RuntimePlugins, x] + rest)[2..] == rest;
  }

  /** Everything else, and everything of the home, stays where it is. */
  lemma MountedAsItIs(p: Profile, path: Path, hash: int)
    ensures Mount(p, Member(Agent, path, hash)) == path
    ensures |path| <= 2 || path[0] !in {RuntimePlugins, HarnessEvolution, RuntimeResources} ==>
              Mount(p, Member(Source, path, hash)) == path
  {
    if |path| > 2 {
      assert path[..2][0] == path[0];
    }
  }

  lemma MountedBelow(p: Profile, first: Segment, second: Segment, rest: Path, hash: int)
    requires rest != [] && first != RuntimePlugins
    ensures Mount(p, Member(Source, [first, second] + rest, hash))
              == if (first == HarnessEvolution && second == RuntimeDir && IsHarness(p))
                    || (first == RuntimeResources && second == NamedFor(p) && p in {Interactive, CronJobs, DreamRuns})
                 then rest else [first, second] + rest
  {
    var path := [first, second] + rest;
    assert path[..2] == [first, second] && path[2..] == rest;
    assert path[..2][0] == first && path[..2][1] == second;
  }

  lemma {:induction false} FlatHas<S, T>(ss: seq<S>, f: S -> seq<T>, i: nat, x: T)
    requires i < |ss| && x in f(ss[i])
    ensures x in Flat(ss, f)
  {
    if i < |ss| - 1 {
      FlatHas(ss[..|ss| - 1], f, i, x);
    }
  }

  /** Nothing that two parts of a duplicate-free list have in common. */
  lemma {:induction false} FlatApart<S, T>(ss: seq<S>, f: S -> seq<T>, i: nat, k: nat, x: T)
    requires NoDup(Flat(ss, f)) && i < k < |ss|
    ensures !(x in f(ss[i]) && x in f(ss[k]))
  {
    var n := |ss| - 1;
    NoDupAppend(Flat(ss[..n], f), f(ss[n]));
    if k < n {
      FlatApart(ss[..n], f, i, k, x);
    } else if x in f(ss[i]) {
      FlatHas(ss[..n], f, i, x);
    }
  }

  predicate Contributes(d: Descriptor, p: Profile, kind: nat, name: nat) {
    exists c :: c in d.contributions && p in c.profiles && c.kind == kind && c.name == name
  }

  lemma ContributionIsNamed(d: Descriptor, p: Profile, kind: nat, name: nat)
    requires Contributes(d, p, kind, name)
    ensures (p, kind, name) in NamesOf(d)
  {
    var names := (c: Contribution) => seq(|c.profiles|, i requires 0 <= i < |c.profiles| => (c.profiles[i], c.kind, c.name));
    var c :| c in d.contributions && p in c.profiles && c.kind == kind && c.name == name;
    var i :| 0 <= i < |d.contributions| && d.contributions[i] == c;
    var k :| 0 <= k < |c.profiles| && c.profiles[k] == p;
    assert names(c)[k] == (p, kind, name);
    FlatHas(d.contributions, names, i, (p, kind, name));
    SameFlat(d.contributions, names, p, kind, name);
  }

  lemma SameFlat(cs: seq<Contribution>, names: Contribution -> seq<(Profile, nat, nat)>, p: Profile, kind: nat, name: nat)
    requires forall c: Contribution :: names(c) == seq(|c.profiles|, i requires 0 <= i < |c.profiles| => (c.profiles[i], c.kind, c.name))
    ensures (p, kind, name) in Flat(cs, names) ==>
              (p, kind, name) in Flat(cs, (c: Contribution) => seq(|c.profiles|, i requires 0 <= i < |c.profiles| => (c.profiles[i], c.kind, c.name)))
  {
    if cs != [] {
      SameFlat(cs[..|cs| - 1], names, p, kind, name);
    }
  }

  /** What acceptance promises of any two plugins of a generation: they differ in name, share no
      file, and contribute nothing of the same kind and name to the same profile. */
  lemma AcceptedPluginsStandApart(ds: seq<Descriptor>, i: nat, k: nat)
    requires Accepted(ds) && i < k < |ds|
    ensures ds[i].id != ds[k].id
    ensures forall m, n :: m in ds[i].files && n in ds[k].files ==> (m.root, m.path) != (n.root, n.path)
    ensures forall p, kind, name :: Contributes(ds[i], p, kind, name) ==> !Contributes(ds[k], p, kind, name)
  {
    FlatApart(ds, IdOf, i, k, ds[i].id);
    forall m, n | m in ds[i].files && n in ds[k].files ensures (m.root, m.path) != (n.root, n.path) {
      var a :| 0 <= a < |ds[i].files| && ds[i].files[a] == m;
      var b :| 0 <= b < |ds[k].files| && ds[k].files[b] == n;
      assert IdentitiesOf(ds[i])[a] == (m.root, m.path) && IdentitiesOf(ds[k])[b] == (n.root, n.path);
      FlatApart(ds, IdentitiesOf, i, k, (m.root, m.path));
    }
    forall p, kind, name | Contributes(ds[i], p, kind, name) ensures !Contributes(ds[k], p, kind, name) {
      ContributionIsNamed(ds[i], p, kind, name);
      if Contributes(ds[k], p, kind, name) {
        ContributionIsNamed(ds[k], p, kind, name);
        FlatApart(ds, NamesOf, i, k, (p, kind, name));
      }
    }
  }

  /** And of any one: it speaks this interface, has what it requires wherever it is exposed, none of
      what it conflicts with, and every file below a place that plugins may fill. */
  lemma AcceptedPluginsFit(ds: seq<Descriptor>, d: Descriptor, m: Member)
    requires Accepted(ds) && d in ds
    ensures d.coreApi == 1
    ensures forall r :: r in d.requires' ==>
              exists e :: e in ds && e.id == r && forall p :: Exposes(d, p) ==> Exposes(e, p)
    ensures forall e :: e in ds ==> e.id !in d.conflicts
    ensures m in d.files ==> IsHot(m)
  {
    assert FitsAmong(ds, d);
    forall r | r in d.requires'
      ensures exists e :: e in ds && e.id == r && forall p :: Exposes(d, p) ==> Exposes(e, p)
    {
      var e :| e in ds && e.id == r;
    }
  }

  /** Where plugins may put files: under the agents of the home; and in the source under six
      directories, or under the runtime of the harness. */
  lemma HotPlaces(path: Path, hash: int)
    ensures IsHot(Member(Agent, path, hash)) <==> 2 <= |path| && path[0] == DotYy && path[1] == Agents
    ensures IsHot(Member(Source, path, hash)) <==>
              || (1 <= |path| && path[0] in {Tools, Skills, ExtensionDir, ObserverPlugins, RuntimePlugins, RuntimeResources})
              || (2 <= |path| && path[0] == HarnessEvolution && path[1] == RuntimeDir)
  {
    if |path| >= 2 {
      assert path[..2] == [path[0], path[1]];
    }
  }

  /** A plugin is exposed to a profile exactly if it contributes something to it. */
  lemma ExposedMeansContributing(d: Descriptor, p: Profile)
    ensures Exposes(d, p) <==> exists kind, name :: Contributes(d, p, kind, name)
  {
    if Exposes(d, p) {
      var c :| c in d.contributions && p in c.profiles;
      assert Contributes(d, p, c.kind, c.name);
    }
  }

  // ---- quarantine ---------------------------------------------------------------------------

  /** Nothing outside the set requires anything in it. */
  ghost predicate Closed(ds: seq<Descriptor>, gone: set<nat>) {
    forall d :: d in ds && d.requires' * gone != {} ==> d.id in gone
  }

  function Remaining(ds: seq<Descriptor>, gone: set<nat>): seq<Descriptor> {
    if ds == [] then []
    else
      var rest := Remaining(ds[..|ds| - 1], gone);
      if ds[|ds| - 1].id in gone then rest else rest + [ds[|ds| - 1]]
  }

  lemma {:induction false} RemainingHas(ds: seq<Descriptor>, gone: set<nat>)
    ensures forall d :: d in Remaining(ds, gone) <==> d in ds && d.id !in gone
  {
    if ds != [] {
      RemainingHas(ds[..|ds| - 1], gone);
      assert ds == ds[..|ds| - 1] + [ds[|ds| - 1]];
    }
  }

  /** Taking descriptors out introduces no duplicates. */
  lemma {:induction false} RemainingNoDup<T>(ds: seq<Descriptor>, gone: set<nat>, f: Descriptor -> seq<T>)
    requires NoDup(Flat(ds, f))
    ensures NoDup(Flat(Remaining(ds, gone), f))
    ensures forall x :: x in Flat(Remaining(ds, gone), f) ==> x in Flat(ds, f)
  {
    if ds != [] {
      var n := |ds| - 1;
      NoDupAppend(Flat(ds[..n], f), f(ds[n]));
      RemainingNoDup(ds[..n], gone, f);
      var rest := Remaining(ds[..n], gone);
      if ds[n].id !in gone {
        assert (rest + [ds[n]])[..|rest|] == rest;
        NoDupAppend(Flat(rest, f), f(ds[n]));
      }
    }
  }

  /** What quarantine leaves is a valid generation: every check that discover made on the
      whole still holds of the rest. */
  lemma RemainingIsAccepted(ds: seq<Descriptor>, gone: set<nat>)
    requires Accepted(ds) && Closed(ds, gone)
    ensures Accepted(Remaining(ds, gone))
  {
    var rs := Remaining(ds, gone);
    RemainingHas(ds, gone);
    RemainingNoDup(ds, gone, IdOf);
    RemainingNoDup(ds, gone, NamesOf);
    RemainingNoDup(ds, gone, IdentitiesOf);
    RemainingNoDup(ds, gone, MountsOf);
    forall d | d in rs ensures FitsAmong(rs, d) {
      assert FitsAmong(ds, d);
      forall r | r in d.requires' ensures Has(rs, r) {
        assert r in gone ==> r in d.requires' * gone;
        var e :| e in ds && e.id == r;
        assert e in rs;
      }
      forall x | x in d.conflicts ensures !Has(rs, x) {
        assert !Has(ds, x);
      }
    }
  }

  function IdsOf(ds: seq<Descriptor>): set<nat> {
    set d | d in ds :: d.id
  }

  /** Inside every closed set that contains the failed plugin. */
  ghost predicate Inevitable(ds: seq<Descriptor>, failed: nat, gone: set<nat>) {
    forall other: set<nat> :: failed in other && Closed(ds, other) ==> gone <= other
  }

  ghost predicate Least(ds: seq<Descriptor>, failed: nat, gone: set<nat>) {
    failed in gone && Closed(ds, gone) && Inevitable(ds, failed, gone)
  }

  lemma InevitablyGrows(ds: seq<Descriptor>, failed: nat, gone: set<nat>, d: Descriptor)
    requires Inevitable(ds, failed, gone) && d in ds && gone * d.requires' != {}
    ensures Inevitable(ds, failed, gone + {d.id})
  {
    forall other: set<nat> | failed in other && Closed(ds, other)
      ensures gone + {d.id} <= other
    {
      var x :| x in gone * d.requires';
      assert x in d.requires' * other;
    }
  }

  /** Among plugins, a part that keeps every requirement of its own. */
  ghost predicate Standing(ds: seq<Descriptor>, part: set<nat>) {
    forall d :: d in ds && d.id in part ==> d.requires' <= part
  }

  lemma OutsideIsClosed(ds: seq<Descriptor>, failed: nat, part: set<nat>)
    requires (forall d :: d in ds ==> FitsAmong(ds, d)) && failed !in part && Standing(ds, part)
    ensures Closed(ds, IdsOf(ds) + {failed} - part)
  {
    var outside := IdsOf(ds) + {failed} - part;
    forall d | d in ds && d.requires' * outside != {} ensures d.id in outside {
      var x :| x in d.requires' * outside;
      assert d.id in IdsOf(ds);
    }
  }

  lemma RestStands(ds: seq<Descriptor>, gone: set<nat>)
    requires (forall d :: d in ds ==> FitsAmong(ds, d)) && Closed(ds, gone)
    ensures Standing(ds, IdsOf(ds) - gone)
  {
    forall d | d in ds && d.id in IdsOf(ds) - gone ensures d.requires' <= IdsOf(ds) - gone {
      forall r | r in d.requires' ensures r in IdsOf(ds) && r !in gone {
        assert FitsAmong(ds, d) && Has(ds, r);
        assert r in gone ==> r in d.requires' * gone;
      }
    }
  }

  lemma AllFit(ds: seq<Descriptor>)
    requires Accepted(ds)
    ensures forall d :: d in ds ==> FitsAmong(ds, d)
  {
  }

  lemma LeastIsInside(ds: seq<Descriptor>, failed: nat, gone: set<nat>, other: set<nat>)
    requires Least(ds, failed, gone) && failed in other && Closed(ds, other)
    ensures gone <= other
  {
  }

  /** The least closed set with the failed plugin leaves the greatest part that stands without it. */
  lemma RemainderIsGreatest(ds: seq<Descriptor>, failed: nat, gone: set<nat>, part: set<nat>)
    requires Accepted(ds) && Least(ds, failed, gone)
    requires failed !in part && Standing(ds, part) && part <= IdsOf(ds)
    ensures Standing(ds, IdsOf(ds) - gone) && failed !in IdsOf(ds) - gone
    ensures part <= IdsOf(ds) - gone
  {
    AllFit(ds);
    OutsideIsClosed(ds, failed, part);
    LeastIsInside(ds, failed, gone, IdsOf(ds) + {failed} - part);
    RestStands(ds, gone);
  }

  /** One round of the expansion loop of _disable_quarantined_member. */
  method ExpandOnce(ds: seq<Descriptor>, ghost failed: nat, before: set<nat>) returns (gone: set<nat>, expanded: bool)
    requires Inevitable(ds, failed, before)
    ensures before <= gone <= before + IdsOf(ds) && Inevitable(ds, failed, gone)
    ensures expanded ==> before < gone
    ensures !expanded ==> gone == before && Closed(ds, gone)
  {
    gone, expanded := before, false;
    var i := 0;
    while i < |ds|
      invariant 0 <= i <= |ds|
      invariant before <= gone <= before + IdsOf(ds) && Inevitable(ds, failed, gone)
      invariant !expanded ==> gone == before && Closed(ds[..i], gone)
      invariant expanded ==> before < gone
    {
      var d := ds[i];
      assert d in ds && ds[..i + 1] == ds[..i] + [d];
      if d.id !in gone && gone * d.requires' != {} {
        InevitablyGrows(ds, failed, gone, d);
        gone := gone + {d.id};
        expanded := true;
      }
      i := i + 1;
    }
    assert ds[..|ds|] == ds;
  }

  lemma LessLeft(all: set<nat>, before: set<nat>, gone: set<nat>)
    requires before < gone <= all
    ensures all - gone < all - before
  {
    assert exists x :: x in gone && x !in before;
    var x :| x in gone && x !in before;
    assert x in all - before && x !in all - gone;
  }

  method DisableQuarantinedMember(ds: seq<Descriptor>, failed: nat) returns (gone: set<nat>, left: seq<Descriptor>)
    ensures Least(ds, failed, gone)
    ensures left == Remaining(ds, gone)
  {
    gone := {failed};
    var expanded := true;
    ghost var ids := IdsOf(ds);
    ghost var all := ids + {failed};
    while expanded
      invariant failed in gone && gone <= all && Inevitable(ds, failed, gone)
      invariant !expanded ==> Closed(ds, gone)
      decreases all - gone, expanded
    {
      ghost var before := gone;
      gone, expanded := ExpandOnce(ds, failed, gone);
      if expanded {
        LessLeft(all, before, gone);
      }
    }
    left := Without(ds, gone);
  }

  method Without(ds: seq<Descriptor>, gone: set<nat>) returns (left: seq<Descriptor>)
    ensures left == Remaining(ds, gone)
  {
    left := [];
    var i := 0;
    while i < |ds|
      invariant 0 <= i <= |ds| && left == Remaining(ds[..i], gone)
    {
      assert ds[..i + 1][..i] == ds[..i];
      if ds[i].id !in gone {
        left := left + [ds[i]];
      }
      i := i + 1;
    }
    assert ds[..|ds|] == ds;
  }

  // ---- discover ---------------------------------------------------------------------------------

  /** The set holds exactly the listed identities, none of which is listed twice. */
  ghost predicate Owns<T(!new)>(owned: set<T>, listed: seq<T>) {
    NoDup(listed) && forall x :: x in owned <==> x in listed
  }

  /** Adds identities to those already owned; refused if any is taken. */
  method Claim<T(==,!new)>(owned: set<T>, ghost earlier: seq<T>, items: seq<T>) returns (ok: bool, now: set<T>)
    requires Owns(owned, earlier)
    ensures ok <==> NoDup(earlier + items)
    ensures ok ==> Owns(now, earlier + items)
  {
    now := owned;
    var i := 0;
    assert earlier + items[..0] == earlier;
    while i < |items|
      invariant 0 <= i <= |items|
      invariant Owns(now, earlier + items[..i])
    {
      var part := items[..i];
      assert items[..i + 1] == part + [items[i]];
      assert (earlier + part) + [items[i]] == earlier + items[..i + 1];
      NoDupAppend(earlier + part, [items[i]]);
      if items[i] in now {
        assert earlier + items == (earlier + items[..i + 1]) + items[i + 1..];
        NoDupAppend(earlier + items[..i + 1], items[i + 1..]);
        return false, now;
      }
      now := now + {items[i]};
      i := i + 1;
    }
    assert items[..|items|] == items;
    return true, now;
  }

  method ProfilesCovered(ds: seq<Descriptor>, d: Descriptor) returns (ok: bool)
    ensures ok <==> Covered(ds, d)
  {
    ok := true;
    AllProfiles();
    var i := 0;
    while i < |ds|
      invariant 0 <= i <= |ds| && Covered(ds[..i], d)
    {
      assert ds[i] in ds && ds[..i + 1] == ds[..i] + [ds[i]];
      if ds[i].id in d.requires' {
        var missing := set p | p in PROFILES && Exposes(d, p) && !Exposes(ds[i], p);
        if missing != {} {
          ghost var p :| p in missing;
          return false;
        }
        forall p | Exposes(d, p) ensures Exposes(ds[i], p) {
          assert p in PROFILES;
          assert p !in missing;
        }
      }
      i := i + 1;
    }
    assert ds[..|ds|] == ds;
  }

  /** The checks of one descriptor against all. */
  method Fits(ds: seq<Descriptor>, ids: set<nat>, d: Descriptor) returns (ok: bool)
    requires ids == IdsOf(ds)
    ensures ok <==> FitsAmong(ds, d)
  {
    assert forall id :: id in ids <==> Has(ds, id);
    if d.coreApi != CORE_API_VERSION {
      return false;
    }
    var missing := d.requires' - ids;
    if missing != {} {
      ghost var r :| r in missing;
      return false;
    }
    assert forall r :: r in d.requires' ==> r !in missing;
    var conflict := d.conflicts * ids;
    if conflict != {} {
      ghost var x :| x in conflict;
      return false;
    }
    assert forall x :: x in d.conflicts ==> x !in conflict;
    ok := ProfilesCovered(ds, d);
    if !ok {
      return;
    }
    var k := 0;
    while k < |d.files|
      invariant 0 <= k <= |d.files| && forall m :: m in d.files[..k] ==> IsHot(m)
    {
      assert d.files[..k + 1] == d.files[..k] + [d.files[k]];
      if !IsHot(d.files[k]) {
        return false;
      }
      k := k + 1;
    }
    assert d.files[..|d.files|] == d.files;
  }

  lemma AllProfiles()
    ensures forall p: Profile :: p in PROFILES
  {
    forall p: Profile ensures p in PROFILES {
      match p
      case Interactive => assert PROFILES[0] == p;
      case CronJobs => assert PROFILES[1] == p;
      case DreamRuns => assert PROFILES[2] == p;
      case Subagent => assert PROFILES[3] == p;
      case Compression => assert PROFILES[4] == p;
      case Maintenance => assert PROFILES[5] == p;
      case HarnessManual => assert PROFILES[6] == p;
      case HarnessError => assert PROFILES[7] == p;
      case HarnessCapability => assert PROFILES[8] == p;
      case HarnessDream => assert PROFILES[9] == p;
    }
  }

  /** discover, over the descriptors that the providers gave and the settings did not disable. */
  method Discover(ds: seq<Descriptor>) returns (ok: bool)
    ensures ok <==> Accepted(ds)
  {
    var ids: set<nat> := {};
    var i := 0;
    while i < |ds|
      invariant 0 <= i <= |ds| && ids == IdsOf(ds[..i]) && Owns(ids, Flat(ds[..i], IdOf))
    {
      assert ds[..i + 1] == ds[..i] + [ds[i]] && ds[..i + 1][..i] == ds[..i];
      ok, ids := Claim(ids, Flat(ds[..i], IdOf), [ds[i].id]);
      if !ok {
        PrefixNoDup(ds, i + 1, IdOf);
        return;
      }
      i := i + 1;
    }
    assert ds[..|ds|] == ds;
    ok := CheckAll(ds, ids);
  }

  /** One more descriptor's identities of one kind. */
  method ClaimOf<T(==,!new)>(ds: seq<Descriptor>, i: nat, ghost f: Descriptor -> seq<T>, owned: set<T>, items: seq<T>)
      returns (ok: bool, now: set<T>)
    requires i < |ds| && Owns(owned, Flat(ds[..i], f)) && items == f(ds[i])
    ensures ok ==> Owns(now, Flat(ds[..i + 1], f))
    ensures !ok ==> !NoDup(Flat(ds, f))
  {
    assert ds[..i + 1] == ds[..i] + [ds[i]] && ds[..i + 1][..i] == ds[..i];
    ok, now := Claim(owned, Flat(ds[..i], f), items);
    if !ok {
      PrefixNoDup(ds, i + 1, f);
    }
  }

  method CheckAll(ds: seq<Descriptor>, ids: set<nat>) returns (ok: bool)
    requires ids == IdsOf(ds)
    ensures ok <==> (forall d :: d in ds ==> FitsAmong(ds, d))
                    && NoDup(Flat(ds, NamesOf)) && NoDup(Flat(ds, IdentitiesOf)) && NoDup(Flat(ds, MountsOf))
  {
    var names: set<(Profile, nat, nat)> := {};
    var members: set<(Root, Path)> := {};
    var mounts: set<(Profile, Root, Path)> := {};
    var i := 0;
    while i < |ds|
      invariant 0 <= i <= |ds|
      invariant forall k :: 0 <= k < i ==> FitsAmong(ds, ds[k])
      invariant Owns(names, Flat(ds[..i], NamesOf))
      invariant Owns(members, Flat(ds[..i], IdentitiesOf))
      invariant Owns(mounts, Flat(ds[..i], MountsOf))
    {
      ok := Fits(ds, ids, ds[i]);
      if ok {
        ok, names := ClaimOf(ds, i, NamesOf, names, NamesOf(ds[i]));
      }
      if ok {
        ok, members := ClaimOf(ds, i, IdentitiesOf, members, IdentitiesOf(ds[i]));
      }
      if ok {
        ok, mounts := ClaimOf(ds, i, MountsOf, mounts, MountsOf(ds[i]));
      }
      if !ok {
        return;
      }
      i := i + 1;
    }
    assert ds[..|ds|] == ds;
    ok := true;
  }

  lemma {:induction false} PrefixNoDup<T>(ds: seq<Descriptor>, k: nat, f: Descriptor -> seq<T>)
    requires k <= |ds|
    ensures NoDup(Flat(ds, f)) ==> NoDup(Flat(ds[..k], f))
    decreases |ds|
  {
    if k == |ds| {
      assert ds[..k] == ds;
    } else {
      var n := |ds| - 1;
      NoDupAppend(Flat(ds[..n], f), f(ds[n]));
      PrefixNoDup(ds[..n], k, f);
      assert ds[..n][..k] == ds[..k];
    }
  }
}
