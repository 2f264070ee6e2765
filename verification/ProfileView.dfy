/** The files one profile may see (Agent/resources.py: _materialize_profile_view), and which
    plugins the settings leave enabled (set_enabled). */
module ProfileView {
  import opened Wrappers
  import opened Generation

  type Bytes = seq<int>
  type Hash = Bytes -> int
  type Dir = map<(Root, Path), Bytes>

  /** The members of the descriptors that are exposed to a profile. */
  function ViewMembers(ds: seq<Descriptor>, p: Profile): seq<Member> {
    if ds == [] then []
    else
      var rest := ViewMembers(ds[..|ds| - 1], p);
      if Exposes(ds[|ds| - 1], p) then rest + ds[|ds| - 1].files else rest
  }

  function PlaceOf(p: Profile, m: Member): (Root, Path) {
    (m.root, Mount(p, m))
  }

  function PlacesOf(p: Profile, ms: seq<Member>): seq<(Root, Path)> {
    seq(|ms|, i requires 0 <= i < |ms| => PlaceOf(p, ms[i]))
  }

  /** The dictionary of mounted places: the original path and the recorded hash. */
  function Expected(p: Profile, ms: seq<Member>): map<(Root, Path), (Path, int)> {
    if ms == [] then map[]
    else
      var last := ms[|ms| - 1];
      Expected(p, ms[..|ms| - 1])[PlaceOf(p, last) := (last.path, last.hash)]
  }

  // ---- mounting loses nothing --------------------------------------------------------------

  lemma {:induction false} ExposedMeansListed(d: Descriptor, p: Profile, ps: seq<Profile>)
    ensures p in ExposedAmong(d, ps) <==> p in ps && Exposes(d, p)
  {
    if ps != [] {
      ExposedMeansListed(d, p, ps[..|ps| - 1]);
      assert ps == ps[..|ps| - 1] + [ps[|ps| - 1]];
    }
  }

  lemma {:induction false} PlacesAmongMounts(ms: seq<Member>, ps: seq<Profile>, p: Profile)
    requires p in ps && NoDup(MountsOfAll(ms, ps))
    ensures NoDup(PlacesOf(p, ms))
    ensures forall x :: x in PlacesOf(p, ms) ==> (p, x.0, x.1) in MountsOfAll(ms, ps)
  {
    if ms != [] {
      var n := |ms| - 1;
      var last := MountsIn(ms[n], ps);
      NoDupAppend(MountsOfAll(ms[..n], ps), last);
      PlacesAmongMounts(ms[..n], ps, p);
      var i :| 0 <= i < |ps| && ps[i] == p;
      var place := PlaceOf(p, ms[n]);
      assert last[i] == (p, place.0, place.1);
      assert PlacesOf(p, ms) == PlacesOf(p, ms[..n]) + [place];
      NoDupAppend(PlacesOf(p, ms[..n]), [place]);
    }
  }

  ghost predicate PlacesWithin(p: Profile, ms: seq<Member>, mounts: seq<(Profile, Root, Path)>) {
    NoDup(PlacesOf(p, ms)) && forall x :: x in PlacesOf(p, ms) ==> (p, x.0, x.1) in mounts
  }

  lemma PlacesJoin(p: Profile, a: seq<Member>, b: seq<Member>, m: seq<(Profile, Root, Path)>, n: seq<(Profile, Root, Path)>)
    requires PlacesWithin(p, a, m) && PlacesWithin(p, b, n) && NoDup(m + n)
    ensures PlacesWithin(p, a + b, m + n)
  {
    NoDupAppend(m, n);
    assert PlacesOf(p, a + b) == PlacesOf(p, a) + PlacesOf(p, b);
    forall x | x in PlacesOf(p, a) ensures x !in PlacesOf(p, b) {
      assert (p, x.0, x.1) in m;
    }
    NoDupAppend(PlacesOf(p, a), PlacesOf(p, b));
  }

  lemma DescriptorPlaces(d: Descriptor, p: Profile)
    requires NoDup(MountsOf(d)) && Exposes(d, p)
    ensures PlacesWithin(p, d.files, MountsOf(d))
  {
    AllProfiles();
    ExposedMeansListed(d, p, PROFILES);
    PlacesAmongMounts(d.files, ExposedAmong(d, PROFILES), p);
  }

  lemma {:induction false} ViewPlacesAmongMounts(ds: seq<Descriptor>, p: Profile)
    requires NoDup(Flat(ds, MountsOf))
    ensures PlacesWithin(p, ViewMembers(ds, p), Flat(ds, MountsOf))
  {
    if ds != [] {
      var n := |ds| - 1;
      var rest := ViewMembers(ds[..n], p);
      NoDupAppend(Flat(ds[..n], MountsOf), MountsOf(ds[n]));
      ViewPlacesAmongMounts(ds[..n], p);
      if Exposes(ds[n], p) {
        DescriptorPlaces(ds[n], p);
        PlacesJoin(p, rest, ds[n].files, Flat(ds[..n], MountsOf), MountsOf(ds[n]));
      }
    }
  }

  lemma {:induction false} ExpectedAt(p: Profile, ms: seq<Member>, i: nat)
    requires NoDup(PlacesOf(p, ms)) && i < |ms|
    ensures PlaceOf(p, ms[i]) in Expected(p, ms) && Expected(p, ms)[PlaceOf(p, ms[i])] == (ms[i].path, ms[i].hash)
    decreases |ms|
  {
    var n := |ms| - 1;
    if i < n {
      assert PlacesOf(p, ms[..n]) == PlacesOf(p, ms)[..n];
      ExpectedAt(p, ms[..n], i);
      assert PlacesOf(p, ms)[i] != PlacesOf(p, ms)[n];
    }
  }

  lemma ExpectedKeeps(p: Profile, ms: seq<Member>, m: Member)
    requires NoDup(PlacesOf(p, ms)) && m in ms
    ensures PlaceOf(p, m) in Expected(p, ms) && Expected(p, ms)[PlaceOf(p, m)] == (m.path, m.hash)
  {
    var i :| 0 <= i < |ms| && ms[i] == m;
    ExpectedAt(p, ms, i);
  }

  lemma ExpectedMore(p: Profile, rest: seq<Member>, files: seq<Member>, k: nat)
    requires k < |files|
    ensures Expected(p, rest + files[..k + 1])
              == Expected(p, rest + files[..k])[PlaceOf(p, files[k]) := (files[k].path, files[k].hash)]
  {
    var ms := rest + files[..k + 1];
    assert ms[..|ms| - 1] == rest + files[..k] && ms[|ms| - 1] == files[k];
  }

  lemma {:induction false} ViewHasMembers(ds: seq<Descriptor>, p: Profile, d: Descriptor, m: Member)
    requires d in ds && Exposes(d, p) && m in d.files
    ensures m in ViewMembers(ds, p)
  {
    var n := |ds| - 1;
    assert ds == ds[..n] + [ds[n]];
    if d != ds[n] {
      ViewHasMembers(ds[..n], p, d, m);
    }
  }

  /** A view shows nothing of a plugin that is not exposed to its profile. */
  lemma {:induction false} ViewShowsOnlyExposed(ds: seq<Descriptor>, p: Profile, m: Member)
    requires m in ViewMembers(ds, p)
    ensures exists d :: d in ds && Exposes(d, p) && m in d.files
  {
    var n := |ds| - 1;
    if m in ViewMembers(ds[..n], p) {
      ViewShowsOnlyExposed(ds[..n], p, m);
      var d :| d in ds[..n] && Exposes(d, p) && m in d.files;
      assert d in ds;
    } else {
      assert ds[n] in ds;
    }
  }

  lemma {:induction false} ExpectedComesFromMembers(p: Profile, ms: seq<Member>, k: (Root, Path))
    requires k in Expected(p, ms)
    ensures exists m :: m in ms && PlaceOf(p, m) == k && Expected(p, ms)[k] == (m.path, m.hash)
  {
    var n := |ms| - 1;
    if k != PlaceOf(p, ms[n]) {
      ExpectedComesFromMembers(p, ms[..n], k);
      var m :| m in ms[..n] && PlaceOf(p, m) == k && Expected(p, ms[..n])[k] == (m.path, m.hash);
      assert m in ms;
    } else {
      assert ms[n] in ms;
    }
  }

  /** A place of a view is filled exactly if some plugin that is exposed to the profile has a member
      that is mounted there. */
  lemma ViewPlacesAreExposedMembers(ds: seq<Descriptor>, p: Profile, k: (Root, Path))
    requires Accepted(ds)
    ensures k in Expected(p, ViewMembers(ds, p)) <==>
              exists d, m :: d in ds && Exposes(d, p) && m in d.files && PlaceOf(p, m) == k
  {
    var ms := ViewMembers(ds, p);
    if k in Expected(p, ms) {
      ExpectedComesFromMembers(p, ms, k);
      var m :| m in ms && PlaceOf(p, m) == k && Expected(p, ms)[k] == (m.path, m.hash);
      ViewShowsOnlyExposed(ds, p, m);
      var d :| d in ds && Exposes(d, p) && m in d.files;
      assert d in ds && Exposes(d, p) && m in d.files && PlaceOf(p, m) == k;
    }
    if d, m :| d in ds && Exposes(d, p) && m in d.files && PlaceOf(p, m) == k {
      ViewHasMembers(ds, p, d, m);
      ViewPlacesAmongMounts(ds, p);
      ExpectedKeeps(p, ms, m);
    }
  }

  /** For a generation that discover accepts, a view that holds what it is expected to hold has
      every member of every exposed plugin at its mounted place with the recorded hash; no two
      members share a place, in any profile. */
  lemma ViewLosesNoMember(ds: seq<Descriptor>, p: Profile, h: Hash, view: Dir, d: Descriptor, m: Member)
    requires Accepted(ds) && CompleteFor(h, Expected(p, ViewMembers(ds, p)), view)
    requires d in ds && Exposes(d, p) && m in d.files
    ensures PlaceOf(p, m) in view && h(view[PlaceOf(p, m)]) == m.hash
    ensures forall e, x :: e in ds && Exposes(e, p) && x in e.files && PlaceOf(p, x) == PlaceOf(p, m) ==> x.path == m.path && x.hash == m.hash
  {
    ViewPlacesAmongMounts(ds, p);
    ViewHasMembers(ds, p, d, m);
    ExpectedKeeps(p, ViewMembers(ds, p), m);
    forall e, x | e in ds && Exposes(e, p) && x in e.files && PlaceOf(p, x) == PlaceOf(p, m)
      ensures x.path == m.path && x.hash == m.hash
    {
      ViewHasMembers(ds, p, e, x);
      ExpectedKeeps(p, ViewMembers(ds, p), x);
    }
  }

  // ---- building a view -----------------------------------------------------------------------

  predicate CompleteFor(h: Hash, expected: map<(Root, Path), (Path, int)>, dir: Dir) {
    forall k :: k in expected ==> HoldsAt(h, expected, dir, k)
  }

  predicate HoldsAt(h: Hash, expected: map<(Root, Path), (Path, int)>, dir: Dir, k: (Root, Path))
    requires k in expected
  {
    k in dir && h(dir[k]) == expected[k].1
  }

  /** The generation's own files still have the recorded hashes. */
  predicate SourcesIntact(h: Hash, expected: map<(Root, Path), (Path, int)>, artifact: Dir) {
    forall k :: k in expected ==> IntactAt(h, expected, artifact, k)
  }

  predicate IntactAt(h: Hash, expected: map<(Root, Path), (Path, int)>, artifact: Dir, k: (Root, Path))
    requires k in expected
  {
    (k.0, expected[k].0) in artifact && h(artifact[(k.0, expected[k].0)]) == expected[k].1
  }

  /** What is at the path of the view. */
  datatype Target = Absent | NotADirectory | Directory(files: Dir)

  class ProfileViews {
    var target: Target
    const h: Hash
    const artifact: Dir

    constructor (h: Hash, artifact: Dir, target: Target)
      ensures this.h == h && this.artifact == artifact && this.target == target
    {
      this.h, this.artifact, this.target := h, artifact, target;
    }

    method AddMembers(p: Profile, before: map<(Root, Path), (Path, int)>, ghost rest: seq<Member>, files: seq<Member>)
        returns (expected: map<(Root, Path), (Path, int)>)
      requires before == Expected(p, rest)
      ensures expected == Expected(p, rest + files)
    {
      expected := before;
      var k := 0;
      assert rest + files[..0] == rest;
      while k < |files|
        invariant 0 <= k <= |files| && expected == Expected(p, rest + files[..k])
      {
        ExpectedMore(p, rest, files, k);
        expected := expected[PlaceOf(p, files[k]) := (files[k].path, files[k].hash)];
        k := k + 1;
      }
      assert files[..|files|] == files;
    }

    method CollectExpected(p: Profile, ds: seq<Descriptor>) returns (expected: map<(Root, Path), (Path, int)>)
      ensures expected == Expected(p, ViewMembers(ds, p))
    {
      expected := map[];
      var i := 0;
      while i < |ds|
        invariant 0 <= i <= |ds| && expected == Expected(p, ViewMembers(ds[..i], p))
      {
        assert ds[..i + 1][..i] == ds[..i];
        if Exposes(ds[i], p) {
          expected := AddMembers(p, expected, ViewMembers(ds[..i], p), ds[i].files);
        }
        i := i + 1;
      }
      assert ds[..|ds|] == ds;
    }

    method IsComplete(expected: map<(Root, Path), (Path, int)>, dir: Dir) returns (complete: bool)
      ensures complete <==> CompleteFor(h, expected, dir)
    {
      var left := expected.Keys;
      while left != {}
        invariant left <= expected.Keys
        invariant forall k :: k in expected && k !in left ==> HoldsAt(h, expected, dir, k)
        decreases left
      {
        var k :| k in left;
        if k !in dir || h(dir[k]) != expected[k].1 {
          return false;
        }
        left := left - {k};
      }
      return true;
    }

    /** The copying loop; fails at the first source that is missing or has changed. */
    method CopyMembers(expected: map<(Root, Path), (Path, int)>) returns (ok: bool, files: Dir)
      ensures ok <==> SourcesIntact(h, expected, artifact)
      ensures ok ==> files.Keys == expected.Keys && CompleteFor(h, expected, files)
    {
      files := map[];
      var left := expected.Keys;
      while left != {}
        invariant left <= expected.Keys && files.Keys == expected.Keys - left
        invariant forall k :: k in expected && k !in left ==> IntactAt(h, expected, artifact, k) && HoldsAt(h, expected, files, k)
        decreases left
      {
        var k :| k in left;
        var source := (k.0, expected[k].0);
        if source !in artifact || h(artifact[source]) != expected[k].1 {
          assert !IntactAt(h, expected, artifact, k);
          return false, map[];
        }
        files := files[k := artifact[source]];
        left := left - {k};
      }
      return true, files;
    }

    /** rival is what another process has published by the time this one has written its copy. */
    method MaterializeProfileView(p: Profile, ds: seq<Descriptor>, rival: Option<Dir>) returns (ok: bool)
      modifies this
      ensures var expected := Expected(p, ViewMembers(ds, p));
              var had := old(target).Directory? && CompleteFor(h, expected, old(target).files);
              && (ok <==> had || (SourcesIntact(h, expected, artifact) && (rival.None? || CompleteFor(h, expected, rival.value))))
              && (ok ==> target.Directory? && CompleteFor(h, expected, target.files))
              && (had ==> target == old(target))
              && (ok && !had && rival.None? ==> target.files.Keys == expected.Keys)
              && (!ok ==> target == if SourcesIntact(h, expected, artifact) then Directory(rival.value) else Absent)
    {
      var expected := CollectExpected(p, ds);
      if target.Directory? {
        var complete := IsComplete(expected, target.files);
        if complete {
          return true;
        }
      }
      target := Absent;
      var copied, files := CopyMembers(expected);
      if !copied {
        return false;
      }
      if rival.None? {
        target := Directory(files);
        return true;
      }
      target := Directory(rival.value);
      ok := IsComplete(expected, rival.value);
    }
  }
}

/** Which plugins are enabled (Agent/resources.py: set_enabled). */
module PluginSettings {
  import opened Wrappers

  datatype Declaration = Declaration(toggleable: bool, installed: bool, requires': set<nat>)

  datatype Refusal = Unknown | Missing | Stale | RequirementDisabled | DependentEnabled

  datatype Settings = Settings(revision: nat, disabled: set<nat>)

  /** Every installed and enabled plugin has its requirements enabled. */
  predicate Consistent(ds: map<nat, Declaration>, disabled: set<nat>) {
    forall id :: id in ds && ds[id].installed && id !in disabled ==> ds[id].requires' !! disabled
  }

  predicate Depends(ds: map<nat, Declaration>, disabled: set<nat>, x: nat, id: nat) {
    x in ds && x !in disabled && id in ds[x].requires' && ds[x].installed
  }

  class PluginSettingsFile {
    var settings: Settings
    const declarations: map<nat, Declaration>

    constructor (declarations: map<nat, Declaration>)
      ensures this.declarations == declarations && settings == Settings(0, {})
      ensures Consistent(declarations, settings.disabled)
    {
      this.declarations := declarations;
      settings := Settings(0, {});
    }

    /** Switches one plugin, or refuses and changes nothing; the revision counts the changes. */
    method SetEnabled(id: nat, enabled: bool, expected: nat) returns (refused: Option<Refusal>)
      modifies this
      ensures refused.Some? ==> settings == old(settings)
      ensures refused.None? ==>
                && settings.disabled == (if enabled then old(settings.disabled) - {id} else old(settings.disabled) + {id})
                && settings.revision == old(settings.revision) + (if settings.disabled == old(settings.disabled) then 0 else 1)
      ensures refused.None? <==>
                && id in declarations && declarations[id].toggleable && declarations[id].installed
                && old(settings.revision) == expected
                && (if enabled then declarations[id].requires' !! old(settings.disabled)
                    else forall x :: !Depends(declarations, old(settings.disabled), x, id))
      ensures Consistent(declarations, old(settings.disabled)) ==> Consistent(declarations, settings.disabled)
    {
      if id !in declarations || !declarations[id].toggleable {
        return Some(Unknown);
      }
      if !declarations[id].installed {
        return Some(Missing);
      }
      if settings.revision != expected {
        return Some(Stale);
      }
      var disabled := settings.disabled;
      if enabled {
        if declarations[id].requires' * disabled != {} {
          return Some(RequirementDisabled);
        }
        assert forall r :: r in declarations[id].requires' ==> r !in declarations[id].requires' * disabled;
        disabled := disabled - {id};
      } else {
        var left := declarations.Keys;
        while left != {}
          invariant left <= declarations.Keys
          invariant forall x :: x in declarations && x !in left ==> !Depends(declarations, disabled, x, id)
          decreases left
        {
          var x :| x in left;
          if x !in disabled && id in declarations[x].requires' && declarations[x].installed {
            assert Depends(declarations, disabled, x, id);
            return Some(DependentEnabled);
          }
          left := left - {x};
        }
        disabled := disabled + {id};
        assert forall x :: !Depends(declarations, settings.disabled, x, id);
      }
      if disabled != settings.disabled {
        settings := Settings(settings.revision + 1, disabled);
      }
      return None;
    }
  }
}
