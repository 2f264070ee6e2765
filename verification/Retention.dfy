/** Which backups survive and which objects are collected (backup/service.py: list,
    apply_retention, _collect_unreferenced_objects, _backup_storage_size). */
module Retention {
  import opened Wrappers

  /** A manifest lies in the backup directory, where list() finds it, or where the caller asked. */
  datatype Place = Own(n: nat) | Elsewhere(n: nat)

  datatype Manifest = Manifest(created: int, readable: bool, refs: set<int>, size: nat)

  /** The operation in the active slot: where it publishes, what it has put, whether it has published. */
  datatype Active = Active(place: Place, puts: set<int>, published: bool)

  datatype Catalog = Catalog(
    manifests: map<Place, Manifest>, index: set<Place>, objects: map<int, nat>, active: Option<Active>)

  predicate Listed(c: Catalog, p: Place) {
    p in c.manifests && (p in c.index || (p.Own? && c.manifests[p].readable))
  }

  /** list(), oldest first. */
  ghost predicate Listing(c: Catalog, records: seq<Place>) {
    && (forall p :: p in records <==> Listed(c, p))
    && (forall i, k :: 0 <= i < k < |records| ==> records[i] != records[k])
    && (forall i, k :: 0 <= i < k < |records| ==> Created(c, records, i) <= Created(c, records, k))
  }

  function Created(c: Catalog, records: seq<Place>, i: nat): int {
    if i < |records| && records[i] in c.manifests then c.manifests[records[i]].created else 0
  }

  predicate Referenced(c: Catalog, records: seq<Place>, id: int) {
    exists p :: p in records && p in c.manifests && id in c.manifests[p].refs
  }

  function PlacesOf(records: seq<Place>): set<Place> {
    set p | p in records
  }

  /** What is left when the k oldest records are dropped and the rest is collected. */
  function Kept(c: Catalog, records: seq<Place>, k: nat): Catalog
    requires k <= |records|
  {
    c.(manifests := c.manifests - PlacesOf(records[..k]),
       objects := map id | id in c.objects && Referenced(c, records[k..], id) :: c.objects[id])
  }

  // ---- storage size -----------------------------------------------------------------

  ghost function Sum<K>(m: map<K, nat>): nat
    decreases |m|
  {
    if m == map[] then 0
    else
      var k :| k in m;
      assert |m.Keys - {k}| < |m.Keys|;
      assert (m - {k}).Keys == m.Keys - {k};
      m[k] + Sum(m - {k})
  }

  lemma {:induction false} SumWithout<K>(m: map<K, nat>, k: K)
    requires k in m
    ensures Sum(m) == m[k] + Sum(m - {k})
    decreases |m|
  {
    var x :| x in m && Sum(m) == m[x] + Sum(m - {x});
    if x != k {
      assert (m - {x}).Keys == m.Keys - {x};
      assert (m - {k}).Keys == m.Keys - {k};
      SumWithout(m - {x}, k);
      SumWithout(m - {k}, x);
      assert m - {x} - {k} == m - {k} - {x};
    }
  }

  lemma {:induction false} SumOfPart<K>(a: map<K, nat>, b: map<K, nat>)
    requires forall k :: k in a ==> k in b && b[k] == a[k]
    ensures Sum(a) <= Sum(b)
    decreases |a|
  {
    if a != map[] {
      var k :| k in a;
      assert (a - {k}).Keys == a.Keys - {k};
      SumWithout(a, k);
      SumWithout(b, k);
      SumOfPart(a - {k}, b - {k});
    }
  }

  function OwnSizes(c: Catalog): map<Place, nat> {
    map p | p in c.manifests && p.Own? :: c.manifests[p].size
  }

  /** _backup_storage_size: the backup directory's own manifests, listed or not, and all objects. */
  ghost function Total(c: Catalog): nat {
    Sum(OwnSizes(c)) + Sum(c.objects)
  }

  /** What counts: a manifest in the backup directory adds its size, one elsewhere adds nothing,
      and every object adds its own. */
  lemma WhatCounts(c: Catalog, p: Place, m: Manifest, id: int, size: nat)
    ensures p !in c.manifests ==>
              Total(c.(manifests := c.manifests[p := m])) == Total(c) + if p.Own? then m.size else 0
    ensures id !in c.objects ==> Total(c.(objects := c.objects[id := size])) == Total(c) + size
  {
    if p !in c.manifests {
      var with := c.(manifests := c.manifests[p := m]);
      if p.Own? {
        SumWithout(OwnSizes(with), p);
        assert OwnSizes(with) - {p} == OwnSizes(c);
      } else {
        assert OwnSizes(with) == OwnSizes(c);
      }
    }
    if id !in c.objects {
      SumWithout(c.objects[id := size], id);
      assert c.objects[id := size] - {id} == c.objects;
    }
  }

  method SizeOf<K(==)>(m: map<K, nat>) returns (total: nat)
    ensures total == Sum(m)
  {
    total := 0;
    var rest := m;
    while rest != map[]
      invariant total + Sum(rest) == Sum(m)
      decreases |rest|
    {
      var k :| k in rest;
      SumWithout(rest, k);
      assert (rest - {k}).Keys == rest.Keys - {k};
      total := total + rest[k];
      rest := rest - {k};
    }
  }

  lemma DroppingMoreCostsLess(c: Catalog, records: seq<Place>, j: nat, k: nat)
    requires j <= k <= |records|
    ensures Total(Kept(c, records, k)) <= Total(Kept(c, records, j))
  {
    var a, b := Kept(c, records, k), Kept(c, records, j);
    assert forall p :: p in records[..j] ==> p in records[..k];
    assert forall p :: p in records[k..] ==> p in records[j..];
    SumOfPart(OwnSizes(a), OwnSizes(b));
    SumOfPart(a.objects, b.objects);
  }

  // ---- what retention may do ------------------------------------------------------------

  /** How many of the oldest records are past the cutoff. */
  predicate Expired(c: Catalog, records: seq<Place>, cutoff: int, e: nat) {
    e <= |records| && forall i :: 0 <= i < |records| ==> (i < e <==> Created(c, records, i) < cutoff)
  }

  predicate AllReadable(c: Catalog, records: seq<Place>) {
    forall p :: p in records && p in c.manifests ==> c.manifests[p].readable
  }

  /** The cutoff parts the records: the older ones, and no others, are expired. */
  lemma CutoffDecides(c: Catalog, records: seq<Place>, cutoff: int, e: nat)
    requires Listing(c, records) && Expired(c, records, cutoff, e)
    ensures forall p :: p in records[..e] ==> p in c.manifests && c.manifests[p].created < cutoff
    ensures forall p :: p in records[e..] ==> p in c.manifests && c.manifests[p].created >= cutoff
    ensures records == records[..e] + records[e..]
  {
    forall p | p in records[..e] ensures p in c.manifests && c.manifests[p].created < cutoff {
      var i :| 0 <= i < e && records[i] == p;
      assert Listed(c, p) && Created(c, records, i) < cutoff;
    }
    forall p | p in records[e..] ensures p in c.manifests && c.manifests[p].created >= cutoff {
      var i :| 0 <= i < |records| - e && records[e..][i] == p;
      assert records[e + i] == p;
      assert Listed(c, p) && !(Created(c, records, e + i) < cutoff);
    }
  }

  /** k is the fewest records, at least the e expired ones, whose loss brings the store under its
      cap; all of them when even that does not. */
  ghost predicate Fewest(c: Catalog, records: seq<Place>, e: nat, cap: Option<nat>, k: nat) {
    && e <= k <= |records|
    && (cap.None? ==> k == e)
    && (cap.Some? ==> k == |records| || Total(Kept(c, records, k)) <= cap.value)
    && (cap.Some? ==> AllOver(c, records, e, k, cap.value))
  }

  ghost predicate AllOver(c: Catalog, records: seq<Place>, e: nat, k: nat, cap: nat) {
    forall j :: e <= j < k ==> Over(c, records, j, cap)
  }

  ghost predicate Over(c: Catalog, records: seq<Place>, j: nat, cap: nat) {
    j <= |records| && Total(Kept(c, records, j)) > cap
  }

  /** The longest affordable suffix: dropping j records is enough exactly when j is at least k. */
  lemma SurvivorsAreTheLongestAffordableSuffix(c: Catalog, records: seq<Place>, e: nat, cap: nat, k: nat, j: nat)
    requires Fewest(c, records, e, Some(cap), k) && e <= j < |records|
    ensures Total(Kept(c, records, j)) <= cap <==> k <= j
  {
    if k <= j {
      DroppingMoreCostsLess(c, records, k, j);
    } else {
      assert Over(c, records, j, cap);
    }
  }

  predicate NamedBy(c: Catalog, records: seq<Place>, gone: set<Place>, id: int) {
    exists p :: p in records && p !in gone && p in c.manifests && id in c.manifests[p].refs
  }

  /** Where retention may be when the process dies: some records are gone, and no object that one
      of the others names. */
  ghost predicate PartWay(c: Catalog, records: seq<Place>, c': Catalog) {
    exists gone :: PartWayAt(c, records, c', gone)
  }

  ghost predicate PartWayAt(c: Catalog, records: seq<Place>, c': Catalog, gone: set<Place>) {
    && c'.active == c.active && c'.manifests == c.manifests - gone
    && (forall p :: p in c'.index ==> p in c.index || p in records)
    && (forall id :: id in c'.objects ==> id in c.objects && c'.objects[id] == c.objects[id])
    && (forall id :: id in c.objects && NamedBy(c, records, gone, id) ==> id in c'.objects)
  }

  // ---- the whole system --------------------------------------------------------------------

  /** What garbage collection must not break. */
  ghost predicate Protected(c: Catalog) {
    && (forall p :: Listed(c, p) && c.manifests[p].readable ==> c.manifests[p].refs <= c.objects.Keys)
    && (c.active.Some? ==> c.active.value.puts <= c.objects.Keys)
    && (c.active.Some? && c.active.value.published && c.active.value.place in c.manifests ==>
          (c.manifests[c.active.value.place].readable ==> c.manifests[c.active.value.place].refs <= c.active.value.puts))
  }

  /** One step of the system. A process death is no step: everything here is on disk, and the
      next process goes on from it. Retention is one step, seen at any of its effects. */
  datatype Step =
    | Start(place: Place)
    | Put(id: int, size: nat)
    | Publish(manifest: Manifest)
    | Register
    | Finish
    | Damage(place: Place)
    | Retain(records: seq<Place>)

  ghost predicate StepTo(c: Catalog, s: Step, c': Catalog) {
    match s
    case Start(place) => c.active.None? && c' == c.(active := Some(Active(place, {}, false)))
    case Put(id, size) =>
      && c.active.Some?
      && c' == c.(objects := if id in c.objects then c.objects else c.objects[id := size],
                  active := Some(c.active.value.(puts := c.active.value.puts + {id})))
    case Publish(m) =>
      && c.active.Some? && m.refs <= c.active.value.puts
      && c' == c.(manifests := c.manifests[c.active.value.place := m],
                  active := Some(c.active.value.(published := true)))
    case Register => c.active.Some? && c.active.value.published && c' == c.(index := c.index + {c.active.value.place})
    case Finish => c.active.Some? && c' == c.(active := None)
    case Damage(place) =>
      place in c.manifests && c' == c.(manifests := c.manifests[place := c.manifests[place].(readable := false)])
    case Retain(records) =>
      if c.active.Some? then c' == c else Listing(c, records) && PartWay(c, records, c')
  }

  lemma RetentionProtects(c: Catalog, records: seq<Place>, c': Catalog)
    requires Protected(c) && c.active.None? && Listing(c, records) && PartWay(c, records, c')
    ensures Protected(c')
  {
    var gone :| PartWayAt(c, records, c', gone);
    forall p | Listed(c', p) && c'.manifests[p].readable
      ensures c'.manifests[p].refs <= c'.objects.Keys
    {
      assert Listed(c, p);
      forall id | id in c.manifests[p].refs ensures id in c'.objects {
        assert NamedBy(c, records, gone, id);
      }
    }
  }

  lemma StepProtects(c: Catalog, s: Step, c': Catalog)
    requires Protected(c) && StepTo(c, s, c')
    ensures Protected(c')
  {
    match s
    case Retain(records) =>
      if c.active.None? {
        RetentionProtects(c, records, c');
      }
    case Publish(m) =>
      forall p | Listed(c', p) && c'.manifests[p].readable
        ensures c'.manifests[p].refs <= c'.objects.Keys
      {
        assert p != c.active.value.place ==> Listed(c, p);
      }
    case Register =>
      forall p | Listed(c', p) && c'.manifests[p].readable
        ensures c'.manifests[p].refs <= c'.objects.Keys
      {
        assert p != c.active.value.place ==> Listed(c, p);
      }
    case Damage(place) =>
      forall p | Listed(c', p) && c'.manifests[p].readable
        ensures c'.manifests[p].refs <= c'.objects.Keys
      {
        assert Listed(c, p);
      }
    case Put(id, size) =>
      forall p | Listed(c', p) && c'.manifests[p].readable
        ensures c'.manifests[p].refs <= c'.objects.Keys
      {
        assert Listed(c, p);
      }
    case Start(_) =>
      assert forall p :: Listed(c', p) ==> Listed(c, p);
    case Finish =>
      assert forall p :: Listed(c', p) ==> Listed(c, p);
  }

  ghost predicate Goes(states: seq<Catalog>, steps: seq<Step>) {
    |states| == |steps| + 1 && forall i :: 0 <= i < |steps| ==> StepTo(states[i], steps[i], states[i + 1])
  }

  /** Garbage collection safety: in every state the system can reach, whatever the order of puts,
      publications, deaths, resumptions and retention, every object that a listed readable
      manifest names is present, and so is every object the active operation has put. */
  lemma {:induction false} CollectionSafety(states: seq<Catalog>, steps: seq<Step>, i: nat)
    requires Goes(states, steps) && Protected(states[0]) && i < |states|
    ensures Protected(states[i])
    decreases i
  {
    if i > 0 {
      CollectionSafety(states, steps, i - 1);
      assert StepTo(states[i - 1], steps[i - 1], states[i]);
      StepProtects(states[i - 1], steps[i - 1], states[i]);
    }
  }

  /** Exactly when a manifest that is still there after a retention still has its objects: each
      of them is named by a record that survives too. */
  lemma ManifestKeepsItsObjectsExactlyWhen(c: Catalog, records: seq<Place>, k: nat, p: Place)
    requires Listing(c, records) && k <= |records| && p in c.manifests && c.manifests[p].refs <= c.objects.Keys
    requires p !in records[..k]
    ensures var c' := Kept(c, records, k);
            && p in c'.manifests && c'.manifests[p] == c.manifests[p]
            && (c.manifests[p].refs <= c'.objects.Keys <==> forall id :: id in c.manifests[p].refs ==> Referenced(c, records[k..], id))
    ensures Listed(c, p) ==> c.manifests[p].refs <= Kept(c, records, k).objects.Keys
  {
    var c' := Kept(c, records, k);
    forall id | id in c.manifests[p].refs
      ensures id in c'.objects.Keys <==> Referenced(c, records[k..], id)
    {
      assert id in c.objects;
    }
    if Listed(c, p) {
      assert records == records[..k] + records[k..];
      assert p in records[k..];
    }
  }

  /** A manifest that is in no list keeps exactly the objects it shares with surviving records. */
  lemma UnlistedKeepsWhatItShares(c: Catalog, records: seq<Place>, k: nat, p: Place)
    requires Listing(c, records) && k <= |records| && p in c.manifests && c.manifests[p].refs <= c.objects.Keys
    requires !Listed(c, p)
    ensures p in Kept(c, records, k).manifests
    ensures c.manifests[p].refs * Kept(c, records, k).objects.Keys
              == set id | id in c.manifests[p].refs && Referenced(c, records[k..], id)
  {
    assert p !in records;
    var kept := Kept(c, records, k).objects.Keys;
    forall id | id in c.manifests[p].refs ensures id in kept <==> Referenced(c, records[k..], id) {
      assert id in c.objects;
    }
  }

  /** An operation that has published outside the backup directory and then fails before its
      manifest is indexed: in every state from which that happens, the next retention leaves the
      manifest whole if and only if every object it names is named by a surviving record. */
  lemma FailedElsewhereKeepsOnlyWhatItShares(c: Catalog, n: nat, records: seq<Place>, k: nat)
    requires Protected(c) && c.active.Some? && c.active.value.published && c.active.value.place == Elsewhere(n)
    requires Elsewhere(n) in c.manifests && Elsewhere(n) !in c.index && c.manifests[Elsewhere(n)].readable
    requires Listing(c.(active := None), records) && k <= |records|
    ensures var m, c1 := c.manifests[Elsewhere(n)], c.(active := None);
            && StepTo(c, Finish, c1) && !Listed(c1, Elsewhere(n)) && m.refs <= c1.objects.Keys
            && Lookup(Kept(c1, records, k).manifests, Elsewhere(n)) == Some(m)
            && (m.refs <= Kept(c1, records, k).objects.Keys <==> forall id :: id in m.refs ==> Referenced(c1, records[k..], id))
  {
    var c1 := c.(active := None);
    assert Elsewhere(n) !in records;
    ManifestKeepsItsObjectsExactlyWhen(c1, records, k, Elsewhere(n));
  }

  /** A run in which such a manifest loses its object. */
  lemma FailedElsewhereIsNotProtected()
    ensures exists states: seq<Catalog>, steps: seq<Step> ::
      && Goes(states, steps) && Protected(states[0]) && |states| == 6 && steps[3] == Finish
      && Elsewhere(0) in states[5].manifests && states[5].manifests[Elsewhere(0)].readable
      && !(states[5].manifests[Elsewhere(0)].refs <= states[5].objects.Keys)
  {
    var states, steps := PublishedElsewhere();
    var c := states[4].(objects := map[]);
    assert PartWayAt(states[4], [], c, {});
    assert StepTo(states[4], Retain([]), c);
    assert Goes(states + [c], steps + [Retain([])]);
    assert 7 !in c.objects.Keys;
  }

  lemma PublishedElsewhere() returns (states: seq<Catalog>, steps: seq<Step>)
    ensures Goes(states, steps) && Protected(states[0]) && |states| == 5 && steps[3] == Finish
    ensures states[4] == Catalog(map[Elsewhere(0) := Manifest(0, true, {7}, 1)], {}, map[7 := 1], None)
  {
    var m := Manifest(0, true, {7}, 1);
    var c0 := Catalog(map[], {}, map[], None);
    var c1 := c0.(active := Some(Active(Elsewhere(0), {}, false)));
    var c2 := c1.(objects := map[7 := 1], active := Some(Active(Elsewhere(0), {7}, false)));
    var c3 := c2.(manifests := map[Elsewhere(0) := m], active := Some(Active(Elsewhere(0), {7}, true)));
    assert {} + {7} == {7};
    assert StepTo(c1, Put(7, 1), c2) && StepTo(c2, Publish(m), c3);
    states := [c0, c1, c2, c3, c3.(active := None)];
    steps := [Start(Elsewhere(0)), Put(7, 1), Publish(m), Finish];
  }

  /** A state during collection: only objects that records do not name are gone. */
  ghost predicate Collecting(c: Catalog, records: seq<Place>, c': Catalog) {
    && c' == c.(objects := c'.objects)
    && (forall id :: id in c'.objects ==> id in c.objects && c'.objects[id] == c.objects[id])
    && (forall id :: id in c.objects && Referenced(c, records, id) ==> id in c'.objects)
  }

  /** The same for a set of names. */
  ghost predicate Emptying(c: Catalog, referenced: set<int>, c': Catalog) {
    && c' == c.(objects := c'.objects)
    && (forall id :: id in c'.objects ==> id in c.objects && c'.objects[id] == c.objects[id])
    && (forall id :: id in c.objects && id in referenced ==> id in c'.objects)
  }

  lemma HasMember(s: set<int>)
    ensures s == {} || exists x :: x in s
  {
    if forall x :: x !in s {
      assert s == {};
    }
  }

  /** The second loop of apply_retention, with k records gone. */
  ghost predicate Trimming(c: Catalog, v: Catalog, records: seq<Place>, e: nat, k: nat, cap: nat) {
    && e <= k <= |records|
    && v == c.(manifests := c.manifests - PlacesOf(records[..k]), objects := v.objects)
    && Collecting(c, records[k..], c.(objects := v.objects))
    && (AllReadable(c, records[e..]) || (k == e && v.objects == c.objects))
    && AllOver(c, records, e, k, cap)
  }

  lemma RemainingUntouched(c: Catalog, records: seq<Place>, k: nat, c': Catalog)
    requires Listing(c, records) && k <= |records| && c'.manifests == c.manifests - PlacesOf(records[..k])
    ensures forall id :: Referenced(c', records[k..], id) <==> Referenced(c, records[k..], id)
    ensures AllReadable(c', records[k..]) <==> AllReadable(c, records[k..])
  {
    assert forall p :: p in records[k..] ==> p !in records[..k];
    assert forall p :: p in records[k..] && p in c.manifests ==> p in c'.manifests && c'.manifests[p] == c.manifests[p];
  }

  lemma NamedAreReferenced(c: Catalog, records: seq<Place>, k: nat)
    requires k <= |records|
    ensures forall id :: NamedBy(c, records, PlacesOf(records[..k]), id) ==> Referenced(c, records[k..], id)
  {
    assert records == records[..k] + records[k..];
    assert forall p :: p in records && p !in PlacesOf(records[..k]) ==> p in records[k..];
  }

  lemma ForgetOldest(c: Catalog, records: seq<Place>, k: nat)
    requires k < |records|
    ensures forall id :: Referenced(c, records[k + 1..], id) ==> Referenced(c, records[k..], id)
    ensures c.manifests - PlacesOf(records[..k]) - {records[k]} == c.manifests - PlacesOf(records[..k + 1])
    ensures forall id :: NamedBy(c, records, PlacesOf(records[..k + 1]), id) ==> Referenced(c, records[k..], id)
  {
    assert records[k..] == [records[k]] + records[k + 1..];
    assert records[..k + 1] == records[..k] + [records[k]];
    NamedAreReferenced(c, records, k + 1);
  }

  lemma OneMoreOver(c: Catalog, records: seq<Place>, e: nat, k: nat, cap: nat)
    requires AllOver(c, records, e, k, cap) && k < |records| && Total(Kept(c, records, k)) > cap
    ensures AllOver(c, records, e, k + 1, cap)
  {
    assert Over(c, records, k, cap);
  }

  lemma DropOne(c: Catalog, records: seq<Place>, e: nat, k: nat, cap: nat, v: Catalog, v': Catalog)
    requires e <= k < |records| && Total(Kept(c, records, k)) > cap && AllReadable(c, records[e..])
    requires AllOver(c, records, e, k, cap)
    requires v == c.(manifests := c.manifests - PlacesOf(records[..k]), objects := v.objects)
    requires Collecting(c, records[k..], c.(objects := v.objects))
    requires v' == v.(manifests := v.manifests - {records[k]})
    ensures Trimming(c, v', records, e, k + 1, cap)
    ensures PartWay(c, records, v')
  {
    ForgetOldest(c, records, k);
    assert v'.manifests == c.manifests - PlacesOf(records[..k + 1]);
    OneMoreOver(c, records, e, k, cap);
    assert Collecting(c, records[k + 1..], c.(objects := v'.objects));
    CollectedIsPartWay(c, records, k + 1, v');
  }

  lemma CollectedIsPartWay(c: Catalog, records: seq<Place>, k: nat, v: Catalog)
    requires k <= |records| && v == c.(manifests := c.manifests - PlacesOf(records[..k]), objects := v.objects)
    requires Collecting(c, records[k..], c.(objects := v.objects))
    ensures PartWay(c, records, v)
  {
    NamedAreReferenced(c, records, k);
    assert PartWayAt(c, records, v, PlacesOf(records[..k]));
  }

  lemma CollectingIsPartWay(c: Catalog, records: seq<Place>, k: nat, v: Catalog, x: Catalog)
    requires Listing(c, records) && k <= |records|
    requires v == c.(manifests := c.manifests - PlacesOf(records[..k]), objects := v.objects)
    requires Collecting(c, records[k..], c.(objects := v.objects)) && Collecting(v, records[k..], x)
    ensures PartWay(c, records, x)
  {
    RemainingUntouched(c, records, k, v);
    NamedAreReferenced(c, records, k);
    assert PartWayAt(c, records, x, PlacesOf(records[..k]));
  }

  lemma SuffixReadable(c: Catalog, records: seq<Place>, j: nat, k: nat)
    requires j <= k <= |records|
    ensures AllReadable(c, records[j..]) ==> AllReadable(c, records[k..])
  {
    assert forall p :: p in records[k..] ==> p in records[j..];
  }

  // ---- the service ------------------------------------------------------------------------

  class BackupService {
    var manifests: map<Place, Manifest>
    var index: set<Place>
    var objects: map<int, nat>
    var active: Option<Active>
    /** Every state the disk has been in. */
    ghost var past: seq<Catalog>

    function View(): Catalog
      reads this
    {
      Catalog(manifests, index, objects, active)
    }

    /** _collect_unreferenced_objects: reads every manifest first, then deletes object by object. */
    method CollectUnreferencedObjects(records: seq<Place>) returns (ok: bool)
      modifies this`objects, this`past
      ensures ok <==> AllReadable(old(View()), records)
      ensures !ok ==> View() == old(View()) && past == old(past)
      ensures ok ==> objects == map id | id in old(objects) && Referenced(old(View()), records, id) :: old(objects)[id]
      ensures old(past) <= past
      ensures forall i :: |old(past)| <= i < |past| ==> Collecting(old(View()), records, past[i])
    {
      var referenced: set<int> := {};
      var i := 0;
      while i < |records|
        invariant 0 <= i <= |records|
        invariant AllReadable(View(), records[..i])
        invariant forall id :: id in referenced <==> Referenced(View(), records[..i], id)
      {
        assert records[i] in records && records[..i + 1] == records[..i] + [records[i]];
        if records[i] in manifests {
          if !manifests[records[i]].readable {
            return false;
          }
          referenced := referenced + manifests[records[i]].refs;
        }
        i := i + 1;
      }
      assert records[..|records|] == records;
      DeleteAllBut(referenced);
      return true;
    }

    /** The loop over the stored objects. */
    method DeleteAllBut(referenced: set<int>)
      modifies this`objects, this`past
      ensures objects == map id | id in old(objects) && id in referenced :: old(objects)[id]
      ensures old(past) <= past
      ensures forall i :: |old(past)| <= i < |past| ==> Emptying(old(View()), referenced, past[i])
    {
      ghost var c := View();
      var left := objects.Keys - referenced;
      while left != {}
        invariant left <= objects.Keys && left !! referenced
        invariant objects == map id | id in c.objects && (id in referenced || id in left) :: c.objects[id]
        invariant old(past) <= past
        invariant forall i :: |old(past)| <= i < |past| ==> Emptying(c, referenced, past[i])
        decreases left
      {
        HasMember(left);
        var id :| id in left;
        left := left - {id};
        objects := objects - {id};
        past := past + [View()];
        assert Emptying(c, referenced, View());
      }
    }

    /** The total over files of both directories. */
    method BackupStorageSize() returns (total: nat)
      ensures total == Total(View())
    {
      var files := SizeOf(map p | p in manifests && p.Own? :: manifests[p].size);
      var stored := SizeOf(objects);
      total := files + stored;
    }

    method Unlink(p: Place)
      modifies this`manifests, this`past
      ensures View() == old(View()).(manifests := old(manifests) - {p}) && past == old(past) + [View()]
    {
      manifests := manifests - {p};
      past := past + [View()];
    }

    /** The first loop of apply_retention: every record past the cutoff goes, newest first. */
    method UnlinkExpired(records: seq<Place>, cutoff: int) returns (expired: nat)
      requires Listing(View(), records)
      modifies this`manifests, this`past
      ensures Expired(old(View()), records, cutoff, expired)
      ensures View() == old(View()).(manifests := old(manifests) - PlacesOf(records[..expired]))
      ensures old(past) <= past
      ensures forall i :: |old(past)| <= i < |past| ==> PartWay(old(View()), records, past[i])
    {
      ghost var c := View();
      var gone: set<Place> := {};
      var i := |records|;
      while i > 0
        invariant 0 <= i <= |records|
        invariant forall x :: 0 <= x < |records| ==> (records[x] in gone <==> i <= x && Created(c, records, x) < cutoff)
        invariant gone <= PlacesOf(records)
        invariant View() == c.(manifests := c.manifests - gone)
        invariant old(past) <= past
        invariant forall i :: |old(past)| <= i < |past| ==> PartWay(c, records, past[i])
      {
        i := i - 1;
        assert records[i] in records && Listed(c, records[i]);
        if Created(View(), records, i) < cutoff {
          Unlink(records[i]);
          gone := gone + {records[i]};
          assert PartWayAt(c, records, View(), gone);
        }
      }
      expired := 0;
      while expired < |records| && records[expired] in gone
        invariant expired <= |records| && forall x :: 0 <= x < expired ==> records[x] in gone
      {
        expired := expired + 1;
      }
      assert forall x :: expired <= x < |records| ==> Created(c, records, expired) <= Created(c, records, x);
      assert forall p :: p in PlacesOf(records[..expired]) <==> p in gone;
    }

    /** One round of the second loop of apply_retention. */
    method TrimOne(ghost c: Catalog, records: seq<Place>, ghost expired: nat, removed: nat, cap: nat)
        returns (ok: bool, more: bool)
      requires Listing(c, records) && removed < |records| && Trimming(c, View(), records, expired, removed, cap)
      modifies this`manifests, this`objects, this`past
      ensures ok <==> AllReadable(c, records[expired..])
      ensures !ok ==> View() == old(View())
      ensures ok ==> Trimming(c, View(), records, expired, if more then removed + 1 else removed, cap)
      ensures ok && !more ==> Total(Kept(c, records, removed)) <= cap
      ensures old(past) <= past
      ensures forall i :: |old(past)| <= i < |past| ==> PartWay(c, records, past[i])
    {
      more := false;
      SuffixReadable(c, records, expired, removed);
      ok := CollectRemaining(c, records, removed);
      if ok {
        var total := BackupStorageSize();
        assert total == Total(Kept(c, records, removed));
        if total > cap {
          more := true;
          ghost var v := View();
          Unlink(records[removed]);
          DropOne(c, records, expired, removed, cap, v, View());
        }
      }
    }

    /** The second loop of apply_retention, and the last collection. */
    method TrimToCap(ghost c: Catalog, records: seq<Place>, expired: nat, cap: Option<nat>)
        returns (ok: bool, removed: nat)
      requires Listing(c, records) && expired <= |records|
      requires View() == c.(manifests := c.manifests - PlacesOf(records[..expired]))
      modifies this`manifests, this`index, this`objects, this`past
      ensures ok <==> AllReadable(c, records[expired..])
      ensures !ok ==> View() == old(View())
      ensures ok ==> Fewest(c, records, expired, cap, removed)
                     && View() == Kept(c, records, removed).(index := PlacesOf(records[removed..]))
      ensures old(past) <= past
      ensures forall i :: |old(past)| <= i < |past| ==> PartWay(c, records, past[i])
    {
      ok, removed := true, expired;
      var more := cap.Some?;
      ghost var limit := if cap.Some? then cap.value else 0;
      while more && removed < |records|
        invariant Trimming(c, View(), records, expired, removed, limit)
        invariant cap.None? ==> !more && removed == expired
        invariant cap.Some? && !more ==> Total(Kept(c, records, removed)) <= limit
        invariant old(past) <= past
        invariant forall i :: |old(past)| <= i < |past| ==> PartWay(c, records, past[i])
        decreases |records| - removed, more
      {
        ok, more := TrimOne(c, records, expired, removed, cap.value);
        if !ok {
          return;
        }
        removed := if more then removed + 1 else removed;
      }
      SuffixReadable(c, records, expired, removed);
      ok := CollectRemaining(c, records, removed);
      if ok {
        index := PlacesOf(records[removed..]);
        past := past + [View()];
        NamedAreReferenced(c, records, removed);
        assert PartWayAt(c, records, View(), PlacesOf(records[..removed]));
      }
    }

    method CollectRemaining(ghost c: Catalog, records: seq<Place>, removed: nat) returns (ok: bool)
      requires Listing(c, records) && removed <= |records|
      requires View() == c.(manifests := c.manifests - PlacesOf(records[..removed]), objects := objects)
      requires Collecting(c, records[removed..], c.(objects := objects))
      modifies this`objects, this`past
      ensures ok <==> AllReadable(c, records[removed..])
      ensures !ok ==> View() == old(View()) && past == old(past)
      ensures ok ==> View() == Kept(c, records, removed) && Collecting(c, records[removed..], c.(objects := objects))
      ensures old(past) <= past
      ensures forall i :: |old(past)| <= i < |past| ==> PartWay(c, records, past[i])
    {
      RemainingUntouched(c, records, removed, View());
      ok := CollectUnreferencedObjects(records[removed..]);
      forall i | |old(past)| <= i < |past| ensures PartWay(c, records, past[i]) {
        CollectingIsPartWay(c, records, removed, old(View()), past[i]);
      }
    }

    /** apply_retention over the records that list() returned, oldest first. */
    method ApplyRetention(records: seq<Place>, cutoff: int, cap: Option<nat>)
        returns (ok: bool, expired: nat, removed: nat)
      requires Listing(View(), records)
      modifies this`manifests, this`index, this`objects, this`past
      ensures active.Some? ==> ok && View() == old(View()) && past == old(past)
      ensures active.None? ==>
                && Expired(old(View()), records, cutoff, expired)
                && (ok <==> AllReadable(old(View()), records[expired..]))
      ensures active.None? && !ok ==> View() == old(View()).(manifests := old(manifests) - PlacesOf(records[..expired]))
      ensures active.None? && ok ==>
                && Fewest(old(View()), records, expired, cap, removed)
                && View() == Kept(old(View()), records, removed).(index := PlacesOf(records[removed..]))
      ensures old(past) <= past
      ensures forall i :: |old(past)| <= i < |past| ==> PartWay(old(View()), records, past[i])
    {
      if active.Some? {
        return true, 0, 0;
      }
      ghost var c := View();
      expired := UnlinkExpired(records, cutoff);
      ok, removed := TrimToCap(c, records, expired, cap);
    }
  }
}
