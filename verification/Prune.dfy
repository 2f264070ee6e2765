/** Retention from processes of their own (run_ui/cli.py: backup_prune; backup/service.py:
    apply_retention): each checks once that no operation is active, takes no lock, and then lists,
    removes and collects step by step among whatever else goes on. */
module Prune {
  import opened Wrappers
  import opened Retention

  /** Where one retention stands: it has found no active operation; or it has its list, has removed
      some of it, and knows the objects that the rest names if it has just read them. */
  datatype Collection =
    | Checked
    | Removing(records: seq<Place>, gone: set<Place>, read: Option<set<int>>)

  datatype World = World(c: Catalog, collections: map<nat, Collection>)

  datatype Event =
    | System(step: Step)
    | Check(k: nat)
    | List(k: nat, records: seq<Place>)
    | Unlink(k: nat, place: Place)
    | Read(k: nat, named: set<int>)
    | Remove(k: nat, id: int)
    | End(k: nat)
    | Abort(k: nat)

  predicate IsRemoving(w: World, k: nat) {
    k in w.collections && w.collections[k].Removing?
  }

  /** The records that are left of a list, as write_index keeps them. */
  function Left(c: Catalog, col: Collection): set<Place>
    requires col.Removing?
  {
    set p | p in col.records && p !in col.gone && p in c.manifests
  }

  ghost predicate Next(w: World, e: Event, w': World) {
    match e
    case System(s) => !s.Retain? && StepTo(w.c, s, w'.c) && w'.collections == w.collections
    case Check(k) => w.c.active.None? && k !in w.collections && w' == w.(collections := w.collections[k := Checked])
    case List(k, records) =>
      && k in w.collections && w.collections[k].Checked? && Listing(w.c, records)
      && w' == w.(collections := w.collections[k := Removing(records, {}, None)])
    case Unlink(k, p) =>
      && IsRemoving(w, k) && p in w.collections[k].records
      && w' == World(w.c.(manifests := w.c.manifests - {p}),
                     w.collections[k := w.collections[k].(gone := w.collections[k].gone + {p}, read := None)])
    case Read(k, named) =>
      && IsRemoving(w, k)
      && (forall p :: p in Left(w.c, w.collections[k]) ==> w.c.manifests[p].readable)
      && (forall id :: id in named <==> NamedBy(w.c, w.collections[k].records, w.collections[k].gone, id))
      && w' == w.(collections := w.collections[k := w.collections[k].(read := Some(named))])
    case Remove(k, id) =>
      && IsRemoving(w, k) && w.collections[k].read.Some? && id in w.c.objects && id !in w.collections[k].read.value
      && w' == w.(c := w.c.(objects := w.c.objects - {id}))
    case End(k) =>
      && IsRemoving(w, k)
      && w' == World(w.c.(index := Left(w.c, w.collections[k])), w.collections - {k})
    case Abort(k) => k in w.collections && w' == w.(collections := w.collections - {k})
  }

  ghost predicate Goes(ws: seq<World>, es: seq<Event>) {
    |ws| == |es| + 1 && forall i :: 0 <= i < |es| ==> Next(ws[i], es[i], ws[i + 1])
  }

  // ---- no operation in between: nothing is lost -----------------------------------------------

  /** No operation is active while a retention is under way. */
  predicate Alone(w: World) {
    w.collections != map[] ==> w.c.active.None?
  }

  /** The list of a retention still covers every listed manifest that reads, and what it has read
      covers what those name. */
  ghost predicate Covers(c: Catalog, col: Collection) {
    col.Removing? ==>
      && (forall p :: Listed(c, p) && c.manifests[p].readable ==> p in col.records && p !in col.gone)
      && (forall p :: p in Left(c, col) && c.manifests[p].readable ==> Listed(c, p))
      && (col.read.Some? ==> forall p :: Listed(c, p) && c.manifests[p].readable ==> c.manifests[p].refs <= col.read.value)
  }

  ghost predicate Inv(w: World) {
    && Protected(w.c)
    && (w.c.active.None? ==> forall k :: k in w.collections ==> Covers(w.c, w.collections[k]))
  }

  /** A step that lists nothing new and changes no object that a listed manifest names. */
  ghost predicate Shrinks(c: Catalog, c': Catalog) {
    && c'.active == c.active
    && (forall p :: p in c'.manifests ==> p in c.manifests && c'.manifests[p].refs == c.manifests[p].refs
                                          && (c'.manifests[p].readable ==> c.manifests[p].readable))
    && (forall p :: Listed(c', p) && c'.manifests[p].readable ==> Listed(c, p))
  }

  lemma ShrinkingProtects(c: Catalog, c': Catalog)
    requires Protected(c) && c.active.None? && Shrinks(c, c')
    requires forall p :: Listed(c', p) && c'.manifests[p].readable ==> c.manifests[p].refs <= c'.objects.Keys
    ensures Protected(c')
  {
  }

  lemma UnlinkKeeps(w: World, k: nat, p: Place, w': World)
    requires Inv(w) && w.c.active.None? && Next(w, Unlink(k, p), w')
    ensures Inv(w')
  {
    assert forall q :: Listed(w'.c, q) <==> Listed(w.c, q) && q != p;
    ShrinkingProtects(w.c, w'.c);
    forall x | x in w'.collections ensures Covers(w'.c, w'.collections[x]) {
      assert Covers(w.c, w.collections[x]);
    }
  }

  lemma ReadKeeps(w: World, k: nat, named: set<int>, w': World)
    requires Inv(w) && w.c.active.None? && Next(w, Read(k, named), w')
    ensures Inv(w')
  {
    var col := w.collections[k];
    assert Covers(w.c, col);
    forall p | Listed(w.c, p) && w.c.manifests[p].readable ensures w.c.manifests[p].refs <= named {
      forall id | id in w.c.manifests[p].refs ensures id in named {
        assert NamedBy(w.c, col.records, col.gone, id);
      }
    }
    assert Covers(w'.c, w'.collections[k]);
    assert forall x :: x in w'.collections && x != k ==> w'.collections[x] == w.collections[x];
  }

  lemma RemoveKeeps(w: World, k: nat, id: int, w': World)
    requires Inv(w) && w.c.active.None? && Next(w, Remove(k, id), w')
    ensures Inv(w')
  {
    assert Covers(w.c, w.collections[k]);
    assert forall p :: Listed(w'.c, p) <==> Listed(w.c, p);
    ShrinkingProtects(w.c, w'.c);
    forall x | x in w'.collections ensures Covers(w'.c, w'.collections[x]) {
      assert Covers(w.c, w.collections[x]);
    }
  }

  lemma EndKeeps(w: World, k: nat, w': World)
    requires Inv(w) && w.c.active.None? && Next(w, End(k), w')
    ensures Inv(w')
  {
    var col := w.collections[k];
    assert Covers(w.c, col);
    forall p | Listed(w'.c, p) && w'.c.manifests[p].readable ensures Listed(w.c, p) {
      assert p in w'.c.index ==> p in Left(w.c, col);
    }
    ShrinkingProtects(w.c, w'.c);
    forall x | x in w'.collections ensures Covers(w'.c, w'.collections[x]) {
      EndCovers(w, k, x);
    }
  }

  lemma EndCovers(w: World, k: nat, x: nat)
    requires Inv(w) && w.c.active.None? && IsRemoving(w, k) && x in w.collections
    ensures Covers(w.c.(index := Left(w.c, w.collections[k])), w.collections[x])
  {
    var c, c', col, other := w.c, w.c.(index := Left(w.c, w.collections[k])), w.collections[k], w.collections[x];
    assert Covers(c, col) && Covers(c, other);
    if other.Removing? {
      forall p | Listed(c', p) && c.manifests[p].readable ensures p in other.records && p !in other.gone {
        assert p in c'.index ==> p in Left(c, col);
        assert Listed(c, p);
      }
      forall p | p in Left(c', other) && c'.manifests[p].readable ensures Listed(c', p) {
        assert p in Left(c, other);
        assert Listed(c, p);
        assert p in Left(c, col);
      }
    }
  }

  lemma DamageKeeps(w: World, place: Place, w': World)
    requires Inv(w) && w.c.active.None? && Next(w, System(Damage(place)), w')
    ensures Inv(w')
  {
    assert forall p :: Listed(w'.c, p) ==> Listed(w.c, p);
    ShrinkingProtects(w.c, w'.c);
    forall x | x in w'.collections ensures Covers(w'.c, w'.collections[x]) {
      assert Covers(w.c, w.collections[x]);
      assert w.collections[x].Removing? ==> Left(w'.c, w.collections[x]) == Left(w.c, w.collections[x]);
    }
  }

  lemma NextKeeps(w: World, e: Event, w': World)
    requires Inv(w) && Alone(w) && Next(w, e, w') && Alone(w')
    ensures Inv(w')
  {
    match e
    case System(s) =>
      StepProtects(w.c, s, w'.c);
      if w.collections != map[] {
        if s.Damage? {
          DamageKeeps(w, s.place, w');
        }
      }
    case Check(k) =>
    case List(k, records) => assert Covers(w'.c, w'.collections[k]);
    case Unlink(k, p) => UnlinkKeeps(w, k, p, w');
    case Read(k, named) => ReadKeeps(w, k, named, w');
    case Remove(k, id) => RemoveKeeps(w, k, id, w');
    case End(k) => EndKeeps(w, k, w');
    case Abort(k) =>
  }

  /** Any number of retentions, in steps, among each other and with everything else: as long as no
      operation is active while one of them is under way, no listed manifest loses an object. */
  lemma {:induction false} NothingLostWithoutOverlap(ws: seq<World>, es: seq<Event>, i: nat)
    requires Goes(ws, es) && i < |ws|
    requires Protected(ws[0].c) && ws[0].collections == map[]
    requires forall n :: 0 <= n < |ws| ==> Alone(ws[n])
    ensures Protected(ws[i].c) && Inv(ws[i])
    decreases i
  {
    if i > 0 {
      NothingLostWithoutOverlap(ws, es, i - 1);
      assert Next(ws[i - 1], es[i - 1], ws[i]);
      NextKeeps(ws[i - 1], es[i - 1], ws[i]);
    }
  }

  // ---- an operation that starts in between ----------------------------------------------------

  /** What one retention deletes after it has read what its list names, while operations come and
      go. */
  ghost predicate Sweep(ws: seq<World>, es: seq<Event>, k: nat) {
    Goes(ws, es) && forall e :: e in es ==> e.System? || (e.Remove? && e.k == k)
  }

  /** What the retention has read stays, wherever it is named. */
  ghost predicate ReadStays(c: Catalog, read: set<int>) {
    && (forall p :: Listed(c, p) && c.manifests[p].readable && c.manifests[p].refs <= read ==>
          c.manifests[p].refs <= c.objects.Keys)
    && (c.active.Some? ==> c.active.value.puts * read <= c.objects.Keys)
    && (c.active.Some? && c.active.value.published && c.active.value.place in c.manifests
        && c.manifests[c.active.value.place].readable ==>
          c.manifests[c.active.value.place].refs <= c.active.value.puts)
  }

  lemma SystemKeepsRead(c: Catalog, s: Step, c': Catalog, read: set<int>)
    requires StepTo(c, s, c') && !s.Retain? && ReadStays(c, read)
    ensures ReadStays(c', read)
  {
    forall p | Listed(c', p) && c'.manifests[p].readable && c'.manifests[p].refs <= read
      ensures c'.manifests[p].refs <= c'.objects.Keys
    {
      if c.active.Some? && p == c.active.value.place && (s.Publish? || s.Register?) {
        assert c'.manifests[p].refs <= c.active.value.puts * read;
      } else {
        assert Listed(c, p);
      }
    }
  }

  lemma {:induction false} SweepKeepsWhatItRead(ws: seq<World>, es: seq<Event>, k: nat, read: set<int>, i: nat)
    requires Sweep(ws, es, k) && i < |ws| && IsRemoving(ws[0], k) && ws[0].collections[k].read == Some(read)
    requires Protected(ws[0].c)
    ensures ws[i].collections == ws[0].collections && ReadStays(ws[i].c, read)
    decreases i
  {
    if i > 0 {
      SweepKeepsWhatItRead(ws, es, k, read, i - 1);
      var w, e, w' := ws[i - 1], es[i - 1], ws[i];
      assert Next(w, e, w') && e in es;
      if e.System? {
        SystemKeepsRead(w.c, e.step, w'.c, read);
      } else {
        assert forall p :: Listed(w'.c, p) <==> Listed(w.c, p);
      }
    }
  }

  /** The end of a sweep at which a new, listed, readable manifest lacks the object it names. */
  ghost predicate Loses(ws: seq<World>, es: seq<Event>, w: World, k: nat, place: Place, id: int) {
    && Sweep(ws, es, k) && ws[0] == w
    && var c := ws[|es|].c;
       && Listed(c, place) && c.manifests[place].readable && c.manifests[place].refs == {id}
       && id !in c.objects
  }

  /** Exactly which objects an operation can lose that starts while a retention deletes: those that
      the retention has not read as named by its list; whether they were there before or are new. */
  lemma StartedInBetweenLosesTheUnread(w: World, k: nat, n: nat, id: int)
    requires Protected(w.c) && w.c.active.None? && IsRemoving(w, k) && w.collections[k].read.Some?
    requires Own(n) !in w.c.manifests
    ensures (exists ws, es :: Loses(ws, es, w, k, Own(n), id)) <==> id !in w.collections[k].read.value
  {
    var read := w.collections[k].read.value;
    if id in read {
      forall ws, es ensures !Loses(ws, es, w, k, Own(n), id) {
        if Sweep(ws, es, k) && ws[0] == w {
          SweepKeepsWhatItRead(ws, es, k, read, |es|);
          assert {id} <= read;
        }
      }
    } else {
      LosingSweep(w, k, n, id);
    }
  }

  lemma GoesOn(ws: seq<World>, es: seq<Event>, ws': seq<World>, es': seq<Event>)
    requires Goes(ws, es) && Goes(ws', es') && ws[|es|] == ws'[0]
    ensures Goes(ws + ws'[1..], es + es')
  {
    var all, steps := ws + ws'[1..], es + es';
    forall i | 0 <= i < |steps| ensures Next(all[i], steps[i], all[i + 1]) {
      if i >= |es| {
        assert Next(ws'[i - |es|], es'[i - |es|], ws'[i - |es| + 1]);
      }
    }
  }

  /** What the operation does: it puts one object, publishes a manifest of it, and finishes. */
  lemma OneBackup(c: Catalog, n: nat, id: int) returns (cs: seq<Catalog>, steps: seq<Step>)
    requires c.active.None? && Own(n) !in c.manifests
    ensures |cs| == |steps| + 1 && cs[0] == c && forall i :: 0 <= i < |steps| ==> !steps[i].Retain? && StepTo(cs[i], steps[i], cs[i + 1])
    ensures var last := cs[|steps|];
            && Listed(last, Own(n)) && last.manifests[Own(n)].readable && last.manifests[Own(n)].refs == {id}
            && id in last.objects
  {
    var p, m := Own(n), Manifest(0, true, {id}, 1);
    var c1 := c.(active := Some(Active(p, {}, false)));
    var c2 := c1.(objects := if id in c.objects then c.objects else c.objects[id := 1], active := Some(Active(p, {id}, false)));
    var c3 := c2.(manifests := c.manifests[p := m], active := Some(Active(p, {id}, true)));
    assert {} + {id} == {id};
    assert StepTo(c1, Put(id, 1), c2) && StepTo(c2, Publish(m), c3);
    cs := [c, c1, c2, c3, c3.(active := None)];
    steps := [Start(p), Put(id, 1), Publish(m), Finish];
  }

  lemma LosingSweep(w: World, k: nat, n: nat, id: int)
    requires w.c.active.None? && IsRemoving(w, k) && w.collections[k].read.Some?
    requires Own(n) !in w.c.manifests && id !in w.collections[k].read.value
    ensures exists ws, es :: Loses(ws, es, w, k, Own(n), id)
  {
    var cs, steps := OneBackup(w.c, n, id);
    var ws := seq(|cs|, i requires 0 <= i < |cs| => w.(c := cs[i]));
    var es := seq(|steps|, i requires 0 <= i < |steps| => System(steps[i]));
    var last := ws[|es|];
    var lost := last.(c := last.c.(objects := last.c.objects - {id}));
    assert Goes(ws, es);
    assert Next(last, Remove(k, id), lost);
    assert Goes([last, lost], [Remove(k, id)]);
    GoesOn(ws, es, [last, lost], [Remove(k, id)]);
    assert Loses(ws + [last, lost][1..], es + [Remove(k, id)], w, k, Own(n), id);
  }

  lemma ReachesASweep(c: Catalog, records: seq<Place>) returns (ws: seq<World>, es: seq<Event>, read: set<int>)
    requires c.active.None? && Listing(c, records) && AllReadable(c, records)
    ensures Goes(ws, es) && ws[0] == World(c, map[])
    ensures ws[|es|] == World(c, map[0 := Removing(records, {}, Some(read))])
    ensures forall id :: id in read <==> Referenced(c, records, id)
  {
    read := set p, x | p in records && p in c.manifests && x in c.manifests[p].refs :: x;
    ws := [World(c, map[]), World(c, map[0 := Checked]), World(c, map[0 := Removing(records, {}, None)]),
           World(c, map[0 := Removing(records, {}, Some(read))])];
    es := [Check(0), List(0, records), Read(0, read)];
    assert Next(ws[0], es[0], ws[1]) && Next(ws[1], es[1], ws[2]) && Next(ws[2], es[2], ws[3]);
  }

  /** It happens: from every catalog in which nothing is lost or active and every listed manifest
      reads, a retention and an operation that starts after it has read lose any object that no
      listed manifest names, although a listed manifest names it in the end. */
  lemma EveryCatalogCanLose(c: Catalog, records: seq<Place>, n: nat, id: int)
    requires Protected(c) && c.active.None? && Listing(c, records) && AllReadable(c, records)
    requires Own(n) !in c.manifests && !Referenced(c, records, id)
    ensures exists ws: seq<World>, es: seq<Event> ::
      && Goes(ws, es) && ws[0] == World(c, map[])
      && var last := ws[|es|].c;
         Listed(last, Own(n)) && last.manifests[Own(n)].readable && last.manifests[Own(n)].refs == {id} && id !in last.objects
  {
    var ws, es, read := ReachesASweep(c, records);
    var w := ws[|es|];
    LosingSweep(w, 0, n, id);
    var ws', es' :| Loses(ws', es', w, 0, Own(n), id);
    GoesOn(ws, es, ws', es');
    assert (ws + ws'[1..])[|es + es'|] == ws'[|es'|];
  }

  /** The end of a retention writes its own list back as the index: a manifest registered in between
      stays listed exactly if it lies in the backup directory, where list() finds it anyway. */
  lemma EndForgetsRegistrations(w: World, k: nat, w1: World, w2: World)
    requires IsRemoving(w, k) && w.c.active.Some? && w.c.active.value.published
    requires var p := w.c.active.value.place;
             p !in w.collections[k].records && p in w.c.manifests && w.c.manifests[p].readable
    requires Next(w, System(Register), w1) && Next(w1, End(k), w2)
    ensures var p := w.c.active.value.place; Listed(w1.c, p) && (Listed(w2.c, p) <==> p.Own?)
  {
    var p := w.c.active.value.place;
    assert p !in Left(w1.c, w1.collections[k]);
  }
}
