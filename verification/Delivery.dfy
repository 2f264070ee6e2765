/** Ordered delivery of durable events over a lossy bus: the replay, gap-fill and live loop of
    the events socket (gateway/api.py). */
module Delivery {
  import opened Wrappers

  /** Streams, payloads, clients and events are told apart by number. */
  type Name = nat

  /** A durable event of a stream. Events without a stream are never sent. */
  datatype Event = Event(stream: Option<Name>, sequence: int, payload: Name)

  /** The append-only store: event n of a stream is at index n - 1. */
  type Store = map<Name, seq<Name>>

  function Length(store: Store, s: Name): nat {
    if s in store then |store[s]| else 0
  }

  predicate Durable(store: Store, e: Event) {
    e.stream.Some? ==>
      1 <= e.sequence <= Length(store, e.stream.value) && e.payload == store[e.stream.value][e.sequence - 1]
  }

  predicate Grows(old': Store, new': Store) {
    forall s :: s in old' ==> s in new' && old'[s] <= new'[s]
  }

  /** Events lo+1 .. hi of a stream. */
  function Between(store: Store, s: Name, lo: int, hi: int): (es: seq<Event>)
    requires lo < hi ==> 0 <= lo && hi <= Length(store, s)
    ensures |es| == if lo < hi then hi - lo else 0
  {
    if hi <= lo then []
    else seq(hi - lo, i requires 0 <= i < hi - lo => Event(Some(s), lo + i + 1, store[s][lo + i]))
  }

  function Max(a: int, b: int): int {
    if a < b then b else a
  }

  /** stream_events: everything stored after a cursor. */
  function StreamEvents(store: Store, s: Name, after: int): seq<Event> {
    Between(store, s, Max(after, 0), Length(store, s))
  }

  datatype Socket = Socket(last: map<Name, int>, sent: seq<Event>)

  function ReplayStream(k: Socket, store: Store, s: Name): Socket
    requires s in k.last
  {
    Socket(k.last[s := if StreamEvents(store, s, k.last[s]) == [] then k.last[s] else Length(store, s)],
           k.sent + StreamEvents(store, s, k.last[s]))
  }

  function Previous(k: Socket, s: Name): int {
    if s in k.last then k.last[s] else 0
  }

  /** What one event from the bus makes the socket send: on a stream it follows, the missing
      events and then this one; nothing when it is behind. */
  function Forward(k: Socket, store: Store, e: Event): Socket
    requires Durable(store, e)
  {
    if e.stream.None? || e.sequence <= Previous(k, e.stream.value) then k
    else
      var s := e.stream.value;
      var missing := if s in k.last then Between(store, s, Max(k.last[s], 0), e.sequence - 1) else [];
      Socket(k.last[s := e.sequence], k.sent + missing + [e])
  }

  function OnStream(es: seq<Event>, s: Name): seq<Event> {
    if es == [] then []
    else
      var rest := OnStream(es[..|es| - 1], s);
      if es[|es| - 1].stream == Some(s) then rest + [es[|es| - 1]] else rest
  }

  lemma {:induction false} OnStreamAppend(a: seq<Event>, b: seq<Event>, s: Name)
    ensures OnStream(a + b, s) == OnStream(a, s) + OnStream(b, s)
    decreases |b|
  {
    if b == [] {
      assert a + b == a;
    } else {
      var c := b[..|b| - 1];
      assert (a + b)[..|a + b| - 1] == a + c;
      OnStreamAppend(a, c, s);
    }
  }

  lemma {:induction false} OnStreamUniform(es: seq<Event>, t: Name, s: Name)
    requires forall e :: e in es ==> e.stream == Some(t)
    ensures OnStream(es, s) == if s == t then es else []
    decreases |es|
  {
    if es != [] {
      OnStreamUniform(es[..|es| - 1], t, s);
      assert es == es[..|es| - 1] + [es[|es| - 1]];
    }
  }

  lemma BetweenSplits(store: Store, s: Name, lo: int, mid: int, hi: int)
    requires 0 <= lo <= mid <= hi <= Length(store, s)
    ensures Between(store, s, lo, hi) == Between(store, s, lo, mid) + Between(store, s, mid, hi)
  {
  }

  lemma BetweenGrows(store: Store, store': Store, s: Name, lo: int, hi: int)
    requires Grows(store, store') && (lo < hi ==> 0 <= lo && hi <= Length(store, s))
    ensures lo < hi ==> hi <= Length(store', s)
    ensures Between(store, s, lo, hi) == Between(store', s, lo, hi)
  {
    if lo < hi {
      assert store[s] <= store'[s];
    }
  }

  /** The promise: on every stream the socket follows it has sent exactly the stored events
      from the stream's base up to the last one sent, once each and in order. */
  predicate InOrder(k: Socket, store: Store, base: map<Name, int>, s: Name) {
    && s in k.last && s in base && base[s] <= k.last[s] <= Max(base[s], Length(store, s))
    && (k.last[s] > Max(base[s], 0) ==> k.last[s] <= Length(store, s))
    && OnStream(k.sent, s) == Between(store, s, Max(base[s], 0), k.last[s])
  }

  predicate AllInOrder(k: Socket, store: Store, base: map<Name, int>) {
    && k.last.Keys == base.Keys
    && (forall s :: s in base ==> InOrder(k, store, base, s))
    && (forall e :: e in k.sent && e.stream.Some? ==> e.stream.value in base)
  }

  lemma SendElsewhere(k: Socket, store: Store, base: map<Name, int>, t: Name, hi: int, es: seq<Event>, s: Name)
    requires InOrder(k, store, base, s) && s != t && forall e :: e in es ==> e.stream == Some(t)
    ensures InOrder(Socket(k.last[t := hi], k.sent + es), store, base, s)
  {
    OnStreamAppend(k.sent, es, s);
    OnStreamUniform(es, t, s);
  }

  lemma SendHere(k: Socket, store: Store, base: map<Name, int>, t: Name, hi: int, es: seq<Event>)
    requires InOrder(k, store, base, t)
    requires k.last[t] <= hi && Max(k.last[t], 0) < hi ==> hi <= Length(store, t)
    requires k.last[t] <= hi && es == Between(store, t, Max(k.last[t], 0), hi)
    requires hi > k.last[t] ==> hi > Max(k.last[t], 0)
    ensures InOrder(Socket(k.last[t := hi], k.sent + es), store, base, t)
  {
    OnStreamAppend(k.sent, es, t);
    OnStreamUniform(es, t, t);
    var from, last := Max(base[t], 0), k.last[t];
    if hi > last {
      if last > from {
        assert Max(last, 0) == last;
        BetweenSplits(store, t, from, last, hi);
      } else {
        assert Max(last, 0) == from && OnStream(k.sent, t) == [];
      }
      assert OnStream(k.sent + es, t) == Between(store, t, from, hi);
    } else {
      assert es == [];
    }
  }

  lemma SendOn(k: Socket, store: Store, base: map<Name, int>, t: Name, hi: int, es: seq<Event>)
    requires AllInOrder(k, store, base) && t in base
    requires k.last[t] <= hi && Max(k.last[t], 0) < hi ==> hi <= Length(store, t)
    requires k.last[t] <= hi && es == Between(store, t, Max(k.last[t], 0), hi)
    requires hi > k.last[t] ==> hi > Max(k.last[t], 0)
    ensures AllInOrder(Socket(k.last[t := hi], k.sent + es), store, base)
  {
    var k' := Socket(k.last[t := hi], k.sent + es);
    assert InOrder(k, store, base, t);
    SendHere(k, store, base, t, hi, es);
    forall s | s in base && s != t ensures InOrder(k', store, base, s) {
      assert InOrder(k, store, base, s);
      SendElsewhere(k, store, base, t, hi, es, s);
    }
  }

  lemma StoreGrowth(k: Socket, store: Store, store': Store, base: map<Name, int>)
    requires AllInOrder(k, store, base) && Grows(store, store')
    ensures AllInOrder(k, store', base)
  {
    forall s | s in base ensures InOrder(k, store', base, s) {
      assert InOrder(k, store, base, s);
      BetweenGrows(store, store', s, Max(base[s], 0), k.last[s]);
      if s in store {
        assert store[s] <= store'[s];
      }
    }
  }

  lemma ReplayInOrder(k: Socket, store: Store, base: map<Name, int>, s: Name)
    requires AllInOrder(k, store, base) && s in base
    ensures AllInOrder(ReplayStream(k, store, s), store, base)
    ensures ReplayStream(k, store, s).last[s] >= Length(store, s)
            || (Length(store, s) == 0 && ReplayStream(k, store, s).last[s] == k.last[s])
  {
    var es := StreamEvents(store, s, k.last[s]);
    SendOn(k, store, base, s, if es == [] then k.last[s] else Length(store, s), es);
  }

  /** A stream not followed before starts at the first event that arrives. */
  function Extend(base: map<Name, int>, e: Event): map<Name, int> {
    if e.stream.None? || e.stream.value in base then base else base[e.stream.value := e.sequence - 1]
  }

  lemma {:induction false} OnStreamEmpty(es: seq<Event>, s: Name)
    requires forall e :: e in es ==> e.stream != Some(s)
    ensures OnStream(es, s) == []
    decreases |es|
  {
    if es != [] {
      OnStreamEmpty(es[..|es| - 1], s);
    }
  }

  /** On a stream it follows, the socket sends the stored events up to the one that arrived. */
  lemma ForwardSends(k: Socket, store: Store, e: Event)
    requires Durable(store, e)
    requires e.stream.Some? && e.stream.value in k.last && e.sequence > k.last[e.stream.value]
    ensures var s := e.stream.value;
            Forward(k, store, e) == Socket(k.last[s := e.sequence], k.sent + Between(store, s, Max(k.last[s], 0), e.sequence))
  {
    var s := e.stream.value;
    var lo := Max(k.last[s], 0);
    GapAndEvent(store, s, lo, e);
    var missing := Between(store, s, lo, e.sequence - 1);
    assert (k.sent + missing) + [e] == k.sent + (missing + [e]);
  }

  lemma ForwardFollowed(k: Socket, store: Store, base: map<Name, int>, e: Event)
    requires AllInOrder(k, store, base) && Durable(store, e)
    requires e.stream.Some? && e.stream.value in k.last && e.sequence > k.last[e.stream.value]
    ensures AllInOrder(Forward(k, store, e), store, base)
  {
    var s := e.stream.value;
    var lo := Max(k.last[s], 0);
    assert InOrder(k, store, base, s);
    ForwardSends(k, store, e);
    SendOn(k, store, base, s, e.sequence, Between(store, s, lo, e.sequence));
  }

  /** The gap before an event, and the event, are the stored events up to it. */
  lemma GapAndEvent(store: Store, s: Name, lo: int, e: Event)
    requires e.stream == Some(s) && Durable(store, e) && 0 <= lo < e.sequence
    ensures Between(store, s, lo, e.sequence) == Between(store, s, lo, e.sequence - 1) + [e]
  {
    BetweenSplits(store, s, lo, e.sequence - 1, e.sequence);
    assert Between(store, s, e.sequence - 1, e.sequence) == [e];
  }

  lemma JustTheEvent(store: Store, s: Name, e: Event)
    requires e.stream == Some(s) && Durable(store, e)
    ensures Between(store, s, e.sequence - 1, e.sequence) == [e]
  {
  }

  lemma FollowNewStream(k: Socket, store: Store, base: map<Name, int>, s: Name, at: int)
    requires AllInOrder(k, store, base) && s !in base && at >= 0
    ensures AllInOrder(Socket(k.last[s := at], k.sent), store, base[s := at])
  {
    var k', base' := Socket(k.last[s := at], k.sent), base[s := at];
    forall t | t in base' ensures InOrder(k', store, base', t) {
      if t == s {
        OnStreamEmpty(k.sent, s);
      } else {
        assert InOrder(k, store, base, t);
      }
    }
  }

  /** On a stream it did not follow, the socket sends just the event that arrived. */
  lemma ForwardStarts(k: Socket, store: Store, e: Event)
    requires Durable(store, e) && e.stream.Some? && e.stream.value !in k.last
    ensures Forward(k, store, e) == Socket(k.last[e.stream.value := e.sequence], k.sent + [e])
  {
    assert k.sent + [] + [e] == k.sent + [e];
  }

  lemma ForwardNew(k: Socket, store: Store, base: map<Name, int>, e: Event)
    requires AllInOrder(k, store, base) && Durable(store, e)
    requires e.stream.Some? && e.stream.value !in k.last
    ensures AllInOrder(Forward(k, store, e), store, base[e.stream.value := e.sequence - 1])
  {
    var s, at := e.stream.value, e.sequence - 1;
    var followed := Socket(k.last[s := at], k.sent);
    FollowNewStream(k, store, base, s, at);
    JustTheEvent(store, s, e);
    SendOn(followed, store, base[s := at], s, e.sequence, [e]);
    assert followed.last[s := e.sequence] == k.last[s := e.sequence];
    ForwardStarts(k, store, e);
  }

  lemma ForwardNothing(k: Socket, store: Store, base: map<Name, int>, e: Event)
    requires AllInOrder(k, store, base) && Durable(store, e)
    requires e.stream.None? || (e.stream.value in k.last && e.sequence <= k.last[e.stream.value])
    ensures Forward(k, store, e) == k && Extend(base, e) == base
  {
  }

  lemma ForwardInOrder(k: Socket, store: Store, base: map<Name, int>, e: Event)
    requires AllInOrder(k, store, base) && Durable(store, e)
    ensures AllInOrder(Forward(k, store, e), store, Extend(base, e))
  {
    if e.stream.None? || (e.stream.value in k.last && e.sequence <= k.last[e.stream.value]) {
      ForwardNothing(k, store, base, e);
    } else if e.stream.value in k.last {
      ForwardFollowed(k, store, base, e);
    } else {
      ForwardNew(k, store, base, e);
    }
  }

  /** One delivery of the bus and the store as it is then. */
  datatype Arrival = Arrival(event: Event, store: Store)

  /** The bus may drop, repeat and reorder, but what it delivers is in the store, and the store
      only grows. */
  predicate Plausible(store: Store, arrivals: seq<Arrival>)
    decreases |arrivals|
  {
    arrivals == [] ||
    (Grows(store, arrivals[0].store) && Durable(arrivals[0].store, arrivals[0].event)
     && Plausible(arrivals[0].store, arrivals[1..]))
  }

  function Live(k: Socket, store: Store, arrivals: seq<Arrival>): Socket
    requires Plausible(store, arrivals)
    decreases |arrivals|
  {
    if arrivals == [] then k
    else Live(Forward(k, arrivals[0].store, arrivals[0].event), arrivals[0].store, arrivals[1..])
  }

  function Bases(base: map<Name, int>, arrivals: seq<Arrival>): map<Name, int>
    decreases |arrivals|
  {
    if arrivals == [] then base else Bases(Extend(base, arrivals[0].event), arrivals[1..])
  }

  function FinalStore(store: Store, arrivals: seq<Arrival>): Store {
    if arrivals == [] then store else arrivals[|arrivals| - 1].store
  }

  /** Exactly-once, in order and gap-free, for every arrival sequence. */
  lemma {:induction false} OrderedExactlyOnce(k: Socket, store: Store, base: map<Name, int>, arrivals: seq<Arrival>)
    requires AllInOrder(k, store, base) && Plausible(store, arrivals)
    ensures AllInOrder(Live(k, store, arrivals), FinalStore(store, arrivals), Bases(base, arrivals))
    decreases |arrivals|
  {
    if arrivals != [] {
      var a := arrivals[0];
      StoreGrowth(k, store, a.store, base);
      ForwardInOrder(k, a.store, base, a.event);
      OrderedExactlyOnce(Forward(k, a.store, a.event), a.store, Extend(base, a.event), arrivals[1..]);
    }
  }

  lemma {:induction false} BasesAreKept(base: map<Name, int>, arrivals: seq<Arrival>, s: Name)
    requires s in base
    ensures s in Bases(base, arrivals) && Bases(base, arrivals)[s] == base[s]
    decreases |arrivals|
  {
    if arrivals != [] {
      BasesAreKept(Extend(base, arrivals[0].event), arrivals[1..], s);
    }
  }

  lemma {:induction false} CursorsAdvance(k: Socket, store: Store, arrivals: seq<Arrival>, s: Name)
    requires Plausible(store, arrivals) && s in k.last
    ensures s in Live(k, store, arrivals).last && k.last[s] <= Live(k, store, arrivals).last[s]
    decreases |arrivals|
  {
    if arrivals != [] {
      CursorsAdvance(Forward(k, arrivals[0].store, arrivals[0].event), arrivals[0].store, arrivals[1..], s);
    }
  }

  /** Each event that arrives is behind the cursor in the end: one arrival repairs every
      earlier loss on its stream. */
  lemma {:induction false} ArrivalsCatchUp(k: Socket, store: Store, arrivals: seq<Arrival>, i: nat)
    requires Plausible(store, arrivals) && i < |arrivals| && arrivals[i].event.stream.Some?
    ensures arrivals[i].event.sequence <= Previous(Live(k, store, arrivals), arrivals[i].event.stream.value)
    decreases |arrivals|
  {
    var k' := Forward(k, arrivals[0].store, arrivals[0].event);
    if i == 0 {
      CursorsAdvance(k', arrivals[0].store, arrivals[1..], arrivals[0].event.stream.value);
    } else {
      ArrivalsCatchUp(k', arrivals[0].store, arrivals[1..], i - 1);
    }
  }

  /** The cursors the client presents when the socket opens. */
  function Opened(cursors: map<Name, int>): Socket {
    Socket(cursors, [])
  }

  lemma OpenedInOrder(cursors: map<Name, int>, store: Store)
    ensures AllInOrder(Opened(cursors), store, cursors)
  {
  }

  class EventSocket {
    var last: map<Name, int>
    var sent: seq<Event>

    ghost function View(): Socket
      reads this
    {
      Socket(last, sent)
    }

    constructor (cursors: map<Name, int>)
      ensures View() == Opened(cursors)
    {
      last, sent := cursors, [];
    }

    method Replay(store: Store, s: Name)
      requires s in last
      modifies this
      ensures View() == ReplayStream(old(View()), store, s)
    {
      var events := StreamEvents(store, s, last[s]);
      ghost var before, start := sent, last;
      var i := 0;
      while i < |events|
        invariant 0 <= i <= |events| && sent == before + events[..i]
        invariant last == if i == 0 then start else start[s := events[i - 1].sequence]
      {
        sent := sent + [events[i]];
        last := last[s := Max(last[s], events[i].sequence)];
        i := i + 1;
      }
      assert events[..|events|] == events;
      if events == [] {
        assert start[s := start[s]] == start;
      }
    }

    method ForwardEvent(store: Store, e: Event)
      requires Durable(store, e)
      modifies this
      ensures View() == Forward(old(View()), store, e)
    {
      if e.stream.None? {
        return;
      }
      var s := e.stream.value;
      var previous := if s in last then last[s] else 0;
      if s in last && e.sequence <= previous {
        return;
      }
      ghost var before, start := sent, last;
      if s in last && e.sequence > previous + 1 {
        var events := StreamEvents(store, s, previous);
        var from := Max(previous, 0);
        var i := 0;
        while i < |events| && events[i].sequence < e.sequence
          invariant 0 <= i <= |events| && i <= e.sequence - 1 - from
          invariant sent == before + events[..i]
          invariant last == if i == 0 then start else start[s := from + i]
        {
          sent := sent + [events[i]];
          last := last[s := events[i].sequence];
          i := i + 1;
        }
        assert events[..i] == Between(store, s, from, e.sequence - 1);
      } else if s in last {
        assert Between(store, s, Max(previous, 0), e.sequence - 1) == [];
      }
      if e.sequence <= (if s in last then last[s] else 0) {
        return;
      }
      sent := sent + [e];
      last := last[s := e.sequence];
    }

    /** The whole of one connection: replay every subscribed stream, then follow the bus. */
    method Serve(streams: seq<Name>, store: Store, arrivals: seq<Arrival>)
      requires forall s :: s in streams <==> s in last
      requires sent == [] && Plausible(store, arrivals)
      modifies this
      ensures AllInOrder(View(), FinalStore(store, arrivals), Bases(old(last), arrivals))
      ensures forall s :: s in streams ==> InOrder(View(), FinalStore(store, arrivals), old(last), s)
    {
      ghost var base := last;
      OpenedInOrder(base, store);
      var i := 0;
      while i < |streams|
        invariant 0 <= i <= |streams| && AllInOrder(View(), store, base)
      {
        ReplayInOrder(View(), store, base, streams[i]);
        Replay(store, streams[i]);
        i := i + 1;
      }
      ghost var k := View();
      OrderedExactlyOnce(k, store, base, arrivals);
      forall s | s in streams
        ensures InOrder(Live(k, store, arrivals), FinalStore(store, arrivals), base, s)
      {
        BasesAreKept(base, arrivals, s);
        assert InOrder(Live(k, store, arrivals), FinalStore(store, arrivals), Bases(base, arrivals), s);
      }
      ghost var now := store;
      i := 0;
      assert arrivals[0..] == arrivals;
      while i < |arrivals|
        invariant 0 <= i <= |arrivals| && Plausible(now, arrivals[i..])
        invariant Live(k, store, arrivals) == Live(View(), now, arrivals[i..])
      {
        assert arrivals[i..][0] == arrivals[i] && arrivals[i..][1..] == arrivals[i + 1..];
        ForwardEvent(arrivals[i].store, arrivals[i].event);
        now := arrivals[i].store;
        i := i + 1;
      }
    }
  }
}

/** The in-memory bus (gateway/events.py): bounded queues, drop on full, bounded memory of ids. */
module EventBus {
  import opened Wrappers
  import D = Delivery

  type Name = D.Name

  datatype Message = Message(id: Name, event: D.Event)

  datatype Subscription = Subscription(client: Name, queue: seq<Message>, streams: set<Name>)

  const REMEMBERED := 100000

  predicate Wants(sub: Subscription, m: Message) {
    sub.streams == {} || (m.event.stream.Some? && m.event.stream.value in sub.streams)
  }

  /** A full queue drops the message; nobody waits. */
  function Offer(sub: Subscription, m: Message, size: nat): Subscription {
    if Wants(sub, m) && |sub.queue| < size then sub.(queue := sub.queue + [m]) else sub
  }

  /** Every queued message is durable, wanted by its subscriber, and the queue is bounded. */
  predicate Sound(sub: Subscription, store: D.Store, size: nat) {
    && |sub.queue| <= size
    && forall m :: m in sub.queue ==> D.Durable(store, m.event) && Wants(sub, m)
  }

  lemma StillDurable(store: D.Store, store': D.Store, e: D.Event)
    requires D.Grows(store, store') && D.Durable(store, e)
    ensures D.Durable(store', e)
  {
    if e.stream.Some? && e.stream.value in store {
      assert store[e.stream.value] <= store'[e.stream.value];
    }
  }

  lemma StillSound(sub: Subscription, store: D.Store, store': D.Store, size: nat)
    requires Sound(sub, store, size) && D.Grows(store, store')
    ensures Sound(sub, store', size)
  {
    forall m | m in sub.queue ensures D.Durable(store', m.event) {
      StillDurable(store, store', m.event);
    }
  }

  lemma OfferIsSound(sub: Subscription, m: Message, store: D.Store, store': D.Store, size: nat)
    requires Sound(sub, store, size) && D.Grows(store, store') && D.Durable(store', m.event)
    ensures Sound(Offer(sub, m, size), store', size)
  {
    StillSound(sub, store, store', size);
    assert forall x :: x in Offer(sub, m, size).queue ==> x in sub.queue || x == m;
  }

  predicate AllSound(subs: map<nat, Subscription>, store: D.Store, size: nat) {
    forall id :: id in subs ==> Sound(subs[id], store, size)
  }

  lemma StillAllSound(subs: map<nat, Subscription>, store: D.Store, store': D.Store, size: nat)
    requires AllSound(subs, store, size) && D.Grows(store, store')
    ensures AllSound(subs, store', size)
  {
    forall id | id in subs ensures Sound(subs[id], store', size) {
      StillSound(subs[id], store, store', size);
    }
  }

  lemma OfferedAreSound(subs: map<nat, Subscription>, subs': map<nat, Subscription>, m: Message, store: D.Store, size: nat)
    requires AllSound(subs, store, size) && D.Durable(store, m.event)
    requires subs'.Keys == subs.Keys && forall id :: id in subs' ==> subs'[id] == Offer(subs[id], m, size)
    ensures AllSound(subs', store, size)
  {
    assert D.Grows(store, store);
    forall id | id in subs' ensures Sound(subs'[id], store, size) {
      OfferIsSound(subs[id], m, store, store, size);
    }
  }

  // ---- what a subscriber takes from its queue -----------------------------------------------

  /** What happens to one subscription: a message is offered, already durable in the store of that
      moment, or its socket takes the next one. */
  datatype Happening = Offered(m: Message, store: D.Store) | Taken(store: D.Store)

  predicate Honest(store: D.Store, hs: seq<Happening>)
    decreases |hs|
  {
    hs == [] ||
    (D.Grows(store, hs[0].store) && (hs[0].Offered? ==> D.Durable(hs[0].store, hs[0].m.event)) && Honest(hs[0].store, hs[1..]))
  }

  /** What the socket receives, each with the store of that moment. */
  function Drained(sub: Subscription, size: nat, hs: seq<Happening>): seq<D.Arrival>
    decreases |hs|
  {
    if hs == [] then []
    else match hs[0]
      case Offered(m, _) => Drained(Offer(sub, m, size), size, hs[1..])
      case Taken(now) =>
        if sub.queue == [] then Drained(sub, size, hs[1..])
        else [D.Arrival(sub.queue[0].event, now)] + Drained(sub.(queue := sub.queue[1..]), size, hs[1..])
  }

  lemma GrowsOn(a: D.Store, b: D.Store, c: D.Store)
    requires D.Grows(a, b) && D.Grows(b, c)
    ensures D.Grows(a, c)
  {
    forall s | s in a ensures s in c && a[s] <= c[s] {
      assert a[s] <= b[s] <= c[s];
    }
  }

  /** Whatever is offered, dropped and taken, in whatever order: what a subscriber receives is what
      the socket relies on, durable events of a store that only grows. */
  lemma {:induction false} DrainedIsPlausible(sub: Subscription, size: nat, before: D.Store, store: D.Store, hs: seq<Happening>)
    requires Sound(sub, store, size) && D.Grows(before, store) && Honest(store, hs)
    ensures D.Plausible(before, Drained(sub, size, hs))
    decreases |hs|
  {
    if hs != [] {
      var now := hs[0].store;
      GrowsOn(before, store, now);
      match hs[0] {
        case Offered(m, _) =>
          OfferIsSound(sub, m, store, now, size);
          DrainedIsPlausible(Offer(sub, m, size), size, before, now, hs[1..]);
        case Taken(_) =>
          StillSound(sub, store, now, size);
          if sub.queue == [] {
            DrainedIsPlausible(sub, size, before, now, hs[1..]);
          } else {
            var rest := sub.(queue := sub.queue[1..]);
            assert sub.queue[0] in sub.queue;
            DrainedIsPlausible(rest, size, now, now, hs[1..]);
            assert Drained(sub, size, hs)[1..] == Drained(rest, size, hs[1..]);
          }
      }
    }
  }

  /** An offer appends the message exactly if the subscriber wants it, which it does if it follows no
      stream in particular or this one, and its queue has room. */
  lemma OffersAreQueued(sub: Subscription, m: Message, size: nat)
    ensures var sub' := Offer(sub, m, size);
            && sub'.client == sub.client && sub'.streams == sub.streams
            && (sub'.queue == sub.queue + [m] || sub'.queue == sub.queue)
            && (sub'.queue != sub.queue <==>
                  |sub.queue| < size && (sub.streams == {} || (m.event.stream.Some? && m.event.stream.value in sub.streams)))
  {
  }

  function Takes(store: D.Store, n: nat): seq<Happening> {
    seq(n, _ => Taken(store))
  }

  function EventsOf(queue: seq<Message>, store: D.Store): seq<D.Arrival> {
    seq(|queue|, i requires 0 <= i < |queue| => D.Arrival(queue[i].event, store))
  }

  lemma {:induction false} TakingAll(sub: Subscription, size: nat, store: D.Store)
    ensures Drained(sub, size, Takes(store, |sub.queue|)) == EventsOf(sub.queue, store)
    decreases |sub.queue|
  {
    if sub.queue != [] {
      var rest := sub.(queue := sub.queue[1..]);
      TakingAll(rest, size, store);
      assert Takes(store, |sub.queue|)[1..] == Takes(store, |rest.queue|);
      assert EventsOf(sub.queue, store) == [D.Arrival(sub.queue[0].event, store)] + EventsOf(rest.queue, store);
    }
  }

  /** A wanted message that finds room is received: after everything before it in the queue, and
      only then. */
  lemma OfferedIsReceived(sub: Subscription, m: Message, size: nat, store: D.Store)
    requires Wants(sub, m) && |sub.queue| < size
    ensures Drained(sub, size, [Offered(m, store)] + Takes(store, |sub.queue| + 1))
              == EventsOf(sub.queue, store) + [D.Arrival(m.event, store)]
  {
    var hs := [Offered(m, store)] + Takes(store, |sub.queue| + 1);
    assert hs[1..] == Takes(store, |sub.queue| + 1);
    TakingAll(Offer(sub, m, size), size, store);
  }

  /** The socket behind a bounded, dropping queue: on every stream it follows it still sends exactly
      the stored events from the base up to its cursor, once each and in order; and no event that
      it received is ahead of its cursor. */
  lemma BusAndSocketInOrder(sub: Subscription, size: nat, k: D.Socket, store: D.Store, base: map<Name, int>, hs: seq<Happening>)
    requires sub.queue == [] && D.AllInOrder(k, store, base) && Honest(store, hs)
    ensures var arrivals := Drained(sub, size, hs);
            && D.Plausible(store, arrivals)
            && D.AllInOrder(D.Live(k, store, arrivals), D.FinalStore(store, arrivals), D.Bases(base, arrivals))
            && forall i :: 0 <= i < |arrivals| && arrivals[i].event.stream.Some? ==>
                 arrivals[i].event.sequence <= D.Previous(D.Live(k, store, arrivals), arrivals[i].event.stream.value)
  {
    var arrivals := Drained(sub, size, hs);
    assert D.Grows(store, store);
    DrainedIsPlausible(sub, size, store, store, hs);
    D.OrderedExactlyOnce(k, store, base, arrivals);
    forall i | 0 <= i < |arrivals| && arrivals[i].event.stream.Some?
      ensures arrivals[i].event.sequence <= D.Previous(D.Live(k, store, arrivals), arrivals[i].event.stream.value)
    {
      D.ArrivalsCatchUp(k, store, arrivals, i);
    }
  }

  function Owned(subs: map<nat, Subscription>, client: Name): set<nat> {
    set id | id in subs && subs[id].client == client
  }

  lemma OwnedWith(subs: map<nat, Subscription>, id: nat, sub: Subscription)
    requires id !in subs
    ensures Owned(subs[id := sub], sub.client) == Owned(subs, sub.client) + {id}
    ensures |Owned(subs[id := sub], sub.client)| == |Owned(subs, sub.client)| + 1
    ensures forall c :: c != sub.client ==> Owned(subs[id := sub], c) == Owned(subs, c)
  {
    assert Owned(subs[id := sub], sub.client) == Owned(subs, sub.client) + {id};
  }

  /** A client's count is the number of its subscriptions, and only connected clients have one. */
  ghost predicate CountsFit(subs: map<nat, Subscription>, counts: map<Name, nat>) {
    && (forall c :: c in counts <==> Owned(subs, c) != {})
    && (forall c :: c in counts ==> counts[c] == |Owned(subs, c)|)
  }

  lemma OneMoreFits(subs: map<nat, Subscription>, counts: map<Name, nat>, id: nat, sub: Subscription)
    requires CountsFit(subs, counts) && id !in subs
    ensures CountsFit(subs[id := sub], counts[sub.client := (if sub.client in counts then counts[sub.client] else 0) + 1])
  {
    OwnedWith(subs, id, sub);
    assert id in Owned(subs[id := sub], sub.client);
  }

  lemma SameClientsFit(a: map<nat, Subscription>, b: map<nat, Subscription>, counts: map<Name, nat>)
    requires CountsFit(a, counts) && a.Keys == b.Keys && forall id :: id in a ==> a[id].client == b[id].client
    ensures CountsFit(b, counts)
  {
    assert forall c :: Owned(a, c) == Owned(b, c);
  }

  class GatewayEventBus {
    var subs: map<nat, Subscription>
    var counts: map<Name, nat>
    var nextId: nat
    var published: set<Name>
    const size: nat
    /** The durable store at the latest delivery. */
    ghost var store: D.Store

    /** The counts fit the subscriptions; every queue is bounded and holds only durable events that
        its subscriber wants. */
    ghost predicate Valid()
      reads this
    {
      && AllSound(subs, store, size)
      && CountsFit(subs, counts)
      && (forall id :: id in subs ==> id <= nextId)
    }

    constructor (size: nat)
      ensures Valid() && subs == map[] && published == {} && this.size == size
    {
      this.size := size;
      subs, counts, nextId, published := map[], map[], 0, {};
    }

    method Subscribe(client: Name, run: Option<Name>, streams: set<Name>) returns (id: nat)
      requires Valid()
      modifies this`subs, this`counts, this`nextId
      ensures Valid() && id !in old(subs)
      ensures subs == old(subs)[id := Subscription(client, [], if streams != {} then streams
                                                   else if run.Some? then {run.value} else {})]
    {
      nextId := nextId + 1;
      id := nextId;
      var selected := if streams != {} then streams else if run.Some? then {run.value} else {};
      OneMoreFits(subs, counts, id, Subscription(client, [], selected));
      subs := subs[id := Subscription(client, [], selected)];
      counts := counts[client := (if client in counts then counts[client] else 0) + 1];
    }

    method Unsubscribe(id: nat)
      requires Valid()
      modifies this`subs, this`counts
      ensures Valid() && subs == old(subs) - {id}
    {
      if id !in subs {
        assert subs - {id} == subs;
        return;
      }
      var client := subs[id].client;
      assert id in Owned(subs, client);
      subs := subs - {id};
      assert Owned(subs, client) == Owned(old(subs), client) - {id};
      assert forall c :: c != client ==> Owned(subs, c) == Owned(old(subs), c);
      assert |Owned(subs, client)| == |Owned(old(subs), client)| - 1;
      assert |Owned(subs, client)| == 0 ==> Owned(subs, client) == {};
      var remaining := (if client in counts then counts[client] else 1) - 1;
      if remaining <= 0 {
        counts := counts - {client};
      } else {
        counts := counts[client := remaining];
      }
    }

    method IsConnected(client: Name) returns (r: bool)
      requires Valid()
      ensures r <==> exists id :: id in subs && subs[id].client == client
    {
      r := client in counts && counts[client] > 0;
      if client in counts {
        var id :| id in Owned(subs, client);
        assert subs[id].client == client;
      } else {
        assert forall id :: id in subs && subs[id].client == client ==> id in Owned(subs, client);
      }
    }

    /** A new id is offered once to every subscription; a remembered one changes nothing. */
    method DeliverFromOutbox(m: Message, ghost now: D.Store)
      requires Valid() && D.Grows(store, now) && D.Durable(now, m.event)
      modifies this`subs, this`published, this`store
      ensures Valid() && subs.Keys == old(subs).Keys && store == now
      ensures m.id in old(published) ==> subs == old(subs) && published == old(published)
      ensures m.id !in old(published) ==> m.id in published && published <= old(published) + {m.id}
      ensures m.id !in old(published) ==> forall id :: id in subs ==> subs[id] == Offer(old(subs)[id], m, size)
      ensures |old(published)| <= REMEMBERED ==> |published| <= REMEMBERED
    {
      ghost var before, offered := store, subs;
      store := now;
      StillAllSound(subs, before, now, size);
      if m.id in published {
        return;
      }
      published := published + {m.id};
      if |published| > REMEMBERED {
        published := {m.id};
      }
      OfferToAll(m);
      OfferedAreSound(offered, subs, m, now, size);
      SameClientsFit(offered, subs, counts);
    }

    /** The socket takes the next message from its queue. */
    method Take(id: nat) returns (m: Option<Message>)
      requires Valid() && id in subs
      modifies this`subs
      ensures Valid() && subs.Keys == old(subs).Keys && (m.None? <==> old(subs)[id].queue == [])
      ensures m.None? ==> subs == old(subs)
      ensures m.Some? ==>
                && old(subs)[id].queue == [m.value] + subs[id].queue
                && subs == old(subs)[id := old(subs)[id].(queue := subs[id].queue)]
                && D.Durable(store, m.value.event) && Wants(old(subs)[id], m.value)
    {
      var queue := subs[id].queue;
      if queue == [] {
        return None;
      }
      m := Some(queue[0]);
      assert queue[0] in queue;
      subs := subs[id := subs[id].(queue := queue[1..])];
      SameClientsFit(old(subs), subs, counts);
    }

    method OfferToAll(m: Message)
      modifies this`subs
      ensures subs.Keys == old(subs).Keys
      ensures forall id :: id in subs ==> subs[id] == Offer(old(subs)[id], m, size)
    {
      var todo := subs.Keys;
      while todo != {}
        invariant todo <= subs.Keys == old(subs).Keys
        invariant forall id :: id in subs ==>
                    subs[id] == if id in todo then old(subs)[id] else Offer(old(subs)[id], m, size)
        decreases |todo|
      {
        var id :| id in todo;
        subs := subs[id := Offer(subs[id], m, size)];
        todo := todo - {id};
      }
    }
  }
}
