/** Which whole turns a compression keeps, and which a trim drops (context_process/compression.py,
    memory/turn_boundary.py). */
module Compression {
  import opened Wrappers

  datatype Role = System | User | Assistant | Tool | Summary | OtherRole
  datatype Message = Message(role: Role, record: Option<nat>, text: nat)

  // ---- blocks -----------------------------------------------------------------------------

  function Flatten<T>(bs: seq<seq<T>>): seq<T> {
    if bs == [] then [] else Flatten(bs[..|bs| - 1]) + bs[|bs| - 1]
  }

  /** A user message, or the first message of all, begins a block; others join the last. */
  function Push(bs: seq<seq<Message>>, m: Message): seq<seq<Message>> {
    if m.role == User || bs == [] then bs + [[m]] else bs[|bs| - 1 := bs[|bs| - 1] + [m]]
  }

  /** _conversation_blocks */
  function Blocks(ms: seq<Message>): seq<seq<Message>> {
    if ms == [] then [] else Push(Blocks(ms[..|ms| - 1]), ms[|ms| - 1])
  }

  /** A block holds messages, of which only the first may be the user's. */
  predicate IsBlock(b: seq<Message>) {
    b != [] && forall i :: 0 < i < |b| ==> b[i].role != User
  }

  predicate StartsWithUser(b: seq<Message>) {
    b != [] && b[0].role == User
  }

  /** Blocks as they should be: each a block, and all but the first begun by the user. */
  predicate AreBlocks(bs: seq<seq<Message>>) {
    && (forall k :: 0 <= k < |bs| ==> IsBlock(bs[k]))
    && forall k :: 0 < k < |bs| ==> StartsWithUser(bs[k])
  }

  lemma FlattenPush(bs: seq<seq<Message>>, m: Message)
    ensures Flatten(Push(bs, m)) == Flatten(bs) + [m]
  {
    var r := Push(bs, m);
    if m.role == User || bs == [] {
      assert r[..|bs|] == bs;
    } else {
      assert r[..|r| - 1] == bs[..|bs| - 1];
    }
  }

  lemma {:induction false} BlocksCoverInput(ms: seq<Message>)
    ensures Flatten(Blocks(ms)) == ms && AreBlocks(Blocks(ms))
  {
    if ms != [] {
      var n := |ms| - 1;
      BlocksCoverInput(ms[..n]);
      FlattenPush(Blocks(ms[..n]), ms[n]);
      assert ms == ms[..n] + [ms[n]];
    }
  }

  /** Blocks without their last message. */
  function Peel(bs: seq<seq<Message>>): seq<seq<Message>>
    requires AreBlocks(bs) && bs != []
  {
    var n := |bs| - 1;
    var m := |bs[n]| - 1;
    if m == 0 then bs[..n] else bs[n := bs[n][..m]]
  }

  lemma PeelUndoesPush(bs: seq<seq<Message>>)
    requires AreBlocks(bs) && bs != []
    ensures var b := bs[|bs| - 1]; b != [] && AreBlocks(Peel(bs)) && Push(Peel(bs), b[|b| - 1]) == bs
  {
    var n := |bs| - 1;
    var m := |bs[n]| - 1;
    assert IsBlock(bs[n]) && bs[n] == bs[n][..m] + [bs[n][m]];
    if m == 0 {
      assert bs == bs[..n] + [[bs[n][m]]];
    }
  }

  /** There is only one way to cut a conversation into blocks. */
  lemma {:induction false} BlocksAreUnique(bs: seq<seq<Message>>)
    requires AreBlocks(bs)
    ensures Blocks(Flatten(bs)) == bs
    decreases |Flatten(bs)|
  {
    if bs != [] {
      var last := bs[|bs| - 1][|bs[|bs| - 1]| - 1];
      PeelUndoesPush(bs);
      FlattenPush(Peel(bs), last);
      BlocksAreUnique(Peel(bs));
      assert Flatten(bs)[..|Flatten(bs)| - 1] == Flatten(Peel(bs));
    }
  }

  lemma PushRight(a: seq<seq<Message>>, b: seq<seq<Message>>, m: Message)
    requires b != [] || m.role == User
    ensures Push(a + b, m) == a + Push(b, m)
  {
  }

  /** A cut before a user message, or at either end, cuts between blocks. */
  lemma {:induction false} BlocksSplit(a: seq<Message>, b: seq<Message>)
    requires a == [] || b == [] || b[0].role == User
    ensures Blocks(a + b) == Blocks(a) + Blocks(b)
    decreases |b|
  {
    if b == [] {
      assert a + b == a;
    } else if a == [] {
      assert a + b == b;
    } else {
      var n := |b| - 1;
      assert (a + b)[..|a + b| - 1] == a + b[..n];
      BlocksSplit(a, b[..n]);
      NonEmptyBlocks(b[..n]);
      PushRight(Blocks(a), Blocks(b[..n]), b[n]);
    }
  }

  lemma NonEmptyBlocks(ms: seq<Message>)
    ensures Blocks(ms) == [] <==> ms == []
  {
  }

  // ---- the protected turns ---------------------------------------------------------------

  function UserStarts(ms: seq<Message>): seq<nat> {
    if ms == [] then []
    else
      var starts := UserStarts(ms[..|ms| - 1]);
      if ms[|ms| - 1].role == User then starts + [|ms| - 1] else starts
  }

  /** protected_turn_start */
  function ProtectedStart(ms: seq<Message>, currentPresent: bool): nat {
    var starts, count := UserStarts(ms), if currentPresent then 2 else 1;
    if |starts| >= count then starts[|starts| - count] else 0
  }

  function Turns(ms: seq<Message>): nat {
    if ms == [] then 0 else Turns(ms[..|ms| - 1]) + if ms[|ms| - 1].role == User then 1 else 0
  }

  lemma {:induction false} StartsAreUsers(ms: seq<Message>, i: nat)
    requires i < |UserStarts(ms)|
    ensures var starts := UserStarts(ms);
            && starts[i] < |ms| && ms[starts[i]].role == User
            && Turns(ms[starts[i]..]) == |starts| - i
    decreases |ms|
  {
    var n := |ms| - 1;
    var starts := UserStarts(ms[..n]);
    if i < |starts| {
      StartsAreUsers(ms[..n], i);
      assert ms[starts[i]..][..n - starts[i]] == ms[..n][starts[i]..];
    } else {
      assert ms[n..] == [ms[n]];
      assert ms[n..][..0] == [];
    }
  }

  lemma {:induction false} TurnsAreStarts(ms: seq<Message>)
    ensures Turns(ms) == |UserStarts(ms)|
  {
    if ms != [] {
      TurnsAreStarts(ms[..|ms| - 1]);
    }
  }

  lemma BoundaryCountsTurns(ms: seq<Message>, currentPresent: bool)
    ensures var b, count := ProtectedStart(ms, currentPresent), if currentPresent then 2 else 1;
            && b <= |ms|
            && (Turns(ms) >= count ==> b < |ms| && ms[b].role == User && Turns(ms[b..]) == count)
            && (Turns(ms) < count ==> b == 0)
  {
    TurnsAreStarts(ms);
    var count := if currentPresent then 2 else 1;
    if Turns(ms) >= count {
      StartsAreUsers(ms, |UserStarts(ms)| - count);
    }
  }

  /** The boundary is where the last two turns begin (the last one, before the current message is
      recorded), or the start of everything if there are not so many; it is never inside a turn. */
  lemma BoundaryKeepsWholeTurns(ms: seq<Message>, currentPresent: bool)
    ensures var b, count := ProtectedStart(ms, currentPresent), if currentPresent then 2 else 1;
            && b <= |ms|
            && (Turns(ms) >= count ==> b < |ms| && ms[b].role == User && Turns(ms[b..]) == count)
            && (Turns(ms) < count ==> b == 0)
            && Blocks(ms) == Blocks(ms[..b]) + Blocks(ms[b..])
  {
    BoundaryCountsTurns(ms, currentPresent);
    var b := ProtectedStart(ms, currentPresent);
    assert ms == ms[..b] + ms[b..];
    BlocksSplit(ms[..b], ms[b..]);
  }

  // ---- selection ----------------------------------------------------------------------------

  datatype Where = TurnStart | TurnInternal | Manual
  datatype Selection = Selection(compressible: seq<Message>, kept: seq<Message>, where': Where, anchor: Option<nat>)
  datatype Selected = Done(selection: Selection) | CurrentMissing | CurrentMismatch

  function Summaries(records: seq<Message>): seq<Message> {
    if records == [] then []
    else
      var rest := Summaries(records[..|records| - 1]);
      if records[|records| - 1].role == Summary then rest + [records[|records| - 1]] else rest
  }

  predicate IsConversational(m: Message) {
    m.role in {User, Assistant, Tool}
  }

  function Conversational(records: seq<Message>): seq<Message> {
    if records == [] then []
    else
      var rest := Conversational(records[..|records| - 1]);
      if IsConversational(records[|records| - 1]) then rest + [records[|records| - 1]] else rest
  }

  /** The user message that a block begins with, if any. */
  function UserOf(b: seq<Message>): Option<Message> {
    if b != [] && b[0].role == User then Some(b[0]) else None
  }

  /** _select_compression_records; records are told apart by their place in the list. */
  function Select(records: seq<Message>, protectRecent: bool, current: Option<nat>): Selected {
    var summaries, talk := Summaries(records), Conversational(records);
    var blocks := Blocks(talk);
    if !protectRecent then Done(Selection(summaries + talk, [], Manual, None))
    else if current.Some? && blocks == [] then CurrentMissing
    else if current.Some? && (UserOf(blocks[|blocks| - 1]).None? || UserOf(blocks[|blocks| - 1]).value.record != current) then
      CurrentMismatch
    else
      BoundaryCountsTurns(talk, current.Some?);
      var start := ProtectedStart(talk, current.Some?);
      Done(Selection(summaries + talk[..start], talk[start..],
                     if current.Some? then TurnInternal else TurnStart,
                     if current.Some? && |blocks| >= 2 && UserOf(blocks[|blocks| - 2]).Some?
                     then UserOf(blocks[|blocks| - 2]).value.record else None))
  }

  lemma SelectionIs(records: seq<Message>, current: Option<nat>)
    requires Select(records, true, current).Done?
    ensures var s, talk := Select(records, true, current).selection, Conversational(records);
            var start := ProtectedStart(talk, current.Some?);
            && start <= |talk| && s.compressible == Summaries(records) + talk[..start] && s.kept == talk[start..]
            && (current.Some? && |Blocks(talk)| >= 2 && UserOf(Blocks(talk)[|Blocks(talk)| - 2]).Some? ==>
                  s.anchor == UserOf(Blocks(talk)[|Blocks(talk)| - 2]).value.record)
  {
    BoundaryCountsTurns(Conversational(records), current.Some?);
  }

  /** The conversation is cut in two, in order, between blocks, and the later part is the last
      count turns, or everything if there are not so many. */
  ghost predicate CutBetweenTurns(talk: seq<Message>, older: seq<Message>, kept: seq<Message>, count: nat) {
    && talk == older + kept && Blocks(talk) == Blocks(older) + Blocks(kept)
    && (Turns(talk) >= count ==> kept != [] && Turns(kept) == count && kept[0].role == User)
    && (Turns(talk) < count ==> older == [])
  }

  lemma BoundaryCutsBetweenTurns(talk: seq<Message>, currentPresent: bool)
    ensures var start := ProtectedStart(talk, currentPresent);
            start <= |talk| && CutBetweenTurns(talk, talk[..start], talk[start..], if currentPresent then 2 else 1)
  {
    BoundaryKeepsWholeTurns(talk, currentPresent);
    var start := ProtectedStart(talk, currentPresent);
    assert talk == talk[..start] + talk[start..];
  }

  /** The boundary with a current message is where the block before the last begins. */
  lemma BoundaryIsPreviousTurn(talk: seq<Message>)
    requires Turns(talk) >= 2
    ensures var start := ProtectedStart(talk, true);
            && start < |talk| && |Blocks(talk)| >= 2
            && UserOf(Blocks(talk)[|Blocks(talk)| - 2]) == Some(talk[start])
  {
    BoundaryKeepsWholeTurns(talk, true);
    AnchorIsPreviousTurn(talk, ProtectedStart(talk, true));
  }

  lemma AnchorBeginsKept(records: seq<Message>, current: Option<nat>)
    requires Select(records, true, current).Done? && current.Some? && Turns(Conversational(records)) >= 2
    ensures var s := Select(records, true, current).selection; s.kept != [] && s.kept[0].record == s.anchor
  {
    var talk := Conversational(records);
    BoundaryIsPreviousTurn(talk);
    AnchorIs(records, current, talk[ProtectedStart(talk, true)]);
  }

  lemma AnchorIs(records: seq<Message>, current: Option<nat>, m: Message)
    requires Select(records, true, current).Done? && current.Some?
    requires var talk := Conversational(records);
             && |Blocks(talk)| >= 2 && UserOf(Blocks(talk)[|Blocks(talk)| - 2]) == Some(m)
             && ProtectedStart(talk, true) < |talk| && talk[ProtectedStart(talk, true)] == m
    ensures var s := Select(records, true, current).selection; s.kept != [] && s.kept[0] == m && s.anchor == m.record
  {
    SelectionIs(records, current);
  }

  /** Filtering keeps order and multiplicity: it works record by record. */
  lemma {:induction false} SummariesJoin(a: seq<Message>, b: seq<Message>)
    ensures Summaries(a + b) == Summaries(a) + Summaries(b)
    ensures Conversational(a + b) == Conversational(a) + Conversational(b)
    decreases |b|
  {
    if b == [] {
      assert a + b == a;
    } else {
      var c := b[..|b| - 1];
      assert (a + b)[..|a + b| - 1] == a + c;
      SummariesJoin(a, c);
    }
  }

  lemma OneRecord(m: Message)
    ensures Summaries([m]) == (if m.role == Summary then [m] else [])
    ensures Conversational([m]) == (if m.role in {User, Assistant, Tool} then [m] else [])
  {
    assert [m][..0] == [];
  }

  /** Of every selection that succeeds: what is to be compressed is all summaries and then a first
      part of the conversation, what is kept is the rest of it. Manual selection keeps nothing and
      names no anchor; automatic selection is within a turn exactly if there is a current message. */
  lemma SelectionLosesNothing(records: seq<Message>, protectRecent: bool, current: Option<nat>)
    requires Select(records, protectRecent, current).Done?
    ensures var s := Select(records, protectRecent, current).selection;
            && s.compressible + s.kept == Summaries(records) + Conversational(records)
            && |Summaries(records)| <= |s.compressible|
            && (s.where'.Manual? <==> !protectRecent) && (s.where'.TurnInternal? <==> protectRecent && current.Some?)
            && (!protectRecent ==> s.kept == []) && (!protectRecent || current.None? ==> s.anchor.None?)
  {
    if protectRecent {
      SelectionIs(records, current);
      var talk := Conversational(records);
      var start := ProtectedStart(talk, current.Some?);
      assert Summaries(records) + talk[..start] + talk[start..] == Summaries(records) + talk;
    }
  }

  lemma ManualSelectionSucceeds(records: seq<Message>, current: Option<nat>)
    ensures Select(records, false, current).Done? && Select(records, false, current).selection.kept == []
    ensures Select(records, false, current).selection.compressible == Summaries(records) + Conversational(records)
  {
  }

  /** Automatic selection: no tool result is parted from its request; what is kept is the last
      turn, and with a current message also the turn before, whose user message is the anchor
      of the summary. */
  lemma SelectionKeepsWholeTurns(records: seq<Message>, current: Option<nat>)
    requires Select(records, true, current).Done?
    ensures var s, talk := Select(records, true, current).selection, Conversational(records);
            && |Summaries(records)| <= |s.compressible| && s.compressible[..|Summaries(records)|] == Summaries(records)
            && CutBetweenTurns(talk, s.compressible[|Summaries(records)|..], s.kept, if current.Some? then 2 else 1)
            && (current.Some? && Turns(talk) >= 2 ==> s.kept != [] && s.kept[0].record == s.anchor)
  {
    var talk := Conversational(records);
    SelectionIs(records, current);
    BoundaryCutsBetweenTurns(talk, current.Some?);
    var s := Select(records, true, current).selection;
    assert s.compressible[|Summaries(records)|..] == talk[..ProtectedStart(talk, current.Some?)];
    if current.Some? && Turns(talk) >= 2 {
      AnchorBeginsKept(records, current);
    }
  }

  /** The latest message of the user. */
  function LastUser(ms: seq<Message>): Option<Message> {
    if ms == [] then None
    else if ms[|ms| - 1].role == User then Some(ms[|ms| - 1])
    else LastUser(ms[..|ms| - 1])
  }

  lemma {:induction false} LastBlockBeginsWithLastUser(ms: seq<Message>)
    requires ms != []
    ensures Blocks(ms) != [] && UserOf(Blocks(ms)[|Blocks(ms)| - 1]) == LastUser(ms)
  {
    var n := |ms| - 1;
    if n > 0 {
      LastBlockBeginsWithLastUser(ms[..n]);
      BlocksCoverInput(ms[..n]);
      assert IsBlock(Blocks(ms[..n])[|Blocks(ms[..n])| - 1]);
    } else {
      assert ms[..0] == [];
    }
  }

  lemma {:induction false} FilteringKeepsLastUser(records: seq<Message>)
    ensures LastUser(Conversational(records)) == LastUser(records)
  {
    if records != [] {
      FilteringKeepsLastUser(records[..|records| - 1]);
      var rest := Conversational(records[..|records| - 1]);
      assert (rest + [records[|records| - 1]])[..|rest|] == rest;
    }
  }

  lemma {:induction false} NoConversation(records: seq<Message>)
    ensures Conversational(records) == [] <==> forall m :: m in records ==> !IsConversational(m)
  {
    if records != [] {
      var n := |records| - 1;
      NoConversation(records[..n]);
      assert records == records[..n] + [records[n]];
    }
  }

  /** With a current message, selection succeeds exactly if the user's latest message in the
      records is that one, whatever other records follow it or stand between; the message counts
      as missing only if the records hold no conversation at all. */
  lemma {:induction false} SelectionNeedsTheCurrentTurn(records: seq<Message>, current: nat)
    ensures Select(records, true, Some(current)).Done? <==>
              LastUser(records).Some? && LastUser(records).value.record == Some(current)
    ensures Select(records, true, Some(current)).CurrentMissing? <==>
              forall m :: m in records ==> !IsConversational(m)
  {
    NoConversation(records);
    FilteringKeepsLastUser(records);
    if Conversational(records) != [] {
      LastBlockBeginsWithLastUser(Conversational(records));
    }
  }

  lemma {:induction false} BlocksCountTurns(ms: seq<Message>)
    requires StartsWithUser(ms)
    ensures |Blocks(ms)| == Turns(ms) && StartsWithUser(Blocks(ms)[0]) && Blocks(ms)[0][0] == ms[0]
  {
    var n := |ms| - 1;
    if n > 0 {
      BlocksCountTurns(ms[..n]);
    } else {
      assert ms[..0] == [];
    }
  }

  lemma AnchorIsPreviousTurn(talk: seq<Message>, start: nat)
    requires start < |talk| && talk[start].role == User && Turns(talk[start..]) == 2
    requires Blocks(talk) == Blocks(talk[..start]) + Blocks(talk[start..])
    ensures |Blocks(talk)| >= 2 && UserOf(Blocks(talk)[|Blocks(talk)| - 2]) == Some(talk[start])
  {
    BlocksCountTurns(talk[start..]);
    assert Blocks(talk)[|Blocks(talk)| - 2] == Blocks(talk[start..])[0];
  }

  // ---- trimming --------------------------------------------------------------------------------

  function Systems(ms: seq<Message>): seq<Message> {
    if ms == [] || ms[0].role != System then [] else [ms[0]] + Systems(ms[1..])
  }

  /** The request with the k oldest unprotected blocks dropped. */
  function Trimmed(systems: seq<Message>, blocks: seq<seq<Message>>, kept: seq<Message>, k: nat): seq<Message>
    requires k <= |blocks|
  {
    systems + (Flatten(blocks[k..]) + kept)
  }

  predicate TooLong(tokens: seq<Message> -> nat, threshold: nat, systems: seq<Message>,
                    blocks: seq<seq<Message>>, kept: seq<Message>, k: nat)
  {
    k <= |blocks| && tokens(Trimmed(systems, blocks, kept, k)) > threshold
  }

  lemma {:induction false} SystemsAreAPrefix(ms: seq<Message>)
    ensures Systems(ms) <= ms
    ensures forall m :: m in Systems(ms) ==> m.role == System
    ensures |Systems(ms)| < |ms| ==> ms[|Systems(ms)|].role != System
  {
    if ms != [] && ms[0].role == System {
      SystemsAreAPrefix(ms[1..]);
      assert ms == [ms[0]] + ms[1..];
    }
  }

  function Rest(ms: seq<Message>): seq<Message> {
    SystemsAreAPrefix(ms);
    ms[|Systems(ms)|..]
  }

  /** The parts that a trim works on: leading system messages, blocks, and the protected turns. */
  ghost predicate Parts(ms: seq<Message>, systems: seq<Message>, blocks: seq<seq<Message>>, kept: seq<Message>) {
    var rest, b := Rest(ms), ProtectedStart(Rest(ms), true);
    b <= |rest| && systems == Systems(ms) && blocks == Blocks(rest[..b]) && kept == rest[b..]
  }

  lemma PartsMakeWhole(ms: seq<Message>, systems: seq<Message>, blocks: seq<seq<Message>>, kept: seq<Message>)
    requires Parts(ms, systems, blocks, kept)
    ensures Trimmed(systems, blocks, kept, 0) == ms
  {
    SystemsAreAPrefix(ms);
    var rest, b := Rest(ms), ProtectedStart(Rest(ms), true);
    BlocksCoverInput(rest[..b]);
    assert blocks[0..] == blocks;
    assert rest[..b] + kept == rest;
    assert systems + rest == ms;
  }

  lemma EachWasTooLong(tokens: seq<Message> -> nat, threshold: nat, systems: seq<Message>,
                       blocks: seq<seq<Message>>, kept: seq<Message>, k: nat)
    requires k <= |blocks| && forall j :: 0 <= j < k ==> TooLong(tokens, threshold, systems, blocks, kept, j)
    ensures forall j :: 0 <= j < k ==> tokens(Trimmed(systems, blocks, kept, j)) > threshold
  {
    forall j | 0 <= j < k ensures tokens(Trimmed(systems, blocks, kept, j)) > threshold {
      assert TooLong(tokens, threshold, systems, blocks, kept, j);
    }
  }

  class Context {
    var messages: seq<Message>

    constructor (messages: seq<Message>)
      ensures this.messages == messages
    {
      this.messages := messages;
    }

    /** _conversation_blocks, as the loop it is. */
    static method ConversationBlocks(ms: seq<Message>) returns (blocks: seq<seq<Message>>)
      ensures blocks == Blocks(ms)
    {
      blocks := [];
      var i := 0;
      while i < |ms|
        invariant 0 <= i <= |ms| && blocks == Blocks(ms[..i])
      {
        assert ms[..i + 1][..i] == ms[..i];
        ghost var before := blocks;
        if ms[i].role == User || blocks == [] {
          blocks := blocks + [[]];
        }
        assert |blocks| > |before| ==> blocks[|blocks| - 1] + [ms[i]] == [ms[i]];
        blocks := blocks[|blocks| - 1 := blocks[|blocks| - 1] + [ms[i]]];
        assert blocks == Push(before, ms[i]);
        i := i + 1;
      }
      assert ms[..|ms|] == ms;
    }

    /** The loop that pops the leading system messages. */
    static method SplitSystems(ms: seq<Message>) returns (systems: seq<Message>, rest: seq<Message>)
      ensures systems == Systems(ms) && rest == Rest(ms)
    {
      systems, rest := [], ms;
      while rest != [] && rest[0].role == System
        invariant systems + rest == ms && Systems(ms) == systems + Systems(rest)
      {
        assert (systems + [rest[0]]) + rest[1..] == systems + rest;
        assert systems + ([rest[0]] + Systems(rest[1..])) == (systems + [rest[0]]) + Systems(rest[1..]);
        systems, rest := systems + [rest[0]], rest[1..];
      }
      assert ms[|systems|..] == rest;
    }

    /** The loop that drops blocks, oldest first. */
    static method DropBlocks(tokens: seq<Message> -> nat, threshold: nat, systems: seq<Message>,
                             blocks: seq<seq<Message>>, kept: seq<Message>)
        returns (changed: bool, left: seq<seq<Message>>)
      ensures |left| <= |blocks| && left == blocks[|blocks| - |left|..]
      ensures changed <==> left != blocks
      ensures left != [] ==> tokens(systems + (Flatten(left) + kept)) <= threshold
      ensures forall j :: 0 <= j < |blocks| - |left| ==> TooLong(tokens, threshold, systems, blocks, kept, j)
    {
      changed, left := false, blocks;
      while left != [] && tokens(systems + (Flatten(left) + kept)) > threshold
        invariant |left| <= |blocks| && left == blocks[|blocks| - |left|..]
        invariant forall j :: 0 <= j < |blocks| - |left| ==> TooLong(tokens, threshold, systems, blocks, kept, j)
        invariant changed <==> |left| < |blocks|
        decreases |left|
      {
        left := left[1..];
        changed := true;
      }
    }

    /** trim_messages_if_needed: k is the fewest oldest blocks whose loss meets the threshold, or
        all of them; what else is in the request stays, in its order. */
    method TrimMessagesIfNeeded(tokens: seq<Message> -> nat, threshold: nat, active: bool)
        returns (changed: bool, ghost k: nat, ghost systems: seq<Message>, ghost blocks: seq<seq<Message>>, ghost kept: seq<Message>)
      modifies this
      ensures !active || tokens(old(messages)) <= threshold ==> !changed && messages == old(messages)
      ensures Parts(old(messages), systems, blocks, kept)
      ensures active && tokens(old(messages)) > threshold ==>
                && k <= |blocks| && messages == Trimmed(systems, blocks, kept, k)
                && (tokens(messages) > threshold ==> k == |blocks|)
                && (forall j :: 0 <= j < k ==> tokens(Trimmed(systems, blocks, kept, j)) > threshold)
                && (changed <==> k > 0) && (changed <==> blocks != [])
    {
      k, changed := 0, false;
      var front, rest := SplitSystems(messages);
      BoundaryCountsTurns(rest, true);
      var boundary := ProtectedStart(rest, true);
      var protect := rest[boundary..];
      var all := ConversationBlocks(rest[..boundary]);
      systems, blocks, kept := front, all, protect;
      PartsMakeWhole(messages, systems, blocks, kept);
      if !active || tokens(messages) <= threshold {
        return;
      }
      var left;
      changed, left := DropBlocks(tokens, threshold, front, all, protect);
      k := |blocks| - |left|;
      messages := front + (Flatten(left) + protect);
      EachWasTooLong(tokens, threshold, systems, blocks, kept, k);
    }
  }
}
