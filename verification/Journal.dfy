/** The append-only, hash-chained restore journal (backup/control.py).
    The hash is a parameter; results about tampering suppose it injective. */
module Journal {
  import opened Wrappers

  datatype Kind = ActionIntent | ActionCommitted | Fact(name: string)

  datatype Body = Body(kind: Kind, actionId: Option<string>, payload: string, timestamp: int)

  datatype Hashed = Hashed(sequence: nat, previous: int, body: Body)

  datatype Record = Record(sequence: nat, previous: int, body: Body, hash: int)

  /** One line of the file: blank, a record that parses, or damage. */
  datatype Line = Blank | Parsed(record: Record) | Damaged

  /** terminated: the last line ends in a newline, so that what is appended starts a line. */
  datatype File = File(lines: seq<Line>, terminated: bool)

  type Hash = Hashed -> int

  const GENESIS: int := 0

  datatype Reading = Records(records: seq<Record>) | LineDamaged(number: nat) | ChainBroken | HashInvalid

  function LastHash(rs: seq<Record>): int {
    if rs == [] then GENESIS else rs[|rs| - 1].hash
  }

  function Next(h: Hash, rs: seq<Record>, body: Body): Record {
    var n := |rs| + 1;
    Record(n, LastHash(rs), body, h(Hashed(n, LastHash(rs), body)))
  }

  /** The journal that successive appends of these bodies leave. */
  function Build(h: Hash, bodies: seq<Body>): (rs: seq<Record>)
    ensures |rs| == |bodies|
  {
    if bodies == [] then []
    else
      var rs := Build(h, bodies[..|bodies| - 1]);
      rs + [Next(h, rs, bodies[|bodies| - 1])]
  }

  /** The check records() makes of each record against the one before it. */
  predicate Linked(h: Hash, rs: seq<Record>, i: nat)
    requires i < |rs|
  {
    && rs[i].sequence == i + 1
    && rs[i].previous == LastHash(rs[..i])
    && rs[i].hash == h(Hashed(rs[i].sequence, rs[i].previous, rs[i].body))
  }

  predicate Accepted(h: Hash, rs: seq<Record>) {
    forall i :: 0 <= i < |rs| ==> Linked(h, rs, i)
  }

  function Bodies(rs: seq<Record>): seq<Body> {
    seq(|rs|, i requires 0 <= i < |rs| => rs[i].body)
  }

  function RecordsOf(lines: seq<Line>): seq<Record> {
    if lines == [] then []
    else
      var l := lines[|lines| - 1];
      RecordsOf(lines[..|lines| - 1]) + if l.Parsed? then [l.record] else []
  }

  predicate Undamaged(lines: seq<Line>) {
    Damaged !in lines
  }

  /** What records() accepts. */
  predicate Readable(h: Hash, f: File) {
    Undamaged(f.lines) && Accepted(h, RecordsOf(f.lines))
  }

  /** What is appended starts a line of its own. */
  predicate EndsClean(f: File) {
    f.terminated || f.lines == [] || f.lines[|f.lines| - 1].Blank?
  }

  /** The lines before the place at which the next record is written. */
  function Before(f: File): seq<Line> {
    if f.terminated || f.lines == [] then f.lines else f.lines[..|f.lines| - 1]
  }

  /** The file opened in mode "a" and a record written with its newline: on a last line that has
      none the two run together, and no longer parse unless that line was blank. */
  function Written(f: File, r: Record): File {
    File(Before(f) + [if EndsClean(f) then Parsed(r) else Damaged], true)
  }

  /** append: refused unless the file reads. */
  function Appended(h: Hash, f: File, body: Body): File {
    if Readable(h, f) then Written(f, Next(h, RecordsOf(f.lines), body)) else f
  }

  lemma LinesSnoc(lines: seq<Line>, l: Line)
    ensures RecordsOf(lines + [l]) == RecordsOf(lines) + if l.Parsed? then [l.record] else []
    ensures Undamaged(lines + [l]) <==> Undamaged(lines) && l != Damaged
  {
    assert (lines + [l])[..|lines|] == lines;
  }

  lemma BeforeReadsTheSame(f: File)
    requires EndsClean(f)
    ensures RecordsOf(Before(f)) == RecordsOf(f.lines) && (Undamaged(Before(f)) <==> Undamaged(f.lines))
  {
    if Before(f) != f.lines {
      assert f.lines == Before(f) + [Blank];
      LinesSnoc(Before(f), Blank);
    }
  }

  /** An append to a file that reads leaves one that reads, with one record more, exactly if the
      file ended cleanly. */
  lemma AppendNeedsACleanEnd(h: Hash, f: File, body: Body)
    requires Readable(h, f)
    ensures Readable(h, Appended(h, f, body)) <==> EndsClean(f)
    ensures EndsClean(f) ==>
              RecordsOf(Appended(h, f, body).lines) == RecordsOf(f.lines) + [Next(h, RecordsOf(f.lines), body)]
  {
    var rs := RecordsOf(f.lines);
    var r := Next(h, rs, body);
    if EndsClean(f) {
      BeforeReadsTheSame(f);
      LinesSnoc(Before(f), Parsed(r));
      AcceptedSnoc(h, rs, r);
    } else {
      LinesSnoc(Before(f), Damaged);
    }
  }

  lemma AcceptedPrefix(h: Hash, rs: seq<Record>, k: nat)
    requires Accepted(h, rs) && k <= |rs|
    ensures Accepted(h, rs[..k])
  {
    forall i | 0 <= i < k ensures Linked(h, rs[..k], i) {
      assert Linked(h, rs, i);
      assert rs[..k][..i] == rs[..i];
    }
  }

  lemma AcceptedSnoc(h: Hash, rs: seq<Record>, r: Record)
    ensures Accepted(h, rs + [r]) <==> Accepted(h, rs) && r == Next(h, rs, r.body)
  {
    var all := rs + [r];
    assert all[..|rs|] == rs;
    if Accepted(h, all) {
      AcceptedPrefix(h, all, |rs|);
      assert Linked(h, all, |rs|);
    }
    if Accepted(h, rs) && r == Next(h, rs, r.body) {
      forall i | 0 <= i < |all| ensures Linked(h, all, i) {
        assert all[..i] == rs[..i];
        if i < |rs| {
          assert Linked(h, rs, i);
        }
      }
    }
  }

  /** The reader accepts exactly the journals that successive appends build. */
  lemma {:induction false} AcceptedIffBuilt(h: Hash, rs: seq<Record>)
    ensures Accepted(h, rs) <==> rs == Build(h, Bodies(rs))
    decreases |rs|
  {
    if rs != [] {
      var p, last := rs[..|rs| - 1], rs[|rs| - 1];
      assert rs == p + [last];
      AcceptedSnoc(h, p, last);
      AcceptedIffBuilt(h, p);
      assert Bodies(rs)[..|rs| - 1] == Bodies(p);
      assert Bodies(rs)[|rs| - 1] == last.body;
      if rs == Build(h, Bodies(rs)) {
        assert p == Build(h, Bodies(p));
      }
    }
  }

  ghost predicate Injective(h: Hash) {
    forall x, y :: h(x) == h(y) ==> x == y
  }

  /** One record hash pins everything up to it: if the last hash of one accepted journal
      appears anywhere in another, the first is the prefix of the second that ends there. */
  lemma {:induction false} HashPinsPrefix(h: Hash, a: seq<Record>, b: seq<Record>, i: nat)
    requires Injective(h) && Accepted(h, a) && Accepted(h, b)
    requires a != [] && i < |b| && b[i].hash == LastHash(a)
    ensures a == b[..i + 1]
    decreases |a|
  {
    var n := |a| - 1;
    assert Linked(h, a, n) && Linked(h, b, i);
    assert a[n].sequence == b[i].sequence && a[n].previous == b[i].previous && a[n].body == b[i].body;
    if n > 0 {
      AcceptedPrefix(h, a, n);
      assert LastHash(a[..n]) == LastHash(b[..i]);
      assert b[..i][i - 1] == b[i - 1];
      HashPinsPrefix(h, a[..n], b, i - 1);
    }
    assert a == a[..n] + [a[n]];
    assert b[..i + 1] == b[..i] + [b[i]];
  }

  /** Two accepted journals that end in the same hash are the same journal. */
  lemma SameLastHashSameJournal(h: Hash, a: seq<Record>, b: seq<Record>)
    requires Injective(h) && Accepted(h, a) && Accepted(h, b)
    requires a != [] && b != [] && LastHash(a) == LastHash(b)
    ensures a == b
  {
    HashPinsPrefix(h, a, b, |b| - 1);
    assert b[..|b|] == b;
  }

  // ---- intents and commits ----------------------------------------------------------

  datatype Op =
    | Begin(id: string, payload: string, at: int)
    | Commit(id: string, payload: string, at: int)
    | Log(name: string, payload: string, at: int)

  function IntentIds(rs: seq<Record>): set<Option<string>> {
    set r | r in rs && r.body.kind == ActionIntent :: r.body.actionId
  }

  function Step(h: Hash, rs: seq<Record>, op: Op): seq<Record> {
    match op
    case Begin(id, p, at) => rs + [Next(h, rs, Body(ActionIntent, Some(id), p, at))]
    case Commit(id, p, at) =>
      if Some(id) in IntentIds(rs) then rs + [Next(h, rs, Body(ActionCommitted, Some(id), p, at))] else rs
    case Log(name, p, at) => rs + [Next(h, rs, Body(Fact(name), None, p, at))]
  }

  function Steps(h: Hash, rs: seq<Record>, ops: seq<Op>): seq<Record>
    decreases |ops|
  {
    if ops == [] then rs else Steps(h, Step(h, rs, ops[0]), ops[1..])
  }

  function CommitIds(rs: seq<Record>): set<Option<string>> {
    set r | r in rs && r.body.kind == ActionCommitted :: r.body.actionId
  }

  /** A commit is recorded, as a commit, exactly if its intent was; a begin records an intent, and
      nothing else records either; each of them that is recorded is one record with its payload. */
  lemma CommitNeedsItsIntent(h: Hash, rs: seq<Record>, id: string, payload: string, at: int)
    ensures Step(h, rs, Commit(id, payload, at)) != rs <==> Some(id) in IntentIds(rs)
    ensures IntentIds(Step(h, rs, Begin(id, payload, at))) == IntentIds(rs) + {Some(id)}
    ensures IntentIds(Step(h, rs, Commit(id, payload, at))) == IntentIds(rs)
    ensures IntentIds(Step(h, rs, Log(id, payload, at))) == IntentIds(rs)
    ensures CommitIds(Step(h, rs, Commit(id, payload, at))) == CommitIds(rs) + if Some(id) in IntentIds(rs) then {Some(id)} else {}
    ensures CommitIds(Step(h, rs, Begin(id, payload, at))) == CommitIds(Step(h, rs, Log(id, payload, at))) == CommitIds(rs)
    ensures forall op :: op in {Begin(id, payload, at), Commit(id, payload, at), Log(id, payload, at)} ==>
              var rs' := Step(h, rs, op);
              if op.Commit? && Some(id) !in IntentIds(rs) then rs' == rs
              else |rs'| == |rs| + 1 && rs' == rs + [Next(h, rs, rs'[|rs|].body)] && rs'[|rs|].body.payload == payload && rs'[|rs|].body.timestamp == at
  {
    IntentsSnoc(rs, Next(h, rs, Body(ActionIntent, Some(id), payload, at)));
    IntentsSnoc(rs, Next(h, rs, Body(ActionCommitted, Some(id), payload, at)));
    IntentsSnoc(rs, Next(h, rs, Body(Fact(id), None, payload, at)));
  }

  lemma IntentsSnoc(rs: seq<Record>, r: Record)
    ensures IntentIds(rs + [r]) == IntentIds(rs) + if r.body.kind == ActionIntent then {r.body.actionId} else {}
    ensures CommitIds(rs + [r]) == CommitIds(rs) + if r.body.kind == ActionCommitted then {r.body.actionId} else {}
  {
    assert forall x :: x in rs + [r] <==> x in rs || x == r;
  }

  predicate CommitsFollowIntents(rs: seq<Record>) {
    forall i :: 0 <= i < |rs| && rs[i].body.kind == ActionCommitted ==>
      exists k :: 0 <= k < i && rs[k].body.kind == ActionIntent && rs[k].body.actionId == rs[i].body.actionId
  }

  lemma StepKeeps(h: Hash, rs: seq<Record>, op: Op)
    requires Accepted(h, rs) && CommitsFollowIntents(rs)
    ensures var rs' := Step(h, rs, op); Accepted(h, rs') && CommitsFollowIntents(rs') && rs <= rs'
  {
    var rs' := Step(h, rs, op);
    if rs' != rs {
      AcceptedSnoc(h, rs, rs'[|rs|]);
      forall i | 0 <= i < |rs'| && rs'[i].body.kind == ActionCommitted
        ensures exists k :: 0 <= k < i && rs'[k].body.kind == ActionIntent && rs'[k].body.actionId == rs'[i].body.actionId
      {
        if i < |rs| {
          var k :| 0 <= k < i && rs[k].body.kind == ActionIntent && rs[k].body.actionId == rs[i].body.actionId;
          assert rs'[k] == rs[k];
        } else {
          var r :| r in rs && r.body.kind == ActionIntent && r.body.actionId == rs'[i].body.actionId;
          var k :| 0 <= k < |rs| && rs[k] == r;
          assert rs'[k] == r;
        }
      }
    }
  }

  /** Every committed action has an earlier intent with its id, and history never changes. */
  lemma {:induction false} EveryCommitHasAnIntent(h: Hash, rs: seq<Record>, ops: seq<Op>)
    requires Accepted(h, rs) && CommitsFollowIntents(rs)
    ensures var rs' := Steps(h, rs, ops); Accepted(h, rs') && CommitsFollowIntents(rs') && rs <= rs'
    decreases |ops|
  {
    if ops != [] {
      StepKeeps(h, rs, ops[0]);
      EveryCommitHasAnIntent(h, Step(h, rs, ops[0]), ops[1..]);
    }
  }

  // ---- the journal file ---------------------------------------------------------------

  class RestoreJournal {
    var lines: seq<Line>
    var terminated: bool
    const h: Hash

    constructor (h: Hash)
      ensures lines == [] && terminated && this.h == h
    {
      this.h := h;
      lines, terminated := [], true;
    }

    function Contents(): File
      reads this
    {
      File(lines, terminated)
    }

    /** records(): one pass that carries the list so far and the last hash. */
    method ReadRecords() returns (r: Reading)
      ensures r.Records? <==> Readable(h, Contents())
      ensures r.Records? ==> r.records == RecordsOf(lines)
    {
      var records: seq<Record> := [];
      var previous := GENESIS;
      var i := 0;
      while i < |lines|
        invariant 0 <= i <= |lines|
        invariant Undamaged(lines[..i]) && records == RecordsOf(lines[..i]) && Accepted(h, records)
        invariant previous == LastHash(records)
      {
        var line := lines[i];
        assert lines[..i + 1][..i] == lines[..i];
        if line.Damaged? {
          return LineDamaged(i + 1);
        }
        if line.Parsed? {
          var record := line.record;
          AcceptedSnoc(h, records, record);
          if record.sequence != |records| + 1 || record.previous != previous {
            RejectedPrefix(i + 1);
            return ChainBroken;
          }
          if record.hash != h(Hashed(record.sequence, record.previous, record.body)) {
            RejectedPrefix(i + 1);
            return HashInvalid;
          }
          records := records + [record];
          previous := record.hash;
        }
        i := i + 1;
      }
      assert lines[..|lines|] == lines;
      return Records(records);
    }

    lemma RejectedPrefix(k: nat)
      requires k <= |lines| && !Accepted(h, RecordsOf(lines[..k]))
      ensures !Accepted(h, RecordsOf(lines))
    {
      ParsedPrefix(lines, k);
      if Accepted(h, RecordsOf(lines)) {
        AcceptedPrefix(h, RecordsOf(lines), |RecordsOf(lines[..k])|);
      }
    }

    method Append(body: Body) returns (ok: bool)
      modifies this
      ensures ok <==> Readable(h, old(Contents()))
      ensures Contents() == Appended(h, old(Contents()), body)
      ensures ok ==> (Readable(h, Contents()) <==> EndsClean(old(Contents())))
      ensures ok && EndsClean(old(Contents())) ==>
                RecordsOf(lines) == RecordsOf(old(lines)) + [Next(h, RecordsOf(old(lines)), body)]
    {
      var existing := ReadRecords();
      if !existing.Records? {
        return false;
      }
      AppendNeedsACleanEnd(h, Contents(), body);
      var record := Next(h, existing.records, body);
      var n := |lines|;
      if terminated || n == 0 {
        lines := lines + [Parsed(record)];
      } else if lines[n - 1].Blank? {
        lines := lines[..n - 1] + [Parsed(record)];
      } else {
        lines := lines[..n - 1] + [Damaged];
      }
      terminated := true;
      return true;
    }

    method BeginAction(id: string, payload: string, at: int) returns (ok: bool)
      modifies this
      ensures ok <==> Readable(h, old(Contents()))
      ensures Contents() == Appended(h, old(Contents()), Body(ActionIntent, Some(id), payload, at))
      ensures ok && EndsClean(old(Contents())) ==> RecordsOf(lines) == Step(h, RecordsOf(old(lines)), Begin(id, payload, at))
    {
      ok := Append(Body(ActionIntent, Some(id), payload, at));
    }

    method CommitAction(id: string, payload: string, at: int) returns (ok: bool)
      modifies this
      ensures ok <==> Readable(h, old(Contents())) && Some(id) in IntentIds(RecordsOf(old(lines)))
      ensures ok ==> Contents() == Appended(h, old(Contents()), Body(ActionCommitted, Some(id), payload, at))
      ensures ok && EndsClean(old(Contents())) ==> RecordsOf(lines) == Step(h, RecordsOf(old(lines)), Commit(id, payload, at))
      ensures !ok ==> Contents() == old(Contents())
    {
      var existing := ReadRecords();
      if !existing.Records? || Some(id) !in IntentIds(existing.records) {
        return false;
      }
      ok := Append(Body(ActionCommitted, Some(id), payload, at));
    }
  }

  lemma {:induction false} ParsedPrefix(lines: seq<Line>, k: nat)
    requires k <= |lines|
    ensures |RecordsOf(lines[..k])| <= |RecordsOf(lines)|
    ensures RecordsOf(lines)[..|RecordsOf(lines[..k])|] == RecordsOf(lines[..k])
    decreases |lines|
  {
    if k == |lines| {
      assert lines[..k] == lines;
    } else {
      var p := lines[..|lines| - 1];
      assert p[..k] == lines[..k];
      ParsedPrefix(p, k);
    }
  }
}
