/** Reducing the attempts of a logical operation to its state, and when a scheduler may run it
    (Agent/state.py). */
module OperationReduction {
  import opened Wrappers

  datatype Status = Prepared | Running | Completed | Failed | Skipped | Unknown | Abandoned
  datatype FailureKind = Terminal | Retryable | UnknownEffect
  datatype Resolution = Unresolved | RetryAuthorized | ConfirmedSucceeded | ConfirmedFailed
  datatype Reason = RetryExhausted | HumanConfirmedFailed | Given(text: nat)
  datatype ResultSource = NotExecuted | HumanConfirmed | From(source: nat)

  datatype Metadata = Metadata(operation: nat, run: nat, request: nat, sideEffecting: bool)

  datatype Attempt = Attempt(
    no: nat, metadata: Metadata, status: Status, failure: Option<FailureKind>, reason: Option<Reason>,
    resolution: Option<Resolution>, result: Option<nat>, source: Option<ResultSource>,
    skipReason: Option<nat>, abandonment: Option<nat>, completedAt: Option<real>)

  datatype Policy = Policy(maxAttempts: nat, base: real, max: real, automatic: bool)

  datatype Aggregate = Aggregate(
    status: Status, failure: Option<FailureKind>, reason: Option<Reason>, latest: nat,
    nextRetryAt: Option<real>, result: Option<nat>, source: Option<ResultSource>, skipReason: Option<nat>)

  datatype Refusal = NoAttempt | NotNumbered | Foreign | TwoActive | NotTimestamped | InvalidAggregate
  datatype Reduction = Ok(aggregate: Aggregate) | Err(refusal: Refusal)

  /** What both validators ask of a status and its failure kind. */
  predicate FailureFits(status: Status, failure: Option<FailureKind>) {
    if status.Failed? then failure == Some(Terminal) || failure == Some(Retryable)
    else if status.Unknown? then failure == Some(UnknownEffect)
    else failure.None?
  }

  /** The validator of OperationAttempt. */
  predicate ValidAttempt(a: Attempt) {
    && a.no >= 1
    && FailureFits(a.status, a.failure) && (a.status.Unknown? ==> a.resolution.Some?)
    && (if a.status.Skipped? then a.source == Some(NotExecuted) && a.skipReason.Some? else a.skipReason.None?)
    && (a.status.Abandoned? <==> a.abandonment.Some?)
  }

  /** The validator of OperationAggregate. */
  predicate ValidAggregate(g: Aggregate) {
    && g.latest >= 1
    && FailureFits(g.status, g.failure)
    && (g.status.Skipped? ==> g.skipReason.Some?)
  }

  predicate IsActive(a: Attempt) {
    a.status in {Prepared, Running} || (a.status.Unknown? && a.resolution == Some(Unresolved))
  }

  // ---- ordering by number ------------------------------------------------------------------

  function Insert(s: seq<Attempt>, a: Attempt): (r: seq<Attempt>)
    ensures |r| == |s| + 1
  {
    if s == [] || s[|s| - 1].no <= a.no then s + [a]
    else Insert(s[..|s| - 1], a) + [s[|s| - 1]]
  }

  function Sort(s: seq<Attempt>): (r: seq<Attempt>)
    ensures |r| == |s|
  {
    if s == [] then [] else Insert(Sort(s[..|s| - 1]), s[|s| - 1])
  }

  predicate Numbered(s: seq<Attempt>) {
    forall i :: 0 <= i < |s| ==> s[i].no == i + 1
  }

  function Actives(s: seq<Attempt>): nat {
    if s == [] then 0 else Actives(s[..|s| - 1]) + if IsActive(s[|s| - 1]) then 1 else 0
  }

  function Power(n: nat): real {
    if n == 0 then 1.0 else 2.0 * Power(n - 1)
  }

  function Delay(p: Policy, n: nat): real
    requires n >= 1
  {
    var grown := p.base * Power(n - 1);
    if p.max <= grown then p.max else grown
  }

  function Checked(g: Aggregate): Reduction {
    if ValidAggregate(g) then Ok(g) else Err(InvalidAggregate)
  }

  function Plain(status: Status, failure: Option<FailureKind>, reason: Option<Reason>, latest: nat): Aggregate {
    Aggregate(status, failure, reason, latest, None, None, None, None)
  }

  function ReduceLatest(latest: Attempt, count: nat, p: Policy): Reduction
    requires latest.no >= 1
  {
    if latest.status.Unknown? && latest.resolution == Some(ConfirmedSucceeded) then
      var source := if latest.source.Some? then latest.source else Some(HumanConfirmed);
      Checked(Plain(Completed, None, None, latest.no).(result := latest.result, source := source))
    else if latest.status.Unknown? && latest.resolution == Some(ConfirmedFailed) then
      var reason := if latest.reason.Some? then latest.reason else Some(HumanConfirmedFailed);
      Checked(Plain(Failed, Some(Terminal), reason, latest.no))
    else if latest.status.Failed? && latest.failure == Some(Retryable) then
      if count >= p.maxAttempts then Checked(Plain(Failed, Some(Terminal), Some(RetryExhausted), latest.no))
      else if latest.completedAt.None? then Err(NotTimestamped)
      else Checked(Plain(Failed, Some(Retryable), latest.reason, latest.no)
                     .(nextRetryAt := Some(latest.completedAt.value + Delay(p, latest.no))))
    else
      Checked(Aggregate(latest.status, latest.failure, latest.reason, latest.no, None,
                        latest.result, latest.source, latest.skipReason))
  }

  /** reduce_operation */
  function Reduce(m: Metadata, attempts: seq<Attempt>, p: Policy): Reduction {
    if attempts == [] then Err(NoAttempt) else ReduceOrdered(m, Sort(attempts), p)
  }

  predicate AllOf(m: Metadata, s: seq<Attempt>) {
    forall a :: a in s ==> a.metadata == m
  }

  function ReduceOrdered(m: Metadata, ordered: seq<Attempt>, p: Policy): Reduction
    requires ordered != []
  {
    if !Numbered(ordered) then Err(NotNumbered)
    else if !AllOf(m, ordered) then Err(Foreign)
    else if Actives(ordered) > 1 then Err(TwoActive)
    else ReduceLatest(ordered[|ordered| - 1], |ordered|, p)
  }

  // ---- sorting is a permutation, and the only one that is numbered ---------------------------

  lemma {:induction false} InsertKeeps(s: seq<Attempt>, a: Attempt)
    ensures multiset(Insert(s, a)) == multiset(s) + multiset{a}
  {
    if s != [] && s[|s| - 1].no > a.no {
      InsertKeeps(s[..|s| - 1], a);
      assert s == s[..|s| - 1] + [s[|s| - 1]];
    }
  }

  lemma {:induction false} InsertSorts(s: seq<Attempt>, a: Attempt)
    requires Ascending(s)
    ensures Ascending(Insert(s, a))
  {
    if s != [] && s[|s| - 1].no > a.no {
      InsertSorts(s[..|s| - 1], a);
      InsertKeeps(s[..|s| - 1], a);
      LastIsGreatest(s, a, Insert(s[..|s| - 1], a));
    }
  }

  lemma LastIsGreatest(s: seq<Attempt>, a: Attempt, front: seq<Attempt>)
    requires s != [] && Ascending(s) && a.no < s[|s| - 1].no
    requires multiset(front) == multiset(s[..|s| - 1]) + multiset{a}
    ensures forall i :: 0 <= i < |front| ==> front[i].no <= s[|s| - 1].no
  {
    forall i | 0 <= i < |front| ensures front[i].no <= s[|s| - 1].no {
      assert front[i] in multiset(front);
      assert front[i] in s[..|s| - 1] || front[i] == a;
    }
  }

  predicate Ascending(s: seq<Attempt>) {
    forall i, k :: 0 <= i < k < |s| ==> s[i].no <= s[k].no
  }

  lemma {:induction false} SortKeeps(s: seq<Attempt>)
    ensures multiset(Sort(s)) == multiset(s) && Ascending(Sort(s))
  {
    if s != [] {
      var n := |s| - 1;
      SortKeeps(s[..n]);
      InsertKeeps(Sort(s[..n]), s[n]);
      InsertSorts(Sort(s[..n]), s[n]);
      assert s == s[..n] + [s[n]];
    }
  }

  lemma WithoutLast<T>(s: seq<T>)
    requires s != []
    ensures multiset(s[..|s| - 1]) == multiset(s) - multiset{s[|s| - 1]}
  {
    assert s == s[..|s| - 1] + [s[|s| - 1]];
  }

  lemma SameFront(s: seq<Attempt>, t: seq<Attempt>)
    requires multiset(s) == multiset(t) && s != [] && t != [] && s[|s| - 1] == t[|t| - 1]
    ensures multiset(s[..|s| - 1]) == multiset(t[..|t| - 1])
    ensures s[..|s| - 1] == t[..|t| - 1] ==> s == t
  {
    WithoutLast(s);
    WithoutLast(t);
    assert s == s[..|s| - 1] + [s[|s| - 1]] && t == t[..|t| - 1] + [t[|t| - 1]];
  }

  /** An ascending order of attempts numbered 1..n is the numbered order. */
  lemma {:induction false} NumberedIsUnique(s: seq<Attempt>, t: seq<Attempt>)
    requires Numbered(s) && Ascending(t) && multiset(s) == multiset(t)
    ensures s == t
    decreases |s|
  {
    assert |s| == |multiset(s)| == |t|;
    if s != [] {
      SameLast(s, t);
      SameFront(s, t);
      NumberedIsUnique(s[..|s| - 1], t[..|t| - 1]);
    }
  }

  lemma SameLast(s: seq<Attempt>, t: seq<Attempt>)
    requires Numbered(s) && Ascending(t) && multiset(s) == multiset(t) && s != [] && |s| == |t|
    ensures s[|s| - 1] == t[|t| - 1]
  {
    var n := |s| - 1;
    assert s[n] in multiset(t) && t[n] in multiset(s);
    var k :| 0 <= k < |t| && t[k] == s[n];
    var j :| 0 <= j < |s| && s[j] == t[n];
  }

  /** Sorting two orders of the same attempts gives the same list, if one gives 1..n. */
  lemma SortIsCanonical(s: seq<Attempt>, t: seq<Attempt>)
    requires multiset(s) == multiset(t)
    ensures Numbered(Sort(s)) <==> Numbered(Sort(t))
    ensures Numbered(Sort(s)) ==> Sort(s) == Sort(t)
  {
    SortKeeps(s);
    SortKeeps(t);
    if Numbered(Sort(s)) {
      NumberedIsUnique(Sort(s), Sort(t));
    } else if Numbered(Sort(t)) {
      NumberedIsUnique(Sort(t), Sort(s));
    }
  }

  /** The order in which the attempts are given does not matter. */
  lemma ReductionIgnoresOrder(m: Metadata, s: seq<Attempt>, t: seq<Attempt>, p: Policy)
    requires multiset(s) == multiset(t)
    ensures Reduce(m, s, p) == Reduce(m, t, p)
  {
    SortIsCanonical(s, t);
    assert |s| == |multiset(s)| == |t|;
  }

  // ---- when it is defined, and what it gives ---------------------------------------------------

  /** A history as a caller sees it: some order of attempts 1..n of this operation, one active. */
  ghost predicate IsHistory(m: Metadata, attempts: seq<Attempt>) {
    && attempts != []
    && (forall a :: a in attempts ==> ValidAttempt(a) && a.metadata == m)
    && Numbered(Sort(attempts)) && Actives(Sort(attempts)) <= 1
  }

  function Latest(attempts: seq<Attempt>): Attempt
    requires attempts != []
  {
    Sort(attempts)[|attempts| - 1]
  }

  predicate Retries(a: Attempt) {
    a.status.Failed? && a.failure == Some(Retryable)
  }

  lemma LatestDecides(latest: Attempt, count: nat, p: Policy)
    requires ValidAttempt(latest)
    ensures var r := ReduceLatest(latest, count, p);
            && (r.Ok? <==> (Retries(latest) && count < p.maxAttempts ==> latest.completedAt.Some?))
            && (r.Err? ==> r.refusal == NotTimestamped)
            && (r.Ok? ==> ValidAggregate(r.aggregate) && r.aggregate.latest == latest.no)
            && (r.Ok? && Retries(latest) && count < p.maxAttempts ==>
                  && r.aggregate.failure == Some(Retryable) && r.aggregate.status.Failed?
                  && r.aggregate.nextRetryAt == Some(latest.completedAt.value + Delay(p, latest.no)))
            && (r.Ok? && !(Retries(latest) && count < p.maxAttempts) ==>
                  r.aggregate.failure != Some(Retryable) && r.aggregate.nextRetryAt.None?)
  {
  }

  lemma SortedAttempts(attempts: seq<Attempt>)
    ensures forall a :: a in Sort(attempts) <==> a in attempts
  {
    SortKeeps(attempts);
    forall a ensures a in Sort(attempts) <==> a in attempts {
      assert a in multiset(Sort(attempts)) <==> a in multiset(attempts);
    }
  }

  /** Over valid attempts, reduction succeeds exactly on the histories whose latest attempt, if it
      is to be retried, has a timestamp; and then the aggregate passes its own validator. */
  lemma ReductionIsDefined(m: Metadata, attempts: seq<Attempt>, p: Policy)
    requires forall a :: a in attempts ==> ValidAttempt(a)
    ensures Reduce(m, attempts, p).Ok? <==>
              && IsHistory(m, attempts)
              && (Retries(Latest(attempts)) && |attempts| < p.maxAttempts ==> Latest(attempts).completedAt.Some?)
    ensures Reduce(m, attempts, p).Ok? ==> ValidAggregate(Reduce(m, attempts, p).aggregate)
    ensures Reduce(m, attempts, p) != Err(InvalidAggregate)
  {
    if attempts != [] {
      SortedAttempts(attempts);
      assert Latest(attempts) in Sort(attempts);
      LatestDecides(Latest(attempts), |attempts|, p);
      assert AllOf(m, Sort(attempts)) <==> AllOf(m, attempts);
    }
  }

  /** Which failure goes with which status, and that there is a first attempt of every kind. */
  lemma ValidAttemptsExist(a: Attempt, kind: Option<FailureKind>)
    ensures FailureFits(Failed, kind) <==> kind in {Some(Terminal), Some(Retryable)}
    ensures FailureFits(Unknown, kind) <==> kind == Some(UnknownEffect)
    ensures a.status !in {Failed, Unknown} ==> (FailureFits(a.status, kind) <==> kind == None)
    ensures (a.no == 1 && a.status in {Prepared, Running, Completed, Failed} && FailureFits(a.status, a.failure)
             && a.skipReason.None? && a.abandonment.None?) ==> ValidAttempt(a)
  {
  }

  /** Why a reduction is refused, the first reason first. */
  lemma WhyReductionIsRefused(m: Metadata, attempts: seq<Attempt>, p: Policy)
    requires forall a :: a in attempts ==> ValidAttempt(a)
    ensures var r, numbered, own := Reduce(m, attempts, p), Numbered(Sort(attempts)), forall a :: a in attempts ==> a.metadata == m;
            && (r == Err(NoAttempt) <==> attempts == [])
            && (r == Err(NotNumbered) <==> attempts != [] && !numbered)
            && (r == Err(Foreign) <==> attempts != [] && numbered && !own)
            && (r == Err(TwoActive) <==> attempts != [] && numbered && own && Actives(Sort(attempts)) > 1)
            && r != Err(InvalidAggregate)
  {
    if attempts != [] {
      SortedAttempts(attempts);
      assert Latest(attempts) in Sort(attempts);
      LatestDecides(Latest(attempts), |attempts|, p);
      assert AllOf(m, Sort(attempts)) <==> AllOf(m, attempts);
    }
  }

  /** A retryable aggregate: the n-th of fewer than max_attempts attempts failed retryably, and
      the next one is due after the delay for n. Every other reduction has no retry time. */
  lemma RetryableAggregates(m: Metadata, attempts: seq<Attempt>, p: Policy)
    requires (forall a :: a in attempts ==> ValidAttempt(a)) && Reduce(m, attempts, p).Ok?
    ensures var g := Reduce(m, attempts, p).aggregate;
            && attempts != [] && g.latest == |attempts|
            && (g.failure == Some(Retryable) <==> Retries(Latest(attempts)) && |attempts| < p.maxAttempts)
            && (g.failure == Some(Retryable) ==>
                  && g.status.Failed? && Latest(attempts).completedAt.Some?
                  && g.nextRetryAt == Some(Latest(attempts).completedAt.value + Delay(p, |attempts|)))
            && (g.failure != Some(Retryable) ==> g.nextRetryAt.None?)
  {
    SortedAttempts(attempts);
    assert Latest(attempts) in Sort(attempts);
    LatestDecides(Latest(attempts), |attempts|, p);
  }

  /** An attempt that may still take effect: not begun, under way, or of unknown effect that nobody
      has looked into. Two of them are refused, and no others stand in each other's way. */
  lemma OneAttemptAtATime(m: Metadata, attempts: seq<Attempt>, p: Policy, x: Attempt, y: Attempt)
    requires Reduce(m, attempts, p).Ok? && x in attempts && y in attempts && x.no != y.no
    requires x.status in {Prepared, Running} || (x.status == Unknown && x.resolution == Some(Unresolved))
    ensures y.status !in {Prepared, Running} && (y.status == Unknown ==> y.resolution != Some(Unresolved))
  {
    SortedAttempts(attempts);
    var s := Sort(attempts);
    var i :| 0 <= i < |s| && s[i] == x;
    var k :| 0 <= k < |s| && s[k] == y;
    ActivesApart(s, i, k);
  }

  lemma {:induction false} ActivesCounted(s: seq<Attempt>, i: nat)
    requires i < |s|
    ensures IsActive(s[i]) ==> Actives(s) >= 1
  {
    if i < |s| - 1 {
      ActivesCounted(s[..|s| - 1], i);
    }
  }

  lemma {:induction false} ActivesApart(s: seq<Attempt>, i: nat, k: nat)
    requires i < |s| && k < |s| && i != k && Actives(s) <= 1
    ensures !(IsActive(s[i]) && IsActive(s[k]))
  {
    var n := |s| - 1;
    if i < n && k < n {
      ActivesApart(s[..n], i, k);
    } else {
      ActivesCounted(s[..n], if i < n then i else k);
    }
  }

  lemma {:induction false} InactiveCountNothing(s: seq<Attempt>)
    requires forall a :: a in s ==> a.status in {Completed, Failed, Skipped, Abandoned} || (a.status == Unknown && a.resolution != Some(Unresolved))
    ensures Actives(s) == 0
  {
    if s != [] {
      InactiveCountNothing(s[..|s| - 1]);
    }
  }

  predicate IsLatest(attempts: seq<Attempt>, a: Attempt) {
    a in attempts && forall b :: b in attempts ==> b.no <= a.no
  }

  lemma LatestIsLatest(m: Metadata, attempts: seq<Attempt>, p: Policy, a: Attempt)
    requires (forall x :: x in attempts ==> ValidAttempt(x)) && Reduce(m, attempts, p).Ok? && IsLatest(attempts, a)
    ensures a == Latest(attempts) && a.no == |attempts| && ValidAttempt(a)
  {
    SortedAttempts(attempts);
    var s := Sort(attempts);
    assert a in s && s[|s| - 1] in attempts;
    var i :| 0 <= i < |s| && s[i] == a;
  }

  predicate Confirmed(a: Attempt, resolution: Resolution) {
    a.status.Unknown? && a.resolution == Some(resolution)
  }

  predicate Exhausted(a: Attempt, count: nat, p: Policy) {
    Retries(a) && count >= p.maxAttempts
  }

  /** Completed: the attempt completed, or was confirmed to have succeeded; with its result and its
      source, or a human's word. */
  predicate CompletedLike(g: Aggregate, a: Attempt) {
    var succeeded := Confirmed(a, ConfirmedSucceeded);
    && (g.status.Completed? <==> a.status.Completed? || succeeded)
    && (g.status.Completed? ==> g.result == a.result && g.failure.None?
                                && g.source == if succeeded && a.source.None? then Some(HumanConfirmed) else a.source)
  }

  /** Failed for good: the attempt failed terminally, was confirmed to have failed, or may not be
      retried again; with the reason of each. Failed, to be retried: with its own reason. */
  predicate FailedLike(g: Aggregate, a: Attempt, n: nat, p: Policy) {
    var failed, exhausted := Confirmed(a, ConfirmedFailed), Exhausted(a, n, p);
    && (g.status.Failed? && g.failure == Some(Terminal) <==>
          (a.status.Failed? && a.failure == Some(Terminal)) || failed || exhausted)
    && (g.status.Failed? && g.failure == Some(Terminal) ==>
          g.reason == if exhausted then Some(RetryExhausted)
                      else if failed && a.reason.None? then Some(HumanConfirmedFailed) else a.reason)
    && (failed || exhausted ==> g.result.None? && g.source.None? && g.skipReason.None?)
    && (g.status.Failed? && g.failure == Some(Retryable) ==> Retries(a) && n < p.maxAttempts && g.reason == a.reason)
  }

  /** Everything else is the attempt's own state. */
  predicate PassedOn(g: Aggregate, a: Attempt) {
    !Retries(a) && !Confirmed(a, ConfirmedSucceeded) && !Confirmed(a, ConfirmedFailed) ==>
      g == Aggregate(a.status, a.failure, a.reason, a.no, None, a.result, a.source, a.skipReason)
  }

  lemma LatestIsFollowed(a: Attempt, n: nat, p: Policy)
    requires ValidAttempt(a) && ReduceLatest(a, n, p).Ok?
    ensures var g := ReduceLatest(a, n, p).aggregate;
            g.latest == a.no && CompletedLike(g, a) && FailedLike(g, a, n, p) && PassedOn(g, a)
  {
  }

  /** What a reduction says, in terms of the attempt with the highest number alone. */
  lemma ReductionFollowsTheLatest(m: Metadata, attempts: seq<Attempt>, p: Policy, a: Attempt)
    requires (forall x :: x in attempts ==> ValidAttempt(x)) && Reduce(m, attempts, p).Ok? && IsLatest(attempts, a)
    ensures var g := Reduce(m, attempts, p).aggregate;
            g.latest == a.no && CompletedLike(g, a) && FailedLike(g, a, |attempts|, p) && PassedOn(g, a)
  {
    LatestIsLatest(m, attempts, p, a);
    LatestIsFollowed(a, |attempts|, p);
  }

  /** Delays never shrink from one attempt to the next, and stay within the policy's bounds. */
  lemma {:induction false} DelaysGrow(p: Policy, n: nat, k: nat)
    requires 1 <= n <= k && p.base >= 0.0 && p.max >= 0.0
    ensures 0.0 <= Delay(p, n) <= Delay(p, k) <= p.max
    decreases k - n
  {
    PowerIsPositive(n - 1);
    if n < k {
      DelaysGrow(p, n + 1, k);
      assert Power(n) == 2.0 * Power(n - 1);
      assert p.base * Power(n) == 2.0 * (p.base * Power(n - 1));
    }
  }

  /** The first delay is the base, each next one twice the one before, and none above the maximum. */
  lemma DelaysDouble(p: Policy, n: nat)
    requires n >= 1 && p.base >= 0.0 && p.max >= 0.0
    ensures Delay(p, 1) == if p.max <= p.base then p.max else p.base
    ensures Delay(p, n + 1) == if p.max <= 2.0 * Delay(p, n) then p.max else 2.0 * Delay(p, n)
  {
    PowerIsPositive(n - 1);
    assert Power(0) == 1.0;
    assert Power(n) == 2.0 * Power(n - 1);
    assert p.base * Power(n) == 2.0 * (p.base * Power(n - 1));
    assert p.base * Power(n - 1) >= 0.0;
  }

  lemma {:induction false} PowerIsPositive(n: nat)
    ensures Power(n) > 0.0
  {
    if n > 0 {
      PowerIsPositive(n - 1);
    }
  }

  /** A history that grows by one attempt at a time, each after a retryable reduction. */
  ghost predicate GrowsByRetries(m: Metadata, p: Policy, histories: seq<seq<Attempt>>) {
    && histories != [] && |histories[0]| == 1
    && (forall i, a :: 0 <= i < |histories| && a in histories[i] ==> ValidAttempt(a))
    && forall i :: 0 < i < |histories| ==> RetriedOnce(m, p, histories, i)
  }

  ghost predicate RetriedOnce(m: Metadata, p: Policy, histories: seq<seq<Attempt>>, i: int)
    requires 0 < i < |histories|
  {
    && |histories[i]| == |histories[i - 1]| + 1
    && Reduce(m, histories[i - 1], p).Ok?
    && Reduce(m, histories[i - 1], p).aggregate.failure == Some(Retryable)
  }

  lemma RetriesAreBounded(m: Metadata, p: Policy, histories: seq<seq<Attempt>>, i: nat)
    requires p.maxAttempts >= 1 && GrowsByRetries(m, p, histories) && i < |histories|
    ensures |histories[i]| <= p.maxAttempts
  {
    if i > 0 {
      assert RetriedOnce(m, p, histories, i);
      RetryableAggregates(m, histories[i - 1], p);
    }
  }

  // ---- scheduling -----------------------------------------------------------------------------

  datatype TaskState = Ended | NeedsRecovery | Live
  datatype Execution = Idle | WaitingHuman | Acting | Elsewhere

  datatype AgentState = AgentState(
    task: TaskState, fenced: bool, deadline: Option<real>, cancelling: bool, execution: Execution)

  /** The attempt has not begun, or has ended. */
  predicate MayGoOn(status: Status) {
    match status
    case Prepared => true
    case Completed => true
    case Failed => true
    case Skipped => true
    case Abandoned => true
    case Unknown => false
    case Running => false
  }

  /** is_runnable, of an operation whose state is the given aggregate. */
  predicate IsRunnable(s: AgentState, operation: Option<Aggregate>, attempt: Option<Attempt>, p: Policy, now: real) {
    if s.task in {Ended, NeedsRecovery} || s.fenced then false
    else if s.deadline.Some? && !s.cancelling && now >= s.deadline.value then false
    else if s.execution.WaitingHuman? then false
    else if s.execution.Acting? then
      operation.Some? && attempt.Some? && MayGoOn(attempt.value.status)
    else if operation.Some? && operation.value.status.Failed? then
      if operation.value.failure != Some(Retryable) then true
      else operation.value.nextRetryAt.Some? && p.automatic && now >= operation.value.nextRetryAt.value
    else true
  }

  /** Nothing else stops this run. */
  predicate Unhindered(s: AgentState, now: real) {
    && s.task.Live? && !s.fenced && !s.execution.WaitingHuman?
    && (s.deadline.None? || s.cancelling || now < s.deadline.value)
  }

  /** Nothing runs while something hinders it; and apart from acting, and from an operation that is to
      be retried, whatever nothing hinders runs. */
  lemma RunsUnlessHindered(s: AgentState, operation: Option<Aggregate>, attempt: Option<Attempt>, p: Policy, now: real)
    ensures IsRunnable(s, operation, attempt, p, now) ==> Unhindered(s, now)
    ensures !s.execution.Acting? && (operation.Some? && operation.value.status.Failed? ==> operation.value.failure != Some(Retryable)) ==>
              (IsRunnable(s, operation, attempt, p, now) <==> Unhindered(s, now))
    ensures s.execution.Acting? && IsRunnable(s, operation, attempt, p, now) ==>
              operation.Some? && attempt.Some? && attempt.value.status !in {Running, Unknown}
  {
  }

  /** A retryable operation is run before its time exactly while the agent is acting on an attempt
      that has ended or not begun; otherwise never before completion plus delay, nor by hand-only
      policies. */
  lemma RetryTimeIsRespectedOutsideActing(
      m: Metadata, attempts: seq<Attempt>, p: Policy, s: AgentState, current: Option<Attempt>, now: real)
    requires (forall a :: a in attempts ==> ValidAttempt(a)) && Reduce(m, attempts, p).Ok?
    requires Reduce(m, attempts, p).aggregate.failure == Some(Retryable) && Unhindered(s, now)
    ensures var g := Reduce(m, attempts, p).aggregate;
            && attempts != [] && Latest(attempts).completedAt.Some?
            && g.nextRetryAt == Some(Latest(attempts).completedAt.value + Delay(p, |attempts|))
            && (s.execution.Acting? ==>
                  (IsRunnable(s, Some(g), current, p, now) <==>
                    current.Some? && !current.value.status.Running? && !current.value.status.Unknown?))
            && (!s.execution.Acting? ==>
                  (IsRunnable(s, Some(g), current, p, now) <==> p.automatic && now >= g.nextRetryAt.value))
  {
    RetryableAggregates(m, attempts, p);
  }
}
