/** The closed form for an endpoint that never answers: how the per-file budget of attempts and
    the breaker that spans files add up over a batch. */
module DeadEndpoint {
  import opened Types
  import opened Worker
  import opened WorkerSafety

  predicate IsConnect(a: Action) { a.Connect? }
  predicate IsSleep(a: Action) { a.Sleep? }
  predicate IsError(a: Action) { a.Send? && a.event.FileError? }
  predicate IsUnreachable(a: Action) { a.Send? && a.event.Unreachable? }

  /** No cancellation, and every connect fails. */
  predicate Dead(log: seq<Action>) {
    forall k :: 0 <= k < |log| ==> Refuses(log[k])
  }

  predicate Refuses(a: Action) {
    !a.Cancel? && (a.Connect? ==> a.failure.Some?)
  }

  /** The files it takes to use up `m` attempts, `a` per file: m / a, rounded up. */
  function CeilDiv(m: int, a: int): int
    requires a > 0
  {
    (m + a - 1) / a
  }

  lemma CeilDivIs(m: int, a: int, i: int)
    requires a > 0 && (i - 1) * a < m <= i * a
    ensures CeilDiv(m, a) == i
  {
    var x := m + a - 1 - i * a;
    assert 0 <= x < a;
    assert m + a - 1 == a * i + x;
    DivIs(m + a - 1, a, i, x);
  }

  lemma DivIs(x: int, a: int, q: int, r: int)
    requires a > 0 && 0 <= r < a && x == a * q + r
    ensures x / a == q
  {
    var d := x / a - q;
    assert x == a * (x / a) + x % a;
    assert a * d == r - x % a;
    assert -a < a * d < a;
  }

  function Min(x: int, y: int): int { if x <= y then x else y }

  /** connects, sleeps, errors and unreachable events so far */
  datatype Tally = Tally(connects: nat, sleeps: nat, errors: nat, skips: nat)

  function TallyOf(log: seq<Action>): Tally {
    Tally(Count(IsConnect, log), Count(IsSleep, log), Count(IsError, log), Count(IsUnreachable, log))
  }

  /** Where a dead batch stands.  Every file but the last one tried has used all its attempts,
      with a sleep after each attempt but the last. */
  predicate DeadInv(b: Batch, s: State, y: Tally) {
    var A, M, n := b.ep.policy.attempts, b.ep.policy.maxConnectFailures, |b.files|;
    && !s.canceled && !s.connected && s.permanent.None? && s.succeeded == 0 && !Online(s.pc) && !s.pc.GivingUp?
    && (InAttempt(s.pc) ==>
        var done := s.i * A + s.attempt - (if s.pc.AttemptPoll? || s.pc.Dialing? then 1 else 0);
        && y.connects == done && s.failures == (if s.pc.DialPoll? then done - 1 else done)
        && y.sleeps == done - s.i - (if s.pc.AttemptPoll? || s.pc.Dialing? then 0 else 1)
        && y.errors == (if s.pc.DialPoll? || s.pc.DialReport? then done - 1 else done)
        && y.skips == 0)
    && (!InAttempt(s.pc) ==>
        && y.connects == s.failures && y.sleeps == y.connects - s.i
        && y.errors == y.connects + (if s.failures == M then 1 else 0)
        && (if s.failures < M then s.failures == s.i * A else (s.i - 1) * A < M <= s.i * A && s.failures == M)
        && (s.pc.FilePoll? || s.pc.Skipping? ==> y.skips == 0)
        && (AtEnd(s.pc) ==> y.skips == if s.i < n then 1 else 0)
        && (AtEnd(s.pc) && s.i < n ==> s.failures == M))
  }

  lemma DeadStep(b: Batch, s: State, a: Action, t: State, y: Tally)
    requires 1 <= b.ep.policy.attempts && 1 <= b.ep.policy.maxConnectFailures
    requires Inv(b, s) && Step(b, s, a) == Some(t) && Refuses(a) && DeadInv(b, s, y)
    ensures DeadInv(b, t, Tally(y.connects + (if a.Connect? then 1 else 0), y.sleeps + (if a.Sleep? then 1 else 0),
                                y.errors + (if IsError(a) then 1 else 0),
                                y.skips + (if IsUnreachable(a) then 1 else 0)))
  {
    var A := b.ep.policy.attempts;
    hide StepTransfer, TallyInv;
    assert (s.i + 1) * A == s.i * A + A;
    assert (s.i - 1) * A == s.i * A - A;
  }

  lemma TallyOne(log: seq<Action>, a: Action)
    ensures TallyOf(log + [a]) ==
            var y := TallyOf(log);
            Tally(y.connects + (if a.Connect? then 1 else 0), y.sleeps + (if a.Sleep? then 1 else 0),
                  y.errors + (if IsError(a) then 1 else 0), y.skips + (if IsUnreachable(a) then 1 else 0))
  {
    assert (log + [a])[..|log|] == log;
  }

  lemma {:induction false} DeadHolds(b: Batch, log: seq<Action>, s: State)
    requires 1 <= b.ep.policy.attempts && 1 <= b.ep.policy.maxConnectFailures
    requires Reaches(b, log, s) && Dead(log)
    ensures Inv(b, s) && DeadInv(b, s, TallyOf(log))
  {
    hide Inv, Step, DeadInv, Init, TallyOf;
    if log == [] {
      InvInit(b);
      DeadInit(b);
    } else {
      var m := |log| - 1;
      var t := Run(b, Init(b), log[..m]).value;
      DeadHolds(b, log[..m], t);
      InvStep(b, t, log[m], s);
      DeadStep(b, t, log[m], s, TallyOf(log[..m]));
      TallyOne(log[..m], log[m]);
      assert log[..m] + [log[m]] == log;
    }
  }

  lemma DeadInit(b: Batch)
    requires 1 <= b.ep.policy.attempts && 1 <= b.ep.policy.maxConnectFailures
    ensures DeadInv(b, Init(b), TallyOf([]))
  {
  }

  /** n files, A attempts each, breaker limit M, an endpoint that refuses every connect, and no
      cancellation: with K = min(M, n * A) the worker makes exactly K connects and K - ceil(K/A)
      retry sleeps, reports K errors and one more when the breaker trips (M <= n * A), and
      reports the endpoint unreachable once, for the n - ceil(M/A) files then left, if any. */
  lemma DeadBatch(b: Batch, log: seq<Action>, s: State)
    requires 1 <= b.ep.policy.attempts && 1 <= b.ep.policy.maxConnectFailures
    requires Reaches(b, log, s) && Dead(log) && s.pc.Halted?
    ensures var n, A, M := |b.files|, b.ep.policy.attempts, b.ep.policy.maxConnectFailures;
            var K := Min(M, n * A);
            && Count(IsConnect, log) == K
            && Count(IsSleep, log) == K - CeilDiv(K, A)
            && Count(IsError, log) == K + (if M <= n * A then 1 else 0)
            && Count(IsUnreachable, log) == (if M <= n * A && CeilDiv(M, A) < n then 1 else 0)
            && s.succeeded == 0 && s.failed == n
  {
    hide Run, Init, Dead, Count, Min, CeilDiv, BreakerInv;
    DeadHolds(b, log, s);
    DeadTotals(|b.files|, b.ep.policy.attempts, b.ep.policy.maxConnectFailures, s.i, s.failures);
  }

  /** Where the refused connects run out, in numbers: `f` of them, over `i` files. */
  lemma DeadTotals(n: nat, A: int, M: int, i: nat, f: int)
    requires 1 <= A && 1 <= M && i <= n && f <= M
    requires if f < M then i == n && f == n * A else (i - 1) * A < M <= i * A
    ensures f == Min(M, n * A) && i == CeilDiv(f, A)
    ensures f == M <==> M <= n * A
  {
    if f < M {
      assert (n - 1) * A == n * A - A;
      CeilDivIs(f, A, i);
    } else {
      MulMonotone(i, n, A);
      CeilDivIs(M, A, i);
    }
  }

  lemma MulMonotone(x: int, y: int, d: int)
    requires x <= y && 0 <= d
    ensures x * d <= y * d
  {
  }

  /** The files reported unreachable are those after the first ceil(M/A). */
  lemma {:induction false} DeadSkips(b: Batch, log: seq<Action>, s: State)
    requires 1 <= b.ep.policy.attempts && 1 <= b.ep.policy.maxConnectFailures
    requires Reaches(b, log, s) && Dead(log)
    ensures forall k :: 0 <= k < |log| && IsUnreachable(log[k]) ==>
      var skipFrom := CeilDiv(b.ep.policy.maxConnectFailures, b.ep.policy.attempts);
      skipFrom < |b.files|
      && log[k].event == Unreachable(b.ep.name, b.ep.policy.maxConnectFailures, b.files[skipFrom..])
  {
    hide Inv, Step, Init, DeadInv, CeilDiv;
    if log != [] {
      var m := |log| - 1;
      var t := Run(b, Init(b), log[..m]).value;
      DeadSkips(b, log[..m], t);
      if IsUnreachable(log[m]) {
        DeadHolds(b, log[..m], t);
        DeadSkipStep(b, t, log[m], s, TallyOf(log[..m]));
      }
    }
  }

  lemma DeadSkipStep(b: Batch, s: State, a: Action, t: State, y: Tally)
    requires 1 <= b.ep.policy.attempts && 1 <= b.ep.policy.maxConnectFailures
    requires Inv(b, s) && Step(b, s, a) == Some(t) && IsUnreachable(a) && DeadInv(b, s, y)
    ensures var skipFrom := CeilDiv(b.ep.policy.maxConnectFailures, b.ep.policy.attempts);
            skipFrom < |b.files|
            && a.event == Unreachable(b.ep.name, b.ep.policy.maxConnectFailures, b.files[skipFrom..])
  {
    hide CeilDiv;
    assert s.pc.Skipping?;
    CeilDivIs(b.ep.policy.maxConnectFailures, b.ep.policy.attempts, s.i);
  }
}
