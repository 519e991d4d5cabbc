/** The refund sweep's retry backoff: who is tried when, and how often at most. */
module Scheduler {
  type Id = string

  /** Times and durations are in nanoseconds. */
  const MINUTE: int := 60_000_000_000
  const HOUR: int := 60 * MINUTE

  datatype SweepFailure = SweepFailure(count: nat, nextAttempt: int)

  /** How one refund attempt ended, and when its result was known. */
  datatype Trial = Trial(ok: bool, doneAt: int)

  datatype Attempt = Attempt(id: Id, at: int, doneAt: int, failed: bool)

  /** The failure table and, for the record, every attempt made so far. */
  datatype Desk = Desk(failures: map<Id, SweepFailure>, attempts: seq<Attempt>)

  function Pow2(n: nat): (p: nat)
    ensures p > 0
  {
    if n == 0 then 1 else 2 * Pow2(n - 1)
  }

  function Min(a: int, b: int): int
  {
    if a < b then a else b
  }

  /** The delay after the `count`-th consecutive failure, with the shift clamped at six. */
  function Delay(count: nat): int
    requires count > 0
  {
    Min(MINUTE * Pow2(Min(count - 1, 6)), HOUR)
  }

  predicate InBackoff(failures: map<Id, SweepFailure>, id: Id, now: int)
  {
    id in failures && now < failures[id].nextAttempt
  }

  function FailureRecorded(failures: map<Id, SweepFailure>, id: Id, doneAt: int): map<Id, SweepFailure>
  {
    var count := (if id in failures then failures[id].count else 0) + 1;
    failures[id := SweepFailure(count, doneAt + Delay(count))]
  }

  /** One listed cheque's turn in a sweep that started at `now`. */
  function TurnStep(desk: Desk, id: Id, now: int, trial: Trial): Desk
  {
    if InBackoff(desk.failures, id, now) then desk
    else if trial.ok then Desk(desk.failures - {id}, desk.attempts + [Attempt(id, now, trial.doneAt, false)])
    else Desk(FailureRecorded(desk.failures, id, trial.doneAt), desk.attempts + [Attempt(id, now, trial.doneAt, true)])
  }

  /** The first `n` turns of a sweep over the listed cheques. */
  function SweepStep(desk: Desk, expired: seq<Id>, now: int, trials: seq<Trial>, n: nat): Desk
    requires n <= |expired| == |trials|
  {
    if n == 0 then desk else TurnStep(SweepStep(desk, expired, now, trials, n - 1), expired[n - 1], now, trials[n - 1])
  }

  class RefundSweeper {
    var failures: map<Id, SweepFailure>
    ghost var attempts: seq<Attempt>

    constructor ()
      ensures Snapshot() == Desk(map[], [])
    {
      failures := map[];
      attempts := [];
    }

    ghost function Snapshot(): Desk
      reads this
    {
      Desk(failures, attempts)
    }

    method RecordFailure(id: Id, doneAt: int)
      modifies this`failures
      ensures failures == FailureRecorded(old(failures), id, doneAt)
    {
      var f := if id in failures then failures[id] else SweepFailure(0, 0);
      f := f.(count := f.count + 1);
      var shift := f.count - 1;
      if shift > 6 { shift := 6; }
      var delay := MINUTE * Pow2(shift);
      if delay > HOUR { delay := HOUR; }
      f := f.(nextAttempt := doneAt + delay);
      failures := failures[id := f];
    }

    method ClearFailure(id: Id)
      modifies this`failures
      ensures failures == old(failures) - {id}
    {
      failures := failures - {id};
    }

    /** `trials[i]` is what refunding `expired[i]` would come to, if it is tried. */
    method SweepExpiredCheques(expired: seq<Id>, now: int, trials: seq<Trial>)
      requires |trials| == |expired|
      modifies this
      ensures Snapshot() == SweepStep(old(Snapshot()), expired, now, trials, |expired|)
    {
      for i := 0 to |expired|
        invariant Snapshot() == SweepStep(old(Snapshot()), expired, now, trials, i)
      {
        var id := expired[i];
        if InBackoff(failures, id, now) {
          continue;
        }
        if !trials[i].ok {
          RecordFailure(id, trials[i].doneAt);
          attempts := attempts + [Attempt(id, now, trials[i].doneAt, true)];
          continue;
        }
        ClearFailure(id);
        attempts := attempts + [Attempt(id, now, trials[i].doneAt, false)];
      }
    }
  }

  // ---- Runs of sweeps ----------------------------------------------------

  datatype Sweep = Sweep(expired: seq<Id>, now: int, trials: seq<Trial>)

  /** A trial's result is known no earlier than its sweep began. */
  predicate Timely(s: Sweep)
  {
    |s.expired| == |s.trials| && forall i :: 0 <= i < |s.trials| ==> s.trials[i].doneAt >= s.now
  }

  function Run(desk: Desk, sweeps: seq<Sweep>): Desk
    requires forall i :: 0 <= i < |sweeps| ==> Timely(sweeps[i])
  {
    if sweeps == [] then desk
    else
      var s := sweeps[|sweeps| - 1];
      assert Timely(s);
      SweepStep(Run(desk, sweeps[..|sweeps| - 1]), s.expired, s.now, s.trials, |s.expired|)
  }

  const NEW_DESK: Desk := Desk(map[], [])

  /** The failed attempts on a cheque since it last succeeded. */
  function Streak(attempts: seq<Attempt>, id: Id): seq<Attempt>
  {
    if attempts == [] then []
    else
      var before, last := attempts[..|attempts| - 1], attempts[|attempts| - 1];
      if last.id != id then Streak(before, id)
      else if last.failed then Streak(before, id) + [last]
      else []
  }

  ghost predicate Spaced(streak: seq<Attempt>)
  {
    && (forall j :: 0 <= j < |streak| ==> streak[j].doneAt >= streak[j].at)
    && (forall j :: 0 < j < |streak| ==> streak[j].at >= streak[j - 1].doneAt + Delay(j))
  }

  /** The table remembers exactly the length of each streak and when it may go on. */
  ghost predicate Remembers(desk: Desk, id: Id)
  {
    var streak := Streak(desk.attempts, id);
    && Spaced(streak)
    && (id in desk.failures <==> streak != [])
    && (streak != [] ==>
          desk.failures[id] == SweepFailure(|streak|, streak[|streak| - 1].doneAt + Delay(|streak|)))
  }

  lemma StreakAppend(attempts: seq<Attempt>, a: Attempt, id: Id)
    ensures Streak(attempts + [a], id)
         == if a.id != id then Streak(attempts, id) else if a.failed then Streak(attempts, id) + [a] else []
  {
  }

  lemma SpacedAppend(streak: seq<Attempt>, a: Attempt)
    requires Spaced(streak) && a.doneAt >= a.at
    requires streak != [] ==> a.at >= streak[|streak| - 1].doneAt + Delay(|streak|)
    ensures Spaced(streak + [a])
  {
  }

  lemma FailureRemembered(desk: Desk, id: Id, now: int, doneAt: int)
    requires Remembers(desk, id) && doneAt >= now && !InBackoff(desk.failures, id, now)
    ensures Remembers(TurnStep(desk, id, now, Trial(false, doneAt)), id)
  {
    var streak := Streak(desk.attempts, id);
    var a := Attempt(id, now, doneAt, true);
    StreakAppend(desk.attempts, a, id);
    SpacedAppend(streak, a);
    assert (if id in desk.failures then desk.failures[id].count else 0) == |streak|;
  }

  lemma TurnRemembers(desk: Desk, tried: Id, now: int, trial: Trial, id: Id)
    requires Remembers(desk, id) && trial.doneAt >= now
    ensures Remembers(TurnStep(desk, tried, now, trial), id)
  {
    if tried == id && !InBackoff(desk.failures, id, now) && !trial.ok {
      FailureRemembered(desk, id, now, trial.doneAt);
    } else {
      StreakAppend(desk.attempts, Attempt(tried, now, trial.doneAt, !trial.ok), id);
    }
  }

  lemma {:induction false} SweepRemembers(desk: Desk, s: Sweep, n: nat, id: Id)
    requires Timely(s) && n <= |s.expired| && Remembers(desk, id)
    ensures Remembers(SweepStep(desk, s.expired, s.now, s.trials, n), id)
  {
    if n > 0 {
      SweepRemembers(desk, s, n - 1, id);
      TurnRemembers(SweepStep(desk, s.expired, s.now, s.trials, n - 1), s.expired[n - 1], s.now, s.trials[n - 1], id);
    }
  }

  lemma {:induction false} RunRemembers(sweeps: seq<Sweep>, id: Id)
    requires forall i :: 0 <= i < |sweeps| ==> Timely(sweeps[i])
    ensures Remembers(Run(NEW_DESK, sweeps), id)
  {
    if sweeps != [] {
      RunRemembers(sweeps[..|sweeps| - 1], id);
      SweepRemembers(Run(NEW_DESK, sweeps[..|sweeps| - 1]), sweeps[|sweeps| - 1], |sweeps[|sweeps| - 1].expired|, id);
    }
  }

  // ---- How often at most -------------------------------------------------

  /** The waiting between the first and the `n + 1`-th attempt of a streak. */
  function Waited(n: nat): int
  {
    if n == 0 then 0 else Waited(n - 1) + Delay(n)
  }

  lemma {:induction false} Pow2Grows(a: nat, b: nat)
    requires a <= b
    ensures Pow2(a) <= Pow2(b)
    decreases b - a
  {
    if a < b {
      Pow2Grows(a, b - 1);
    }
  }

  /** Clamping the shift changes nothing: the delay is the doubled minute capped at an hour. */
  lemma DelayIsCappedDoubling(count: nat)
    requires count > 0
    ensures Delay(count) == Min(MINUTE * Pow2(count - 1), HOUR)
  {
    assert Pow2(6) == 64 by {
      assert Pow2(3) == 8;
    }
    if count - 1 > 6 {
      Pow2Grows(6, count - 1);
    }
  }

  lemma FirstDelays()
    ensures Delay(1) == MINUTE && Delay(2) == 2 * MINUTE && Delay(3) == 4 * MINUTE
    ensures Delay(4) == 8 * MINUTE && Delay(5) == 16 * MINUTE && Delay(6) == 32 * MINUTE
    ensures forall k: nat :: k >= 7 ==> Delay(k) == HOUR
  {
  }

  lemma {:induction false} WaitedInClosedForm(k: nat)
    requires k >= 7
    ensures Waited(k - 1) == (63 + 60 * (k - 7)) * MINUTE
  {
    FirstDelays();
    if k == 7 {
      assert Waited(2) == 3 * MINUTE && Waited(4) == 15 * MINUTE;
    } else {
      WaitedInClosedForm(k - 1);
    }
  }

  lemma {:induction false} SpacedAddsUp(streak: seq<Attempt>, j: nat)
    requires Spaced(streak) && j < |streak|
    ensures streak[j].at >= streak[0].at + Waited(j)
  {
    if j > 0 {
      SpacedAddsUp(streak, j - 1);
    }
  }

  /**
   * Retry rate: over any run of sweeps, the k-th consecutive failed attempt on a cheque
   * comes no earlier than the capped doublings add up to, which from the seventh on is 63
   * minutes plus an hour for each further one; and the next attempt waits again as long.
   */
  lemma RetryRate(sweeps: seq<Sweep>, id: Id, k: nat, now: int)
    requires forall i :: 0 <= i < |sweeps| ==> Timely(sweeps[i])
    requires 1 <= k <= |Streak(Run(NEW_DESK, sweeps).attempts, id)|
    ensures var streak := Streak(Run(NEW_DESK, sweeps).attempts, id);
            && streak[k - 1].at >= streak[0].at + Waited(k - 1)
            && (k >= 7 ==> streak[k - 1].at >= streak[0].at + (63 + 60 * (k - 7)) * MINUTE)
            && (!InBackoff(Run(NEW_DESK, sweeps).failures, id, now) ==> now >= streak[|streak| - 1].at + Delay(|streak|))
  {
    RunRemembers(sweeps, id);
    SpacedAddsUp(Streak(Run(NEW_DESK, sweeps).attempts, id), k - 1);
    if k >= 7 {
      WaitedInClosedForm(k);
    }
  }

  /**
   * Neither longer nor shorter: after any run of sweeps a cheque is held back exactly while it
   * has failed since it last succeeded and the capped doubling has not passed since its last
   * failure was known.
   */
  lemma HeldBackExactly(sweeps: seq<Sweep>, id: Id, now: int)
    requires forall i :: 0 <= i < |sweeps| ==> Timely(sweeps[i])
    ensures var streak := Streak(Run(NEW_DESK, sweeps).attempts, id);
            InBackoff(Run(NEW_DESK, sweeps).failures, id, now)
            <==> streak != [] && now < streak[|streak| - 1].doneAt + Min(MINUTE * Pow2(|streak| - 1), HOUR)
  {
    RunRemembers(sweeps, id);
    if Streak(Run(NEW_DESK, sweeps).attempts, id) != [] {
      DelayIsCappedDoubling(|Streak(Run(NEW_DESK, sweeps).attempts, id)|);
    }
  }

  // ---- Nobody is skipped -------------------------------------------------

  predicate Distinct(ids: seq<Id>)
  {
    forall i, j :: 0 <= i < j < |ids| ==> ids[i] != ids[j]
  }

  /** The listed cheques not in backoff when the sweep starts, in order. */
  function Due(failures: map<Id, SweepFailure>, expired: seq<Id>, now: int, n: nat): seq<Id>
    requires n <= |expired|
  {
    if n == 0 then []
    else if InBackoff(failures, expired[n - 1], now) then Due(failures, expired, now, n - 1)
    else Due(failures, expired, now, n - 1) + [expired[n - 1]]
  }

  function IdsOf(attempts: seq<Attempt>): seq<Id>
  {
    seq(|attempts|, i requires 0 <= i < |attempts| => attempts[i].id)
  }

  lemma {:induction false} TurnsTouchOnlyListed(desk: Desk, s: Sweep, n: nat, id: Id)
    requires Timely(s) && n <= |s.expired| && id !in s.expired[..n]
    ensures var after := SweepStep(desk, s.expired, s.now, s.trials, n);
            InBackoff(after.failures, id, s.now) == InBackoff(desk.failures, id, s.now)
  {
    if n > 0 {
      assert s.expired[..n] == s.expired[..n - 1] + [s.expired[n - 1]];
      TurnsTouchOnlyListed(desk, s, n - 1, id);
    }
  }

  /** One failure stops no other cheque: a sweep tries exactly the due ones, each once, in order. */
  lemma {:induction false} SweepTriesAllDue(desk: Desk, s: Sweep, n: nat)
    requires Timely(s) && n <= |s.expired| && Distinct(s.expired)
    ensures var after := SweepStep(desk, s.expired, s.now, s.trials, n);
            && desk.attempts <= after.attempts
            && IdsOf(after.attempts[|desk.attempts|..]) == Due(desk.failures, s.expired, s.now, n)
            && forall j :: |desk.attempts| <= j < |after.attempts| ==> after.attempts[j].at == s.now
  {
    if n > 0 {
      SweepTriesAllDue(desk, s, n - 1);
      var id := s.expired[n - 1];
      assert id !in s.expired[..n - 1];
      TurnsTouchOnlyListed(desk, s, n - 1, id);
      var before := SweepStep(desk, s.expired, s.now, s.trials, n - 1);
      var after := SweepStep(desk, s.expired, s.now, s.trials, n);
      if !InBackoff(before.failures, id, s.now) {
        assert after.attempts[|desk.attempts|..] == before.attempts[|desk.attempts|..] + [after.attempts[|before.attempts|]];
        assert IdsOf(after.attempts[|desk.attempts|..]) == IdsOf(before.attempts[|desk.attempts|..]) + [id];
      }
    }
  }
}
