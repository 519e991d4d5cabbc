/**
 * The reaper and time: which reaps spare living submits, how far reaped keys can go, and what
 * a reap under a living submit breaks.
 */
module TxReaps {
  import opened Options
  import opened TxStore
  import opened TxSubmit
  import opened TxOnce

  const DAY: nat := 24 * 60 * 60

  // ---- A claim is safe for a day ------------------------------------------

  /** Every key row expires a day after its last claim, which lies in the past. */
  ghost predicate TimesKept(s: Sys)
  {
    forall key :: key in s.store.keys ==>
      key in s.claimed && s.claimed[key] <= s.now && s.store.keys[key].expiresAt == s.claimed[key] + DAY
  }

  lemma NextKeepsTimes(s: Sys, h: Happening)
    requires TimesKept(s)
    ensures TimesKept(Next(s, h))
  {
  }

  lemma {:induction false} TimesAlwaysKept(s: Sys, hs: seq<Happening>)
    requires Fresh(s)
    ensures TimesKept(Play(s, hs))
  {
    if hs != [] {
      TimesAlwaysKept(s, hs[..|hs| - 1]);
      NextKeepsTimes(Play(s, hs[..|hs| - 1]), hs[|hs| - 1]);
    }
  }

  /** No living submit's claim is older than a day at `clock`. */
  ghost predicate YoungOwners(s: Sys, clock: nat)
  {
    forall i :: 0 <= i < |s.tasks| && Owns(s.tasks[i]) ==> clock <= Times(s.claimed, s.tasks[i].key) + DAY
  }

  /** A reap spares every living submit exactly when it comes no later than a day after each one's claim. */
  lemma SparesExactlyYoung(s: Sys, before: nat)
    requires OneOwner(s) && TimesKept(s)
    ensures SparesLiving(s, Reap(before)) <==> YoungOwners(s, before)
  {
    forall i | 0 <= i < |s.tasks| && Owns(s.tasks[i])
      ensures s.tasks[i].key in Stale(s.store, before) <==> before > Times(s.claimed, s.tasks[i].key) + DAY
    {
      assert KeyOwned(s, s.tasks[i].key);
    }
  }

  /** The reaper goes by the present time, and no submit has taken more than a day when it comes. */
  ghost predicate PunctualPlay(s: Sys, hs: seq<Happening>)
  {
    hs == [] ||
    (var before, h := hs[..|hs| - 1], hs[|hs| - 1];
     && PunctualPlay(s, before)
     && (h.Reap? ==> h.before <= Play(s, before).now && YoungOwners(Play(s, before), Play(s, before).now)))
  }

  /** So where no submit takes more than a day, every reap spares the living, and the tables agree throughout. */
  lemma {:induction false} PunctualSpares(s: Sys, hs: seq<Happening>)
    requires Fresh(s) && PunctualPlay(s, hs)
    ensures SparingPlay(s, hs) && OneOwner(Play(s, hs)) && TablesAgree(Play(s, hs))
  {
    if hs != [] {
      var before, h := hs[..|hs| - 1], hs[|hs| - 1];
      PunctualSpares(s, before);
      if h.Reap? {
        TimesAlwaysKept(s, before);
        SparesExactlyYoung(Play(s, before), h.before);
      }
    }
    TablesAlwaysAgree(s, hs);
  }

  // ---- The bound on final verdicts is attained ----------------------------

  /** Reached from the beginning with every reap punctual. */
  ghost predicate PunctuallyReached(t: Sys)
  {
    exists s, hs :: Fresh(s) && PunctualPlay(s, hs) && Play(s, hs) == t
  }

  lemma ReachedOn(t: Sys, h: Happening)
    requires PunctuallyReached(t) && (h.Reap? ==> h.before <= t.now && YoungOwners(t, t.now))
    ensures PunctuallyReached(Next(t, h))
  {
    var s, hs :| Fresh(s) && PunctualPlay(s, hs) && Play(s, hs) == t;
    assert (hs + [h])[..|hs + [h]| - 1] == hs;
    assert PunctualPlay(s, hs + [h]) && Play(s, hs + [h]) == Next(t, h);
  }

  /** The submit at `i` takes a turn. */
  lemma ReachedTurn(t: Sys, i: nat, answer: ChainAnswer) returns (u: Sys)
    requires PunctuallyReached(t) && i < |t.tasks|
    ensures PunctuallyReached(u) && u == Next(t, Advance(i, answer))
    ensures u.tasks == t.tasks[i := TaskStep(t.store, t.tasks[i], answer, t.now).task] && u.now == t.now
    ensures u.reaped == t.reaped
  {
    u := Next(t, Advance(i, answer));
    ReachedOn(t, Advance(i, answer));
  }

  /** A new submit claims a free key. */
  lemma Claims(t: Sys, key: Key) returns (u: Sys)
    requires PunctuallyReached(t) && key !in t.store.keys
    ensures PunctuallyReached(u) && u.tasks == t.tasks + [Task(key, Call)] && u.now == t.now && u.reaped == t.reaped
    ensures key in u.store.submissions && IsPending(u.store, key) && u.store.keys[key].expiresAt == t.now + DAY
    ensures FinalsFor(u, key) == FinalsFor(t, key)
  {
    var any := GatewayError("");
    ReachedOn(t, Arrive(key));
    var arrived := Next(t, Arrive(key));
    TurnFinals(arrived, |t.tasks|, any, key);
    var checked := ReachedTurn(arrived, |t.tasks|, any);
    assert checked.tasks == t.tasks + [Task(key, Begin)] && checked.store == t.store;
    TurnFinals(checked, |t.tasks|, any, key);
    u := ReachedTurn(checked, |t.tasks|, any);
  }

  /** A key left pending by the dead is reaped in the end. */
  lemma ReapsAbandoned(t: Sys, key: Key) returns (u: Sys)
    requires PunctuallyReached(t) && t.tasks == [] && IsPending(t.store, key)
    ensures PunctuallyReached(u) && u.tasks == [] && key !in u.store.keys
    ensures FinalsFor(u, key) == FinalsFor(t, key) && Times(u.reaped, key) == Times(t.reaped, key) + 1
  {
    var wait := Tick(t.now + t.store.keys[key].expiresAt + 1);
    ReachedOn(t, wait);
    var later := Next(t, wait);
    ReachedOn(later, Reap(later.now));
    ReapsCount(later, Reap(later.now), key);
    u := Next(later, Reap(later.now));
  }

  /** The submit hears a final verdict and dies before recording it. */
  lemma HearsAndDies(t: Sys, key: Key, v: Verdict) returns (u: Sys)
    requires PunctuallyReached(t) && t.tasks == [Task(key, Call)] && IsFinal(Ruled(v)) && IsPending(t.store, key)
    ensures PunctuallyReached(u) && u.tasks == [] && IsPending(u.store, key)
    ensures FinalsFor(u, key) == FinalsFor(t, key) + [v] && u.reaped == t.reaped
  {
    TurnFinals(t, 0, Ruled(v), key);
    var heard := ReachedTurn(t, 0, Ruled(v));
    ReachedOn(heard, Crash(0));
    u := Next(heard, Crash(0));
  }

  lemma {:induction false} Rounds(key: Key, v: Verdict, n: nat) returns (u: Sys)
    requires IsFinal(Ruled(v))
    ensures PunctuallyReached(u) && u.tasks == [] && key !in u.store.keys
    ensures |FinalsFor(u, key)| == n && Times(u.reaped, key) == n
  {
    if n == 0 {
      u := Sys(Store(map[], map[]), [], [], map[], map[], map[], 0);
      assert Fresh(u) && PunctualPlay(u, []) && Play(u, []) == u;
    } else {
      var before := Rounds(key, v, n - 1);
      var calling := Claims(before, key);
      var dead := HearsAndDies(calling, key, v);
      u := ReapsAbandoned(dead, key);
    }
  }

  /**
   * For every number of reaps there is a run, with no submit older than a day, in which a key
   * gets one final verdict more than it was reaped: `CallsBounded` cannot be improved, even
   * where every reap spares the living.
   */
  lemma BoundIsAttained(key: Key, v: Verdict, n: nat) returns (u: Sys)
    requires IsFinal(Ruled(v))
    ensures PunctuallyReached(u)
    ensures Times(u.reaped, key) == n && |FinalsFor(u, key)| == n + 1
  {
    var before := Rounds(key, v, n);
    var calling := Claims(before, key);
    TurnFinals(calling, 0, Ruled(v), key);
    u := ReachedTurn(calling, 0, Ruled(v));
  }

  // ---- When a done key's answer can change --------------------------------

  /** A submit that may still write a different answer. */
  predicate Threatens(t: Task, key: Key, r: Response)
  {
    t.key == key &&
    (t.phase.Call? || ((t.phase.RecordVerdict? || t.phase.FinishKey?) && ResponseFor(t.phase.verdict) != r))
  }

  ghost predicate CanChange(s: Sys, key: Key, r: Response)
  {
    exists more :: CachedResponse(Play(s, more).store, key) != Some(r)
  }

  ghost predicate Settled(s: Sys, key: Key, r: Response)
  {
    CachedResponse(s.store, key) == Some(r) && forall i :: 0 <= i < |s.tasks| ==> !Threatens(s.tasks[i], key, r)
  }

  lemma SettledTurn(store: Store, t: Task, answer: ChainAnswer, now: nat, key: Key, r: Response)
    requires CachedResponse(store, key) == Some(r) && !Threatens(t, key, r)
    ensures var turn := TaskStep(store, t, answer, now);
            CachedResponse(turn.store, key) == Some(r) && !Threatens(turn.task, key, r)
  {
  }

  lemma SettledStays(s: Sys, h: Happening, key: Key, r: Response)
    requires Settled(s, key, r)
    ensures Settled(Next(s, h), key, r)
  {
    if h.Advance? && h.i < |s.tasks| {
      SettledTurn(s.store, s.tasks[h.i], h.answer, s.now, key, r);
    }
  }

  lemma {:induction false} SettledForever(s: Sys, more: seq<Happening>, key: Key, r: Response)
    requires Settled(s, key, r)
    ensures Settled(Play(s, more), key, r)
  {
    if more != [] {
      SettledForever(s, more[..|more| - 1], key, r);
      SettledStays(Play(s, more[..|more| - 1]), more[|more| - 1], key, r);
    }
  }

  lemma {:induction false} PlayFirst(s: Sys, h: Happening, more: seq<Happening>)
    ensures Play(s, [h] + more) == Play(Next(s, h), more)
  {
    if more == [] {
      assert [h] + more == [h] && [h][..0] == [];
    } else {
      PlayFirst(s, h, more[..|more| - 1]);
      assert ([h] + more)[..|[h] + more| - 1] == [h] + more[..|more| - 1];
    }
  }

  lemma ChangesLater(s: Sys, h: Happening, key: Key, r: Response)
    requires CanChange(Next(s, h), key, r)
    ensures CanChange(s, key, r)
  {
    var more :| CachedResponse(Play(Next(s, h), more).store, key) != Some(r);
    PlayFirst(s, h, more);
  }

  lemma ThreatIsReal(s: Sys, i: nat, key: Key, r: Response)
    requires CachedResponse(s.store, key) == Some(r) && i < |s.tasks| && Threatens(s.tasks[i], key, r)
    ensures CanChange(s, key, r)
    decreases match s.tasks[i].phase case Call => 2 case RecordVerdict(_) => 1 case _ => 0
  {
    var other := Verdict(r.hash + "'", true, "");
    var h := Advance(i, Ruled(other));
    if s.tasks[i].phase.FinishKey? {
      assert Play(Next(s, h), []) == Next(s, h);
    } else {
      ThreatIsReal(Next(s, h), i, key, r);
    }
    ChangesLater(s, h, key, r);
  }

  /**
   * A done key's cached answer can still change if and only if a living submit of the key is
   * calling the chain or about to write a different answer.
   */
  lemma DoneChangesExactly(s: Sys, key: Key, r: Response)
    requires CachedResponse(s.store, key) == Some(r)
    ensures CanChange(s, key, r) <==> exists i :: 0 <= i < |s.tasks| && Threatens(s.tasks[i], key, r)
  {
    if i :| 0 <= i < |s.tasks| && Threatens(s.tasks[i], key, r) {
      ThreatIsReal(s, i, key, r);
    } else {
      forall more ensures CachedResponse(Play(s, more).store, key) == Some(r) {
        SettledForever(s, more, key, r);
      }
    }
  }

  // ---- A reap under a living submit ---------------------------------------

  /** Reached from the beginning, whatever was reaped. */
  ghost predicate Reached(t: Sys)
  {
    exists s, hs :: Fresh(s) && Play(s, hs) == t
  }

  lemma ReachedAnyhow(t: Sys, h: Happening)
    requires Reached(t)
    ensures Reached(Next(t, h))
  {
    var s, hs :| Fresh(s) && Play(s, hs) == t;
    assert (hs + [h])[..|hs + [h]| - 1] == hs;
    assert Play(s, hs + [h]) == Next(t, h);
  }

  /** The first submit waits for the network for more than a day while a second one arrives. */
  lemma WaitsTooLong(key: Key) returns (u: Sys)
    ensures Reached(u) && u.tasks == [Task(key, Call), Task(key, Begin)] && Times(u.reaped, key) == 0
    ensures key in Stale(u.store, u.now) && key in u.store.submissions && FinalsFor(u, key) == []
  {
    var start := Sys(Store(map[], map[]), [], [], map[], map[], map[], 0);
    assert Fresh(start) && PunctualPlay(start, []) && Play(start, []) == start;
    var calling := Claims(start, key);
    ReachedOn(calling, Arrive(key));
    TurnFinals(Next(calling, Arrive(key)), 1, GatewayError(""), key);
    var checked := ReachedTurn(Next(calling, Arrive(key)), 1, GatewayError(""));
    assert checked.store == calling.store;
    ReachedOn(checked, Tick(DAY + 1));
    u := Next(checked, Tick(DAY + 1));
  }

  /** The submit at `i` calls the chain, hears `v`, and records it in both tables. */
  function SeeThrough(s: Sys, i: nat, v: Verdict): Sys
  {
    var turn := Advance(i, Ruled(v));
    Next(Next(Next(s, turn), turn), turn)
  }

  lemma CallTurn(s: Sys, i: nat, key: Key, v: Verdict)
    requires i < |s.tasks| && s.tasks[i] == Task(key, Call) && IsFinal(Ruled(v))
    ensures var after := Next(s, Advance(i, Ruled(v)));
            && after.tasks == s.tasks[i := Task(key, RecordVerdict(v))]
            && after.store == s.store
            && FinalsFor(after, key) == FinalsFor(s, key) + [v]
  {
    TurnFinals(s, i, Ruled(v), key);
  }

  lemma RecordTurns(s: Sys, i: nat, key: Key, v: Verdict)
    requires i < |s.tasks| && s.tasks[i] == Task(key, RecordVerdict(v))
    requires key in s.store.keys && key in s.store.submissions
    ensures var after := Next(Next(s, Advance(i, Ruled(v))), Advance(i, Ruled(v)));
            && after.tasks == s.tasks[i := Task(key, Replied(Answered(ResponseFor(v))))]
            && CachedResponse(after.store, key) == Some(ResponseFor(v))
            && key in after.store.keys && key in after.store.submissions
            && FinalsFor(after, key) == FinalsFor(s, key)
  {
    var recorded := Next(s, Advance(i, Ruled(v)));
    assert recorded.tasks[i] == Task(key, FinishKey(v));
    TurnFinals(s, i, Ruled(v), key);
    TurnFinals(recorded, i, Ruled(v), key);
  }

  lemma SeenThrough(s: Sys, i: nat, key: Key, v: Verdict)
    requires i < |s.tasks| && s.tasks[i] == Task(key, Call) && IsFinal(Ruled(v))
    requires key in s.store.keys && key in s.store.submissions
    ensures var after := SeeThrough(s, i, v);
            && after.tasks == s.tasks[i := Task(key, Replied(Answered(ResponseFor(v))))]
            && CachedResponse(after.store, key) == Some(ResponseFor(v))
            && key in after.store.keys && key in after.store.submissions
            && FinalsFor(after, key) == FinalsFor(s, key) + [v]
  {
    CallTurn(s, i, key, v);
    RecordTurns(Next(s, Advance(i, Ruled(v))), i, key, v);
  }

  lemma SeeThroughReached(s: Sys, i: nat, v: Verdict)
    requires Reached(s)
    ensures Reached(SeeThrough(s, i, v)) && SeeThrough(s, i, v).reaped == s.reaped
  {
    var turn := Advance(i, Ruled(v));
    ReachedAnyhow(s, turn);
    ReachedAnyhow(Next(s, turn), turn);
    ReachedAnyhow(Next(Next(s, turn), turn), turn);
  }

  /** The reaper comes, and the second submit claims the key as well. */
  lemma BothCall(key: Key) returns (u: Sys)
    ensures Reached(u) && u.tasks == [Task(key, Call), Task(key, Call)] && Times(u.reaped, key) == 1
    ensures key in u.store.keys && key in u.store.submissions && FinalsFor(u, key) == []
  {
    var waiting := WaitsTooLong(key);
    var reap := Reap(waiting.now);
    var claim := Advance(1, GatewayError(""));
    ReachedAnyhow(waiting, reap);
    ReapsCount(waiting, reap, key);
    var reaped := Next(waiting, reap);
    ReachedAnyhow(reaped, claim);
    TurnFinals(reaped, 1, GatewayError(""), key);
    u := Next(reaped, claim);
  }

  /**
   * Reaping a key whose submit has been alive for more than a day: the second submit claims
   * the key, both calls bring a final verdict, and the cached response of the first to finish
   * is overwritten by the second.
   */
  lemma ReapUnderLivingOwner(key: Key, first: Verdict, second: Verdict) returns (firstDone: Sys, bothDone: Sys)
    requires IsFinal(Ruled(first)) && IsFinal(Ruled(second))
    ensures Reached(firstDone) && CachedResponse(firstDone.store, key) == Some(ResponseFor(first))
    ensures bothDone == SeeThrough(firstDone, 1, second) && Times(bothDone.reaped, key) == 1
    ensures CachedResponse(bothDone.store, key) == Some(ResponseFor(second))
    ensures FinalsFor(bothDone, key) == [first, second]
  {
    var claimed := BothCall(key);
    SeenThrough(claimed, 0, key, first);
    SeeThroughReached(claimed, 0, first);
    SeeThroughReached(SeeThrough(claimed, 0, first), 1, second);
    firstDone := SeeThrough(claimed, 0, first);
    SeenThrough(firstDone, 1, key, second);
    bothDone := SeeThrough(firstDone, 1, second);
  }
}
