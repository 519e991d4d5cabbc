/**
 * One idempotency key under any interleaving of submits, releases, reaps and crashes:
 * how often the chain is asked, who gets which answer, and what the two tables say.
 */
module TxOnce {
  import opened Options
  import opened TxStore
  import opened TxSubmit

  /**
   * Beside the tables and the submits in flight, what has happened so far: chain calls in
   * order, how often each key's row was deleted by a release and by the reaper, when it was
   * last claimed, and what time it is.
   */
  datatype Sys = Sys(store: Store, tasks: seq<Task>, calls: seq<(Key, ChainAnswer)>,
                     released: map<Key, nat>, reaped: map<Key, nat>, claimed: map<Key, nat>, now: nat)

  datatype Happening =
    | Arrive(key: Key)
    | Advance(i: nat, answer: ChainAnswer)
    | Crash(i: nat)
    | Reap(before: nat)
    | Tick(now: nat)

  function Times(counts: map<Key, nat>, key: Key): nat
  {
    if key in counts then counts[key] else 0
  }

  function Next(s: Sys, h: Happening): Sys
  {
    match h
    case Arrive(key) => s.(tasks := s.tasks + [Task(key, Check)])
    case Advance(i, answer) =>
      if i >= |s.tasks| then s
      else
        var t := s.tasks[i];
        var turn := TaskStep(s.store, t, answer, s.now);
        s.(store := turn.store,
           tasks := s.tasks[i := turn.task],
           calls := if t.phase.Call? then s.calls + [(t.key, answer)] else s.calls,
           released := if t.key in s.store.keys && t.key !in turn.store.keys
                       then s.released[t.key := Times(s.released, t.key) + 1] else s.released,
           claimed := if t.key !in s.store.keys && t.key in turn.store.keys
                      then s.claimed[t.key := s.now] else s.claimed)
    case Crash(i) =>
      if i >= |s.tasks| then s else s.(tasks := s.tasks[..i] + s.tasks[i + 1..])
    case Reap(before) =>
      var stale := Stale(s.store, before);
      s.(store := ReapStep(s.store, before),
         reaped := map key | key in s.reaped.Keys + stale :: Times(s.reaped, key) + if key in stale then 1 else 0)
    case Tick(now) => if now <= s.now then s else s.(now := now)
  }

  function Play(s: Sys, hs: seq<Happening>): Sys
  {
    if hs == [] then s else Next(Play(s, hs[..|hs| - 1]), hs[|hs| - 1])
  }

  ghost predicate Fresh(s: Sys)
  {
    s == Sys(Store(map[], map[]), [], [], map[], map[], map[], 0)
  }

  /** The chain calls made for one key, in order. */
  function CallsFor(calls: seq<(Key, ChainAnswer)>, key: Key): seq<ChainAnswer>
  {
    if calls == [] then []
    else
      var last := calls[|calls| - 1];
      var before := CallsFor(calls[..|calls| - 1], key);
      if last.0 == key then before + [last.1] else before
  }

  lemma CallsAppend(calls: seq<(Key, ChainAnswer)>, call: (Key, ChainAnswer), key: Key)
    ensures CallsFor(calls + [call], key)
         == if call.0 == key then CallsFor(calls, key) + [call.1] else CallsFor(calls, key)
  {
  }

  /** The network's final words among the answers to a key's calls. */
  function Finals(answers: seq<ChainAnswer>): seq<Verdict>
  {
    if answers == [] then []
    else
      var last := answers[|answers| - 1];
      var before := Finals(answers[..|answers| - 1]);
      if IsFinal(last) then before + [last.verdict] else before
  }

  lemma FinalsAppend(answers: seq<ChainAnswer>, last: ChainAnswer)
    ensures Finals(answers + [last]) == if IsFinal(last) then Finals(answers) + [last.verdict] else Finals(answers)
  {
  }

  function FinalsFor(s: Sys, key: Key): seq<Verdict>
  {
    Finals(CallsFor(s.calls, key))
  }

  lemma TurnFinals(s: Sys, i: nat, answer: ChainAnswer, key: Key)
    requires i < |s.tasks|
    ensures FinalsFor(Next(s, Advance(i, answer)), key)
         == if s.tasks[i] == Task(key, Call) && IsFinal(answer) then FinalsFor(s, key) + [answer.verdict]
            else FinalsFor(s, key)
  {
    CallsAppend(s.calls, (s.tasks[i].key, answer), key);
    FinalsAppend(CallsFor(s.calls, key), answer);
  }

  // ---- What a claim of the key is worth ------------------------------------

  /** Whether a submit is about to call the chain, or, with `failed`, has called it and is giving the key back. */
  function Weight(t: Task, key: Key, failed: bool): nat
  {
    if t.key == key && (t.phase.Call? || (failed && (t.phase.RecordFailure? || t.phase.DropKey?))) then 1 else 0
  }

  function Holders(tasks: seq<Task>, key: Key, failed: bool): nat
  {
    if tasks == [] then 0
    else Holders(tasks[..|tasks| - 1], key, failed) + Weight(tasks[|tasks| - 1], key, failed)
  }

  lemma {:induction false} HoldersConcat(a: seq<Task>, b: seq<Task>, key: Key, failed: bool)
    ensures Holders(a + b, key, failed) == Holders(a, key, failed) + Holders(b, key, failed)
  {
    if b == [] {
      assert a + b == a;
    } else {
      assert (a + b)[..|a + b| - 1] == a + b[..|b| - 1];
      HoldersConcat(a, b[..|b| - 1], key, failed);
    }
  }

  lemma HoldersSplit(tasks: seq<Task>, i: nat, key: Key, failed: bool)
    requires i < |tasks|
    ensures Holders(tasks, key, failed)
         == Holders(tasks[..i], key, failed) + Weight(tasks[i], key, failed) + Holders(tasks[i + 1..], key, failed)
  {
    assert tasks == tasks[..i] + [tasks[i]] + tasks[i + 1..];
    HoldersConcat(tasks[..i] + [tasks[i]], tasks[i + 1..], key, failed);
    HoldersConcat(tasks[..i], [tasks[i]], key, failed);
    assert [tasks[i]][..0] == [];
  }

  lemma HoldersAfterTurn(tasks: seq<Task>, i: nat, t: Task, key: Key, failed: bool)
    requires i < |tasks|
    ensures Holders(tasks[i := t], key, failed)
         == Holders(tasks, key, failed) - Weight(tasks[i], key, failed) + Weight(t, key, failed)
  {
    HoldersSplit(tasks, i, key, failed);
    HoldersSplit(tasks[i := t], i, key, failed);
    assert tasks[i := t][..i] == tasks[..i] && tasks[i := t][i + 1..] == tasks[i + 1..];
  }

  lemma HoldersAfterArrival(tasks: seq<Task>, arrived: Key, key: Key, failed: bool)
    ensures Holders(tasks + [Task(arrived, Check)], key, failed) == Holders(tasks, key, failed)
  {
    HoldersConcat(tasks, [Task(arrived, Check)], key, failed);
    assert [Task(arrived, Check)][..0] == [];
  }

  lemma HoldersAfterCrash(tasks: seq<Task>, i: nat, key: Key, failed: bool)
    requires i < |tasks|
    ensures Holders(tasks[..i] + tasks[i + 1..], key, failed) <= Holders(tasks, key, failed)
  {
    HoldersSplit(tasks, i, key, failed);
    HoldersConcat(tasks[..i], tasks[i + 1..], key, failed);
  }

  function Present(store: Store, key: Key): nat
  {
    if key in store.keys then 1 else 0
  }

  /** Every call, made or about to be made, has used up one claim of the key row. */
  ghost predicate CallsAccounted(s: Sys, key: Key)
  {
    |CallsFor(s.calls, key)| + Holders(s.tasks, key, false)
    <= Times(s.released, key) + Times(s.reaped, key) + Present(s.store, key)
  }

  /** And so has every final verdict, but a claim given back after a failure has not brought one. */
  ghost predicate FinalsAccounted(s: Sys, key: Key)
  {
    |FinalsFor(s, key)| + Holders(s.tasks, key, true) <= Times(s.reaped, key) + Present(s.store, key)
  }

  lemma TurnAccounted(store: Store, t: Task, answer: ChainAnswer, now: nat, key: Key)
    ensures var turn := TaskStep(store, t, answer, now);
            var lost := if t.key == key && key in store.keys && key !in turn.store.keys then 1 else 0;
            var called := if t == Task(key, Call) then 1 else 0;
            && called + Weight(turn.task, key, false) - Weight(t, key, false)
               <= lost + Present(turn.store, key) - Present(store, key)
            && (if IsFinal(answer) then called else 0) + Weight(turn.task, key, true) - Weight(t, key, true)
               <= Present(turn.store, key) - Present(store, key)
  {
  }

  lemma AdvanceCallsAccounted(s: Sys, i: nat, answer: ChainAnswer, key: Key)
    requires i < |s.tasks| && CallsAccounted(s, key)
    ensures CallsAccounted(Next(s, Advance(i, answer)), key)
  {
    TurnAccounted(s.store, s.tasks[i], answer, s.now, key);
    HoldersAfterTurn(s.tasks, i, TaskStep(s.store, s.tasks[i], answer, s.now).task, key, false);
    CallsAppend(s.calls, (s.tasks[i].key, answer), key);
  }

  lemma AdvanceFinalsAccounted(s: Sys, i: nat, answer: ChainAnswer, key: Key)
    requires i < |s.tasks| && FinalsAccounted(s, key)
    ensures FinalsAccounted(Next(s, Advance(i, answer)), key)
  {
    TurnAccounted(s.store, s.tasks[i], answer, s.now, key);
    HoldersAfterTurn(s.tasks, i, TaskStep(s.store, s.tasks[i], answer, s.now).task, key, true);
    TurnFinals(s, i, answer, key);
  }

  lemma NextAccounted(s: Sys, h: Happening, key: Key)
    requires CallsAccounted(s, key) && FinalsAccounted(s, key)
    ensures CallsAccounted(Next(s, h), key) && FinalsAccounted(Next(s, h), key)
  {
    match h
    case Arrive(k) =>
      HoldersAfterArrival(s.tasks, k, key, false);
      HoldersAfterArrival(s.tasks, k, key, true);
    case Advance(i, answer) =>
      if i < |s.tasks| {
        AdvanceCallsAccounted(s, i, answer, key);
        AdvanceFinalsAccounted(s, i, answer, key);
      }
    case Crash(i) =>
      if i < |s.tasks| {
        HoldersAfterCrash(s.tasks, i, key, false);
        HoldersAfterCrash(s.tasks, i, key, true);
      }
    case Reap(_) =>
    case Tick(_) =>
  }

  /**
   * Whatever is interleaved, the chain is asked at most once per claim, one plus the
   * deletions of the key; and a key gets at most one final verdict plus one for each time it
   * was reaped, since every release has used up a call without one.
   */
  lemma {:induction false} CallsBounded(s: Sys, hs: seq<Happening>, key: Key)
    requires Fresh(s)
    ensures var later := Play(s, hs);
            && |CallsFor(later.calls, key)| <= 1 + Times(later.released, key) + Times(later.reaped, key)
            && |FinalsFor(later, key)| <= 1 + Times(later.reaped, key)
    ensures CallsAccounted(Play(s, hs), key) && FinalsAccounted(Play(s, hs), key)
  {
    if hs != [] {
      CallsBounded(s, hs[..|hs| - 1], key);
      NextAccounted(Play(s, hs[..|hs| - 1]), hs[|hs| - 1], key);
    }
  }

  // ---- Two tables under crashes, dead owners' keys reaped ----------------

  /** A submit between its claim of the key and its reply. */
  predicate Owns(t: Task)
  {
    t.phase.Call? || t.phase.RecordFailure? || t.phase.DropKey? || t.phase.RecordVerdict? || t.phase.FinishKey?
  }

  /** The reaper leaves every key alone whose submit is still alive. */
  ghost predicate SparesLiving(s: Sys, h: Happening)
  {
    h.Reap? ==> forall i :: 0 <= i < |s.tasks| && Owns(s.tasks[i]) ==> s.tasks[i].key !in Stale(s.store, h.before)
  }

  ghost predicate SparingPlay(s: Sys, hs: seq<Happening>)
  {
    hs == [] ||
    (var before := hs[..|hs| - 1]; SparingPlay(s, before) && SparesLiving(Play(s, before), hs[|hs| - 1]))
  }

  predicate Agrees(row: SubmissionRow, response: Response)
  {
    && row.txHash == Some(response.hash) && row.resultCode == Some(response.resultCode)
    && (row.state == Success <==> response.successful)
    && (row.state == Submitted <==> !response.successful && response.resultCode == "PENDING")
    && row.state != Pending
  }

  /** At most one living submit holds the key, and then the key is pending. */
  ghost predicate KeyOwned(s: Sys, key: Key)
  {
    && (forall i, j :: 0 <= i < j < |s.tasks| && Owns(s.tasks[i]) && Owns(s.tasks[j]) && s.tasks[i].key == key
          ==> s.tasks[j].key != key)
    && (forall i :: 0 <= i < |s.tasks| && Owns(s.tasks[i]) && s.tasks[i].key == key ==> IsPending(s.store, key))
  }

  ghost predicate OneOwner(s: Sys)
  {
    forall key :: KeyOwned(s, key)
  }

  /** The key's row is backed by a submission row, and agrees with it once done or about to be. */
  ghost predicate KeyAgrees(s: Sys, key: Key)
  {
    && (key in s.store.keys ==> key in s.store.submissions)
    && ((key in s.store.keys && s.store.keys[key].done.Some?)
          ==> Agrees(s.store.submissions[key], s.store.keys[key].done.value))
    && (forall i :: 0 <= i < |s.tasks| && s.tasks[i].key == key && s.tasks[i].phase.FinishKey?
          ==> key in s.store.submissions && Agrees(s.store.submissions[key], ResponseFor(s.tasks[i].phase.verdict)))
  }

  ghost predicate TablesAgree(s: Sys)
  {
    forall key :: KeyAgrees(s, key)
  }

  lemma TurnKeepsOwned(s: Sys, i: nat, answer: ChainAnswer, key: Key)
    requires KeyOwned(s, key) && i < |s.tasks|
    ensures KeyOwned(Next(s, Advance(i, answer)), key)
  {
  }

  lemma NextKeepsOwned(s: Sys, h: Happening, key: Key)
    requires KeyOwned(s, key)
    requires h.Reap? && key in Stale(s.store, h.before) ==> forall i :: 0 <= i < |s.tasks| && Owns(s.tasks[i]) ==> s.tasks[i].key != key
    ensures KeyOwned(Next(s, h), key)
  {
    match h
    case Advance(i, answer) =>
      if i < |s.tasks| {
        TurnKeepsOwned(s, i, answer, key);
      }
    case _ =>
  }

  lemma NextKeepsOneOwner(s: Sys, h: Happening)
    requires OneOwner(s) && SparesLiving(s, h)
    ensures OneOwner(Next(s, h))
  {
    forall key ensures KeyOwned(Next(s, h), key) {
      NextKeepsOwned(s, h, key);
    }
  }

  lemma TurnKeepsAgreement(s: Sys, i: nat, answer: ChainAnswer, key: Key)
    requires KeyOwned(s, key) && KeyAgrees(s, key) && i < |s.tasks|
    ensures KeyAgrees(Next(s, Advance(i, answer)), key)
  {
  }

  lemma NextKeepsAgreement(s: Sys, h: Happening, key: Key)
    requires KeyOwned(s, key) && KeyAgrees(s, key)
    ensures KeyAgrees(Next(s, h), key)
  {
    match h
    case Advance(i, answer) =>
      if i < |s.tasks| {
        TurnKeepsAgreement(s, i, answer, key);
      }
    case _ =>
  }

  lemma NextKeepsTables(s: Sys, h: Happening)
    requires OneOwner(s) && TablesAgree(s)
    ensures TablesAgree(Next(s, h))
  {
    forall key ensures KeyAgrees(Next(s, h), key) {
      assert KeyOwned(s, key) && KeyAgrees(s, key);
      NextKeepsAgreement(s, h, key);
    }
  }

  lemma {:induction false} TablesAlwaysAgree(s: Sys, hs: seq<Happening>)
    requires Fresh(s) && SparingPlay(s, hs)
    ensures OneOwner(Play(s, hs)) && TablesAgree(Play(s, hs))
  {
    if hs != [] {
      TablesAlwaysAgree(s, hs[..|hs| - 1]);
      NextKeepsOneOwner(Play(s, hs[..|hs| - 1]), hs[|hs| - 1]);
      NextKeepsTables(Play(s, hs[..|hs| - 1]), hs[|hs| - 1]);
    }
  }

  /** A finished key's row, the answer it replays and its submission row are there to stay. */
  ghost predicate FinishedWith(s: Sys, key: Key, row: KeyRow, sub: SubmissionRow)
  {
    && row.done.Some?
    && key in s.store.keys && s.store.keys[key] == row
    && key in s.store.submissions && s.store.submissions[key] == sub
  }

  lemma UnownedTurnLeavesDone(store: Store, t: Task, answer: ChainAnswer, now: nat, key: Key)
    requires key in store.keys && store.keys[key].done.Some? && (t.key == key ==> !Owns(t))
    ensures var after := TaskStep(store, t, answer, now).store;
            && key in after.keys && after.keys[key] == store.keys[key]
            && (key in store.submissions ==> key in after.submissions && after.submissions[key] == store.submissions[key])
  {
  }

  lemma FinishedStays(s: Sys, h: Happening, key: Key, row: KeyRow, sub: SubmissionRow)
    requires KeyOwned(s, key) && FinishedWith(s, key, row, sub)
    ensures FinishedWith(Next(s, h), key, row, sub) && KeyOwned(Next(s, h), key)
    ensures CallsFor(Next(s, h).calls, key) == CallsFor(s.calls, key)
  {
    NextKeepsOwned(s, h, key);
    if h.Advance? && h.i < |s.tasks| {
      UnownedTurnLeavesDone(s.store, s.tasks[h.i], h.answer, s.now, key);
      CallsAppend(s.calls, (s.tasks[h.i].key, h.answer), key);
    }
  }

  /**
   * Done is permanent: once a key is done and no submit still holds it, then in every
   * interleaving, reaps included, the key row and its submission row stay as they are, the
   * chain is never asked for the key again, and every submit that starts is answered with the
   * same response, replayed.
   */
  lemma {:induction false} DoneIsForever(s: Sys, more: seq<Happening>, key: Key, answer: ChainAnswer)
    requires KeyOwned(s, key) && key in s.store.keys && s.store.keys[key].done.Some? && key in s.store.submissions
    ensures var later := Play(s, more);
            var response := s.store.keys[key].done.value;
            && KeyOwned(later, key) && FinishedWith(later, key, s.store.keys[key], s.store.submissions[key])
            && CallsFor(later.calls, key) == CallsFor(s.calls, key)
            && TaskStep(later.store, Task(key, Check), answer, later.now)
               == Turn(later.store, Task(key, Replied(Replayed(response))))
  {
    if more != [] {
      var before := more[..|more| - 1];
      DoneIsForever(s, before, key, answer);
      FinishedStays(Play(s, before), more[|more| - 1], key, s.store.keys[key], s.store.submissions[key]);
    }
  }

  /** A key its owner has fully released can be begun again over the row it left behind. */
  lemma ReleasedKeyBeginsAgain(s: Sys, i: nat, answer: ChainAnswer, now: nat)
    requires OneOwner(s) && TablesAgree(s)
    requires i < |s.tasks| && s.tasks[i].phase.DropKey?
    ensures var key := s.tasks[i].key;
            var released := Next(s, Advance(i, answer)).store;
            var claim := BeginStep(released, key, now);
            && key !in released.keys && key in released.submissions
            && claim.claimed && IsPending(claim.store, key)
            && claim.store.submissions[key]
               == SubmissionRow(s.store.submissions[key].txHash, Pending, None)
  {
    assert KeyOwned(s, s.tasks[i].key) && KeyAgrees(s, s.tasks[i].key) && Owns(s.tasks[i]);
  }

  // ---- A key that is not reaped: one final verdict, one answer --------------

  /** What a task knows about the one final verdict of its key. */
  ghost predicate Knows(finals: seq<Verdict>, t: Task)
  {
    match t.phase
    case Call => finals == []
    case RecordFailure(code, reply) => finals == [] && !reply.Replayed? && (reply.Answered? ==> reply.response.resultCode == BAD_SEQ && !reply.response.successful)
    case DropKey(reply) => finals == [] && !reply.Replayed? && (reply.Answered? ==> reply.response.resultCode == BAD_SEQ && !reply.response.successful)
    case RecordVerdict(v) => finals == [v]
    case FinishKey(v) => finals == [v]
    case Replied(Replayed(r)) => exists v :: finals == [v] && r == ResponseFor(v)
    case Replied(Answered(r)) =>
      (r.resultCode == BAD_SEQ && !r.successful) || (exists v :: finals == [v] && r == ResponseFor(v))
    case _ => true
  }

  ghost predicate OneVerdict(s: Sys, key: Key)
  {
    var finals := FinalsFor(s, key);
    && |finals| <= 1
    && (finals != [] ==> key in s.store.keys)
    && ((key in s.store.keys && s.store.keys[key].done.Some?)
          ==> exists v :: finals == [v] && s.store.keys[key].done.value == ResponseFor(v))
    && (forall i :: 0 <= i < |s.tasks| && s.tasks[i].key == key ==> Knows(finals, s.tasks[i]))
  }

  /** The submit that takes a turn knows afterwards what it did before and what it just heard. */
  lemma TurnKnows(s: Sys, i: nat, answer: ChainAnswer)
    requires i < |s.tasks| && KeyOwned(s, s.tasks[i].key) && OneVerdict(s, s.tasks[i].key)
    ensures var after := Next(s, Advance(i, answer));
            Knows(FinalsFor(after, s.tasks[i].key), after.tasks[i])
  {
    var t := s.tasks[i];
    TurnFinals(s, i, answer, t.key);
    assert Knows(FinalsFor(s, t.key), t);
    if t.phase.Begin? && t.key !in s.store.keys {
      assert FinalsFor(s, t.key) == [];
    }
  }

  lemma AdvanceKeepsOneVerdict(s: Sys, i: nat, answer: ChainAnswer, key: Key)
    requires KeyOwned(s, key) && OneVerdict(s, key) && i < |s.tasks|
    ensures OneVerdict(Next(s, Advance(i, answer)), key)
  {
    var after := Next(s, Advance(i, answer));
    var t := s.tasks[i];
    TurnFinals(s, i, answer, key);
    if t.key == key {
      assert Knows(FinalsFor(s, key), t);
      assert Owns(t) ==> IsPending(s.store, key);
      TurnKnows(s, i, answer);
    }
    forall j | 0 <= j < |after.tasks| && after.tasks[j].key == key ensures Knows(FinalsFor(after, key), after.tasks[j]) {
      if j != i {
        assert Knows(FinalsFor(s, key), s.tasks[j]);
      }
    }
  }

  lemma NextKeepsOneVerdict(s: Sys, h: Happening, key: Key)
    requires KeyOwned(s, key) && OneVerdict(s, key) && (h.Reap? ==> key !in Stale(s.store, h.before))
    ensures OneVerdict(Next(s, h), key)
  {
    match h
    case Arrive(_) =>
    case Advance(i, answer) =>
      if i < |s.tasks| {
        AdvanceKeepsOneVerdict(s, i, answer, key);
      }
    case Crash(i) =>
      if i < |s.tasks| {
        forall j | 0 <= j < |Next(s, h).tasks| && Next(s, h).tasks[j].key == key
          ensures Knows(FinalsFor(s, key), Next(s, h).tasks[j])
        {
          assert Next(s, h).tasks[j] == s.tasks[if j < i then j else j + 1];
        }
      }
    case Reap(_) =>
    case Tick(_) =>
  }

  lemma ReapsCount(s: Sys, h: Happening, key: Key)
    ensures Times(Next(s, h).reaped, key) == Times(s.reaped, key) + if h.Reap? && key in Stale(s.store, h.before) then 1 else 0
  {
  }

  /** Between two moments with as many reaps of the key, nothing is lost. */
  lemma {:induction false} UnreapedKeepsVerdict(s: Sys, more: seq<Happening>, key: Key)
    requires KeyOwned(s, key) && OneVerdict(s, key)
    ensures Times(Play(s, more).reaped, key) >= Times(s.reaped, key)
    ensures Times(Play(s, more).reaped, key) == Times(s.reaped, key)
            ==> KeyOwned(Play(s, more), key) && OneVerdict(Play(s, more), key)
  {
    if more != [] {
      var before, h := more[..|more| - 1], more[|more| - 1];
      UnreapedKeepsVerdict(s, before, key);
      ReapsCount(Play(s, before), h, key);
      if Times(Play(s, more).reaped, key) == Times(s.reaped, key) {
        NextKeepsOwned(Play(s, before), h, key);
        NextKeepsOneVerdict(Play(s, before), h, key);
      }
    }
  }

  /**
   * A key that was never reaped gets at most one final verdict from the network, whoever
   * crashes where. Every answer any submit ever returns for the key is that verdict's
   * response or the retryable bad-sequence rejection, and every replay is that response.
   */
  lemma OneFinalVerdict(s: Sys, hs: seq<Happening>, i: nat)
    requires Fresh(s) && i < |Play(s, hs).tasks| && Times(Play(s, hs).reaped, Play(s, hs).tasks[i].key) == 0
    ensures var later := Play(s, hs);
            var key := later.tasks[i].key;
            && |FinalsFor(later, key)| <= 1
            && (later.tasks[i].phase.Replied? ==>
                  match later.tasks[i].phase.reply
                  case Replayed(r) => exists v :: FinalsFor(later, key) == [v] && r == ResponseFor(v)
                  case Answered(r) => (r.resultCode == BAD_SEQ && !r.successful)
                                      || exists v :: FinalsFor(later, key) == [v] && r == ResponseFor(v)
                  case _ => true)
  {
    var key := Play(s, hs).tasks[i].key;
    UnreapedKeepsVerdict(s, hs, key);
    assert Knows(FinalsFor(Play(s, hs), key), Play(s, hs).tasks[i]);
  }

  /** After the final verdict the chain is not asked for the key again until it is reaped, finished or stuck. */
  lemma {:induction false} FinalVerdictEndsCalls(s: Sys, more: seq<Happening>, key: Key)
    requires KeyOwned(s, key) && OneVerdict(s, key) && FinalsFor(s, key) != []
    requires Times(Play(s, more).reaped, key) == Times(s.reaped, key)
    ensures CallsFor(Play(s, more).calls, key) == CallsFor(s.calls, key)
  {
    if more != [] {
      var before, h := more[..|more| - 1], more[|more| - 1];
      var mid := Play(s, before);
      UnreapedKeepsVerdict(s, before, key);
      ReapsCount(mid, h, key);
      FinalVerdictEndsCalls(s, before, key);
      if h.Advance? && h.i < |mid.tasks| {
        CallsAppend(mid.calls, (mid.tasks[h.i].key, h.answer), key);
        assert mid.tasks[h.i].key == key ==> Knows(FinalsFor(mid, key), mid.tasks[h.i]);
      }
    }
  }
}
