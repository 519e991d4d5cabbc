/** Which open cheques can still move, and which no honest future ever moves again. */
module ChequeStuck {
  import opened Options
  import opened MapSums
  import opened Escrow
  import opened EscrowSolvency
  import opened EscrowSettlement
  import opened ChequeStore
  import opened ChequeService
  import opened ChequeMirror
  import opened ChequeGuarantees

  // ---- Futures -----------------------------------------------------------

  ghost predicate Heeding(more: seq<Happening>, ok: Happening -> bool)
  {
    forall j :: 0 <= j < |more| ==> ok(more[j])
  }

  /** An honest future made of happenings `ok` allows leads from `s` to `t`. */
  ghost predicate Leads(self: Address, s: Sys, ok: Happening -> bool, t: Sys)
  {
    exists more :: AllowedPlay(self, s, more) && Heeding(more, ok) && Play(self, s, more) == t
  }

  /** Some such future changes the row's state. */
  ghost predicate CanMove(self: Address, s: Sys, id: ChequeId, ok: Happening -> bool)
    requires id in s.db.cheques
  {
    exists t :: Leads(self, s, ok, t) && id in t.db.cheques && t.db.cheques[id].state != s.db.cheques[id].state
  }

  lemma LeadsHere(self: Address, s: Sys, ok: Happening -> bool)
    ensures Leads(self, s, ok, s)
  {
    assert AllowedPlay(self, s, []) && Heeding([], ok) && Play(self, s, []) == s;
  }

  lemma LeadsOn(self: Address, s: Sys, ok: Happening -> bool, t: Sys, h: Happening)
    requires Leads(self, s, ok, t) && Allowed(self, t, h) && ok(h)
    ensures Leads(self, s, ok, Next(self, t, h))
  {
    var more :| AllowedPlay(self, s, more) && Heeding(more, ok) && Play(self, s, more) == t;
    assert (more + [h])[..|more + [h]| - 1] == more;
    assert AllowedPlay(self, s, more + [h]) && Heeding(more + [h], ok);
    assert Play(self, s, more + [h]) == Next(self, t, h);
  }

  /** Everything but chain steps is allowed: requests come, are served, and die. */
  ghost predicate Serves(ok: Happening -> bool)
  {
    forall h: Happening :: !h.OnChain? ==> ok(h)
  }

  /** Whether a task is still going to submit something to the chain. */
  predicate Submits(t: Task)
  {
    t.SweepExpired? || t.SubmitRefund?
  }

  lemma SubmitsNoMore(self: Address, chain: World, db: Db, t: Task, now: Weather)
    requires !Submits(t)
    ensures !Submits(TaskStep(self, chain, db, t, now).task)
  {
  }

  /** Left to itself, a request in flight ends as `Alone` says. */
  lemma {:induction false} LeadsThrough(self: Address, s: Sys, ok: Happening -> bool, mid: Sys, i: nat, now: Weather)
    returns (t: Sys)
    requires Leads(self, s, ok, mid) && Serves(ok) && i < |mid.tasks| && !Submits(mid.tasks[i])
    ensures Leads(self, s, ok, t) && t.chain == mid.chain
    ensures t.db == Alone(self, mid.chain, mid.db, mid.tasks[i], now).db
    decreases Remaining(mid.tasks[i])
  {
    if mid.tasks[i].Done? {
      t := mid;
    } else {
      SubmitsNoMore(self, mid.chain, mid.db, mid.tasks[i], now);
      LeadsOn(self, s, ok, mid, Advance(i, now));
      t := LeadsThrough(self, s, ok, Next(self, mid, Advance(i, now)), i, now);
    }
  }

  lemma LeadsToAnswer(self: Address, s: Sys, ok: Happening -> bool, mid: Sys, r: Task, now: Weather) returns (t: Sys)
    requires Leads(self, s, ok, mid) && Serves(ok) && IsRequest(r) && !Submits(r) && Honest(mid.chain, r)
    ensures Leads(self, s, ok, t) && t.db == Alone(self, mid.chain, mid.db, r, now).db
  {
    LeadsOn(self, s, ok, mid, Arrive(r));
    var asked := Next(self, mid, Arrive(r));
    t := LeadsThrough(self, s, ok, asked, |mid.tasks|, now);
  }

  // ---- The request that moves a row ---------------------------------------

  /** What somebody honest can ask for so that the row moves, given the chain's record. */
  function Mover(id: ChequeId, row: Cheque, record: Option<ChequeState>): Option<Task>
  {
    match row.state
    case ImzaliRezerve => if Funding(record) then Some(ConfirmLock(id, row.sender)) else None
    case Havuzda => if record == Some(Claimed) then Some(ConfirmClaim(id, row.receiver)) else None
    case TalepEdildi | Onaylandi => Some(Acknowledge(id, row.receiver))
    case ZorlaTahsilDenendi =>
      if record == Some(Collected) then Some(ConfirmForceCollect(id, row.receiver, true))
      else if record == Some(Bounced) then Some(ConfirmForceCollect(id, row.receiver, false)) else None
    case _ => None
  }

  /** The two moves a task served alone may make, the second absent for most. */
  lemma AloneMakesMoves(self: Address, chain: World, db: Db, r: Task, now: Weather)
    requires r.id in db.cheques
    requires r.ConfirmLock? ==> r.caller == db.cheques[r.id].sender
    requires r.ConfirmClaim? || r.Acknowledge? || r.ConfirmForceCollect? ==> r.caller == db.cheques[r.id].receiver
    requires r.ConfirmLock? || r.ConfirmClaim? || r.Acknowledge? || r.ConfirmForceCollect?
             || r.MarkForced? || r.MarkRefundable? || r.MarkRefunded?
    ensures Alone(self, chain, db, r, now).db ==
            match r
            case ConfirmLock(id, _) => TransitionStep(db, id, ImzaliRezerve, Havuzda).db
            case ConfirmClaim(id, _) => TransitionStep(db, id, Havuzda, TalepEdildi).db
            case Acknowledge(id, _) =>
              TransitionStep(TransitionStep(db, id, TalepEdildi, Onaylandi).db, id, Onaylandi, Kapandi).db
            case ConfirmForceCollect(id, _, collected) => TransitionStep(db, id, ZorlaTahsilDenendi, OutcomeState(collected)).db
            case MarkForced(id, seen) => TransitionStep(db, id, seen, ZorlaTahsilDenendi).db
            case MarkRefundable(id) =>
              TransitionStep(TransitionStep(db, id, Havuzda, IadeEdilebilir).db, id, IadeEdilebilir, IadeEdildi).db
            case MarkRefunded(id) => TransitionStep(db, id, IadeEdilebilir, IadeEdildi).db
            case _ => db
  {
    AloneUnfolds(self, chain, db, r, now);
    match r
    case ConfirmLock(id, _) => AloneUnfolds(self, chain, db, MarkLocked(id), now);
    case ConfirmClaim(id, _) => AloneUnfolds(self, chain, db, MarkClaimed(id), now);
    case Acknowledge(id, _) => ApprovedAlone(self, chain, db, id, now);
    case ConfirmForceCollect(id, _, collected) => AloneUnfolds(self, chain, db, MarkForceOutcome(id, collected), now);
    case MarkRefundable(id) =>
      AloneUnfolds(self, chain, TransitionStep(db, id, Havuzda, IadeEdilebilir).db, MarkRefunded(id), now);
    case _ =>
  }

  lemma ShiftedRow(db: Db, id: ChequeId, from: State, to: State)
    requires id in db.cheques
    ensures id in Shifted(db, id, from, to).cheques && Shifted(db, id, from, to).cheques[id].state == to
  {
  }

  lemma MoveMisses(db: Db, id: ChequeId, from: State, to: State)
    requires id in db.cheques && db.cheques[id].state != from
    ensures TransitionStep(db, id, from, to).db == db
  {
  }

  lemma RowAfterMove(db: Db, id: ChequeId, from: State, to: State)
    requires Logged(db) && id in db.cheques
    ensures id in TransitionStep(db, id, from, to).db.cheques
    ensures TransitionStep(db, id, from, to).db.cheques[id].state
         == if db.cheques[id].state == from then to else db.cheques[id].state
  {
    if db.cheques[id].state == from {
      MoveCommits(db, id, from, to);
      ShiftedRow(db, id, from, to);
    } else {
      MoveMisses(db, id, from, to);
    }
  }

  lemma RowAfterMoves(db: Db, id: ChequeId, from: State, mid: State, to: State)
    requires Logged(db) && id in db.cheques && db.cheques[id].state in {from, mid} && to !in {from, mid} && from != mid
    ensures var after := TransitionStep(TransitionStep(db, id, from, mid).db, id, mid, to).db;
            id in after.cheques && after.cheques[id].state != db.cheques[id].state
  {
    RowAfterMove(db, id, from, mid);
    if db.cheques[id].state == mid {
      assert TransitionStep(db, id, from, mid).db == db;
      RowAfterMove(db, id, mid, to);
    }
  }

  lemma MoverMoves(self: Address, chain: World, db: Db, id: ChequeId, now: Weather)
    requires Logged(db) && id in db.cheques && Mover(id, db.cheques[id], ChainState(chain, id)).Some?
    ensures var after := Alone(self, chain, db, Mover(id, db.cheques[id], ChainState(chain, id)).value, now).db;
            id in after.cheques && after.cheques[id].state != db.cheques[id].state
  {
    AloneMakesMoves(self, chain, db, Mover(id, db.cheques[id], ChainState(chain, id)).value, now);
    match db.cheques[id].state
    case ImzaliRezerve => RowAfterMove(db, id, ImzaliRezerve, Havuzda);
    case Havuzda => RowAfterMove(db, id, Havuzda, TalepEdildi);
    case TalepEdildi | Onaylandi => RowAfterMoves(db, id, TalepEdildi, Onaylandi, Kapandi);
    case ZorlaTahsilDenendi => RowAfterMove(db, id, ZorlaTahsilDenendi, OutcomeState(ChainState(chain, id) == Some(Collected)));
  }

  /** A future that changes the chain alone and ends where the row has a mover ends with the row moved. */
  lemma MovesFrom(self: Address, s: Sys, ok: Happening -> bool, mid: Sys, id: ChequeId)
    requires Logged(s.db) && id in s.db.cheques && Serves(ok)
    requires Leads(self, s, ok, mid) && mid.db == s.db
    requires Behind(s.db.cheques[id].state, ChainState(mid.chain, id))
    requires Mover(id, s.db.cheques[id], ChainState(mid.chain, id)).Some?
    ensures CanMove(self, s, id, ok)
  {
    var now := Weather(true, 0);
    var t := LeadsToAnswer(self, s, ok, mid, Mover(id, s.db.cheques[id], ChainState(mid.chain, id)).value, now);
    MoverMoves(self, mid.chain, s.db, id, now);
  }

  // ---- Chain steps that make room for a move ------------------------------

  /** A mark in flight, and the row it moves. */
  predicate Marks(t: Task, id: ChequeId, from: State)
  {
    match from
    case ImzaliRezerve => t == MarkForced(id, ImzaliRezerve)
    case Havuzda => t == MarkRefundable(id)
    case IadeEdilebilir => t == MarkRefundable(id) || t == MarkRefunded(id)
    case _ => false
  }

  /** A mark in flight moves its row when it is let through. */
  lemma MarkMoves(self: Address, s: Sys, ok: Happening -> bool, mid: Sys, i: nat, id: ChequeId)
    requires Logged(s.db) && id in s.db.cheques && Serves(ok) && Leads(self, s, ok, mid) && mid.db == s.db
    requires i < |mid.tasks| && Marks(mid.tasks[i], id, s.db.cheques[id].state)
    ensures CanMove(self, s, id, ok)
  {
    var now := Weather(true, 0);
    var t := LeadsThrough(self, s, ok, mid, i, now);
    MarkAlone(self, mid.chain, s.db, mid.tasks[i], id, now);
  }

  lemma MarkAlone(self: Address, chain: World, db: Db, t: Task, id: ChequeId, now: Weather)
    requires Logged(db) && id in db.cheques && Marks(t, id, db.cheques[id].state)
    ensures var after := Alone(self, chain, db, t, now).db;
            id in after.cheques && after.cheques[id].state != db.cheques[id].state
  {
    AloneMakesMoves(self, chain, db, t, now);
    if t.MarkForced? {
      RowAfterMove(db, id, ImzaliRezerve, ZorlaTahsilDenendi);
    } else if t.MarkRefundable? {
      RowAfterMoves(db, id, Havuzda, IadeEdilebilir, IadeEdildi);
    } else {
      RowAfterMove(db, id, IadeEdilebilir, IadeEdildi);
    }
  }

  function LaterOf(a: nat, b: nat): nat
  {
    if a < b then b else a
  }

  lemma WaitedRefundGoesThrough(self: Address, w: World, id: ChequeId)
    requires Sound(self, w) && ChainState(w, id) == Some(Funded)
    ensures RefundStep(self, Step(self, w, Tick(LaterOf(w.now, w.cheques[id].expiresAt))), id).outcome == Ok
  {
    var late := LaterOf(w.now, w.cheques[id].expiresAt);
    StepKeepsSound(self, w, Tick(late));
    OnePayoutAlwaysOpen(self, Step(self, w, Tick(late)), {}, id);
  }

  /** The scheduler lists the row. */
  lemma SweepLists(self: Address, s: Sys, ok: Happening -> bool, mid: Sys, id: ChequeId, now: Weather) returns (t: Sys)
    requires Serves(ok) && Leads(self, s, ok, mid)
    requires id in mid.db.cheques && mid.db.cheques[id].state == Havuzda
    requires now.clock >= mid.db.cheques[id].expiresAt * NANOS_PER_MICRO
    ensures Leads(self, s, ok, t) && t.chain == mid.chain && t.db == mid.db && t.tasks == mid.tasks + [SubmitRefund(id)]
  {
    LeadsOn(self, s, ok, mid, Arrive(SweepExpired(id)));
    var asked := Next(self, mid, Arrive(SweepExpired(id)));
    LeadsOn(self, s, ok, asked, Advance(|mid.tasks|, now));
    t := Next(self, asked, Advance(|mid.tasks|, now));
  }

  /** And submits its refund. */
  lemma SweepRefunds(self: Address, s: Sys, ok: Happening -> bool, mid: Sys, i: nat, now: Weather) returns (t: Sys)
    requires Serves(ok) && Leads(self, s, ok, mid) && i < |mid.tasks| && mid.tasks[i].SubmitRefund? && now.up
    requires RefundStep(self, mid.chain, mid.tasks[i].id).outcome == Ok
    ensures Leads(self, s, ok, t) && t.db == mid.db && t.tasks == mid.tasks[i := MarkRefundable(mid.tasks[i].id)]
  {
    LeadsOn(self, s, ok, mid, Advance(i, now));
    t := Next(self, mid, Advance(i, now));
  }

  /** A funded cheque's row moves by the sweep, after the wait it may need. */
  lemma FundedMoves(self: Address, s: Sys, ok: Happening -> bool, id: ChequeId)
    requires Logged(s.db) && Sound(self, s.chain) && Serves(ok)
    requires forall now :: ok(OnChain(Tick(now)))
    requires id in s.db.cheques && s.db.cheques[id].state == Havuzda && ChainState(s.chain, id) == Some(Funded)
    ensures CanMove(self, s, id, ok)
  {
    var wait := OnChain(Tick(LaterOf(s.chain.now, s.chain.cheques[id].expiresAt)));
    var now := Weather(true, s.db.cheques[id].expiresAt * NANOS_PER_MICRO);
    WaitedRefundGoesThrough(self, s.chain, id);
    LeadsHere(self, s, ok);
    LeadsOn(self, s, ok, s, wait);
    var listed := SweepLists(self, s, ok, Next(self, s, wait), id, now);
    var refunded := SweepRefunds(self, s, ok, listed, |s.tasks|, now);
    MarkMoves(self, s, ok, refunded, |s.tasks|, id);
  }

  /** A force collect that the contract accepts, and its confirm. */
  lemma AttemptMoves(self: Address, s: Sys, ok: Happening -> bool, mid: Sys, id: ChequeId, auths: set<Address>, call: Call)
    requires Logged(s.db) && Serves(ok) && Leads(self, s, ok, mid) && mid.db == s.db
    requires id in s.db.cheques && s.db.cheques[id].state == ZorlaTahsilDenendi
    requires call.ForceCollect? && call.id == id && self !in auths && ok(OnChain(Invoke(auths, call)))
    requires Execute(self, mid.chain, auths, call).outcome.Succeeded()
    ensures CanMove(self, s, id, ok)
  {
    LeadsOn(self, s, ok, mid, OnChain(Invoke(auths, call)));
    MovesFrom(self, s, ok, Next(self, mid, OnChain(Invoke(auths, call))), id);
  }

  /** Two addresses that are not the contract's. */
  function Stranger(self: Address): Address
  {
    if self == Account(0) then Account(1) else Account(0)
  }

  function OtherStranger(self: Address): Address
  {
    if self == Account(2) then Account(3) else Account(2)
  }

  lemma {:induction false} UnusedToken(b: Balances) returns (n: nat)
    ensures forall k :: k in b ==> k.0.key < n
    decreases |b|
  {
    if b == map[] {
      n := 0;
    } else {
      var k :| k in b;
      var m := UnusedToken(b - {k});
      n := if k.0.key < m then m else k.0.key + 1;
      forall j | j in b ensures j.0.key < n {
        assert j == k || j in b - {k};
      }
    }
  }

  lemma {:induction false} SumOfZeros<K>(m: map<K, int>)
    requires forall k :: k in m ==> m[k] == 0
    ensures Sum(m) == 0
    decreases |m|
  {
    if m != map[] {
      var k :| k in m && Sum(m) == m[k] + Sum(m - {k});
      SumOfZeros(m - {k});
    }
  }

  /** Somebody can always come by one unit of a token nobody has used so far. */
  lemma FreshCoin(self: Address, w: World, who: Address) returns (token: Address)
    requires HonestTokens(w.balances) && who != self
    ensures Admissible(self, w, Elsewhere(w.balances[(token, who) := 1]))
  {
    var n := UnusedToken(w.balances);
    token := Contract(n);
    var b := w.balances[(token, who) := 1];
    forall held ensures Supply(b, held) <= I128_MAX {
      SupplyAfterSet(w.balances, token, who, 1, held);
      SumOfZeros(HoldingsIn(w.balances, token));
      assert Supply(w.balances, held) <= I128_MAX;
    }
  }

  lemma LockGoesThrough(self: Address, w: World, id: ChequeId, token: Address)
    requires id !in w.cheques && BalanceOf(w.balances, token, Stranger(self)) >= 1
    ensures var lock := Invoke({Stranger(self)}, Lock(Stranger(self), id, OtherStranger(self), token, 1, 0));
            ChainState(Step(self, w, lock), id) == Some(Funded)
  {
  }

  /** An id unused on chain can still be locked, at any time and by anybody. */
  lemma UnusedMoves(self: Address, s: Sys, id: ChequeId)
    requires Logged(s.db) && Sound(self, s.chain)
    requires id in s.db.cheques && s.db.cheques[id].state == ImzaliRezerve && ChainState(s.chain, id) == None
    ensures CanMove(self, s, id, Anything)
  {
    var who := Stranger(self);
    var token := FreshCoin(self, s.chain, who);
    var paid := Elsewhere(s.chain.balances[(token, who) := 1]);
    var lock := Invoke({who}, Lock(who, id, OtherStranger(self), token, 1, 0));
    LockGoesThrough(self, Step(self, s.chain, paid), id, token);
    LeadsHere(self, s, Anything);
    LeadsOn(self, s, Anything, s, OnChain(paid));
    var rich := Next(self, s, OnChain(paid));
    LeadsOn(self, s, Anything, rich, OnChain(lock));
    MovesFrom(self, s, Anything, Next(self, rich, OnChain(lock)), id);
  }

  predicate Anything(h: Happening)
  {
    true
  }

  // ---- Exactly which rows are dead ----------------------------------------

  predicate Used(record: Option<ChequeState>)
  {
    record == Some(Collected) || record == Some(Bounced)
  }

  predicate Marking(tasks: seq<Task>, id: ChequeId, from: State)
  {
    exists t :: t in tasks && Marks(t, id, from)
  }

  /**
   * Marked for force collect but locked after all; or, with no mark in flight that would still
   * move the row, force-collected without having been marked, refunded on chain while the
   * row says funded, or left half-way through recording a refund.
   */
  predicate Dead(s: Sys, id: ChequeId)
    requires id in s.db.cheques
  {
    var state, record := s.db.cheques[id].state, ChainState(s.chain, id);
    || (state == ZorlaTahsilDenendi && Funding(record))
    || (!Marking(s.tasks, id, state)
        && ((state == ImzaliRezerve && Used(record)) || (state == Havuzda && record == Some(Refunded))
            || state == IadeEdilebilir))
  }

  /** Where marks come from. */
  lemma TurnMarks(self: Address, chain: World, db: Db, t: Task, now: Weather, id: ChequeId)
    ensures var next := TaskStep(self, chain, db, t, now).task;
            && (next == MarkForced(id, ImzaliRezerve) ==> ChainState(chain, id) == None)
            && (next == MarkRefundable(id) ==> ChainState(chain, id) == Some(Funded))
            && (next == MarkRefunded(id) ==> t == MarkRefundable(id))
  {
  }

  lemma DeadNeverMarks(self: Address, s: Sys, h: Happening, id: ChequeId)
    requires h.Arrive? ==> IsRequest(h.t)
    requires id in s.db.cheques && Dead(s, id) && Behind(s.db.cheques[id].state, ChainState(s.chain, id))
    requires s.db.cheques[id].state != ZorlaTahsilDenendi
    ensures !Marking(Next(self, s, h).tasks, id, s.db.cheques[id].state)
  {
    forall t | t in Next(self, s, h).tasks ensures !Marks(t, id, s.db.cheques[id].state) {
      if h.Advance? && h.i < |s.tasks| {
        TurnMarks(self, s.chain, s.db, s.tasks[h.i], h.weather, id);
        assert s.tasks[h.i] in s.tasks;
      }
    }
  }

  lemma DeadIsNotMoved(s: Sys, id: ChequeId, t: Task)
    requires id in s.db.cheques && Dead(s, id) && t in s.tasks && Grounded(s.chain, t)
    requires t.id == id && MoveOf(t).Some?
    ensures MoveOf(t).value.0 != s.db.cheques[id].state
  {
    assert Marks(t, id, s.db.cheques[id].state) ==> Marking(s.tasks, id, s.db.cheques[id].state);
  }

  lemma DeadRowStays(self: Address, s: Sys, h: Happening, id: ChequeId)
    requires Reserved(s.db) && AllGrounded(s) && id in s.db.cheques && Dead(s, id)
    ensures SameRow(s, Next(self, s, h), id)
  {
    if h.Advance? && h.i < |s.tasks| && s.tasks[h.i].id == id && MoveOf(s.tasks[h.i]).Some? {
      assert Grounded(s.chain, s.tasks[h.i]);
      DeadIsNotMoved(s, id, s.tasks[h.i]);
    }
    NextLeavesRow(self, s, h, id);
  }

  lemma DeadStays(self: Address, s: Sys, h: Happening, id: ChequeId)
    requires Inv(s) && Allowed(self, s, h) && id in s.db.cheques && Dead(s, id)
    ensures SameRow(s, Next(self, s, h), id) && Dead(Next(self, s, h), id)
  {
    DeadRowStays(self, s, h, id);
    assert Behind(s.db.cheques[id].state, ChainState(s.chain, id));
    if s.db.cheques[id].state != ZorlaTahsilDenendi {
      DeadNeverMarks(self, s, h, id);
    }
    FactsPersist(self, s, h, id);
  }

  lemma {:induction false} DeadStaysDead(self: Address, s: Sys, more: seq<Happening>, id: ChequeId)
    requires Inv(s) && AllowedPlay(self, s, more) && id in s.db.cheques && Dead(s, id)
    ensures SameRow(s, Play(self, s, more), id) && Dead(Play(self, s, more), id)
  {
    if more != [] {
      var before := more[..|more| - 1];
      DeadStaysDead(self, s, before, id);
      PlayKeepsInv(self, s, before);
      DeadStays(self, Play(self, s, before), more[|more| - 1], id);
    }
  }

  lemma ReachableSound(self: Address, s: Sys)
    requires Reachable(self, s)
    ensures Sound(self, s.chain)
  {
    var start, hs :| Fresh(start) && AllowedPlay(self, start, hs) && Play(self, start, hs) == s;
    var es := ChainPlays(self, start, hs);
    DeployedIsSound(self, start.chain);
    RunKeepsSound(self, start.chain, es);
  }

  lemma PendingMarkMoves(self: Address, s: Sys, id: ChequeId)
    requires Logged(s.db) && id in s.db.cheques && Marking(s.tasks, id, s.db.cheques[id].state)
    ensures CanMove(self, s, id, Anything)
  {
    var t :| t in s.tasks && Marks(t, id, s.db.cheques[id].state);
    var i :| 0 <= i < |s.tasks| && s.tasks[i] == t;
    LeadsHere(self, s, Anything);
    MarkMoves(self, s, Anything, s, i, id);
  }

  lemma AttemptMovesSomehow(self: Address, s: Sys, id: ChequeId)
    requires Logged(s.db) && id in s.db.cheques && s.db.cheques[id].state == ZorlaTahsilDenendi
    requires ChainState(s.chain, id) == None
    ensures CanMove(self, s, id, Anything)
  {
    LeadsHere(self, s, Anything);
    var who := Stranger(self);
    var call := ForceCollect(who, id, OtherStranger(self), s.db.cheques[id].token, 1, s.chain.now + 1);
    ForceCollectSettlesInLastDay(self, s.chain, {who}, call);
    AttemptMoves(self, s, Anything, s, id, {who}, call);
  }

  /**
   * In every reachable system and for every open cheque: some honest future moves the row
   * if and only if it is not dead.
   */
  lemma StuckExactly(self: Address, s: Sys, id: ChequeId)
    requires Reachable(self, s) && id in s.db.cheques && !s.db.cheques[id].state.IsTerminal()
    ensures CanMove(self, s, id, Anything) <==> !Dead(s, id)
  {
    ReachableInv(self, s);
    ReachableSound(self, s);
    LeadsHere(self, s, Anything);
    if Dead(s, id) {
      forall t | Leads(self, s, Anything, t) ensures id in t.db.cheques && t.db.cheques[id].state == s.db.cheques[id].state {
        var more :| AllowedPlay(self, s, more) && Heeding(more, Anything) && Play(self, s, more) == t;
        DeadStaysDead(self, s, more, id);
      }
    } else {
      NotDeadMoves(self, s, id);
    }
  }

  lemma RecordCases(record: Option<ChequeState>)
    ensures record == None || Funding(record) || Used(record)
  {
    if record.Some? {
      match record.value
      case Funded | Claimed | Refunded => assert Funding(record);
      case Collected | Bounced => assert Used(record);
    }
  }

  lemma NotDeadMoves(self: Address, s: Sys, id: ChequeId)
    requires Logged(s.db) && Sound(self, s.chain) && id in s.db.cheques && !Dead(s, id)
    requires !s.db.cheques[id].state.IsTerminal() && Behind(s.db.cheques[id].state, ChainState(s.chain, id))
    ensures CanMove(self, s, id, Anything)
  {
    RecordCases(ChainState(s.chain, id));
    if Mover(id, s.db.cheques[id], ChainState(s.chain, id)).Some? {
      LeadsHere(self, s, Anything);
      MovesFrom(self, s, Anything, s, id);
    } else {
      match s.db.cheques[id].state
      case Havuzda =>
        if ChainState(s.chain, id) == Some(Funded) {
          FundedMoves(self, s, Anything, id);
        } else {
          PendingMarkMoves(self, s, id);
        }
      case IadeEdilebilir => PendingMarkMoves(self, s, id);
      case ZorlaTahsilDenendi => AttemptMovesSomehow(self, s, id);
      case ImzaliRezerve =>
        if ChainState(s.chain, id) == None {
          UnusedMoves(self, s, id);
        } else {
          PendingMarkMoves(self, s, id);
        }
    }
  }

  // ---- When an id is only ever used on its own terms ----------------------

  /** Nobody force-collects the id with terms other than the row's. */
  predicate OnOwnTerms(id: ChequeId, row: Cheque, h: Happening)
  {
    h.OnChain? && h.e.Invoke? && h.e.call.ForceCollect? && h.e.call.id == id ==> h.e.call == ForceCall(id, row)
  }

  function OwnTerms(id: ChequeId, row: Cheque): Happening -> bool
  {
    h => OnOwnTerms(id, row, h)
  }

  /** The sender can sign the attempt and it is for a positive amount. */
  predicate Collectable(self: Address, row: Cheque)
  {
    row.sender != self && ScVal.Wrapped(row.amount) > 0
  }

  /** The attempt can still be carried out, or has been. */
  predicate AttemptAlive(self: Address, s: Sys, id: ChequeId)
    requires id in s.db.cheques
  {
    || Used(ChainState(s.chain, id))
    || (ChainState(s.chain, id) == None && Collectable(self, s.db.cheques[id])
        && s.chain.now < s.db.cheques[id].expiresAt / MICROS_PER_SECOND)
  }

  lemma LapsedChainStays(self: Address, w: World, e: Event, id: ChequeId, row: Cheque)
    requires Admissible(self, w, e) && OnOwnTerms(id, row, OnChain(e)) && ChainState(w, id) == None
    requires !Collectable(self, row) || w.now >= row.expiresAt / MICROS_PER_SECOND
    ensures ChainState(Step(self, w, e), id) in {None, Some(Funded)}
    ensures Step(self, w, e).now >= w.now
  {
    if Acts(self, w, e, id) {
      if e.call.ForceCollect? {
        ForceCollectSettlesInLastDay(self, w, e.auths, e.call);
      }
    } else {
      OthersLeaveRecord(self, w, e, id);
    }
    TimeOnlyPasses(self, w, e);
  }

  lemma LapsedAttemptStays(self: Address, s: Sys, h: Happening, id: ChequeId)
    requires Inv(s) && Allowed(self, s, h)
    requires id in s.db.cheques && s.db.cheques[id].state == ZorlaTahsilDenendi
    requires ChainState(s.chain, id) == None && OnOwnTerms(id, s.db.cheques[id], h)
    requires !Collectable(self, s.db.cheques[id]) || s.chain.now >= s.db.cheques[id].expiresAt / MICROS_PER_SECOND
    ensures SameRow(s, Next(self, s, h), id) && Next(self, s, h).chain.now >= s.chain.now
    ensures ChainState(Next(self, s, h).chain, id) in {None, Some(Funded)}
  {
    if h.Advance? && h.i < |s.tasks| {
      assert Grounded(s.chain, s.tasks[h.i]);
    }
    NextLeavesRow(self, s, h, id);
    if EventOf(s, h).Some? {
      LapsedChainStays(self, s.chain, EventOf(s, h).value, id, s.db.cheques[id]);
    }
  }

  lemma DeadAttemptStays(self: Address, s: Sys, h: Happening, id: ChequeId)
    requires Inv(s) && Allowed(self, s, h)
    requires id in s.db.cheques && s.db.cheques[id].state == ZorlaTahsilDenendi && !AttemptAlive(self, s, id)
    requires OnOwnTerms(id, s.db.cheques[id], h)
    ensures SameRow(s, Next(self, s, h), id) && !AttemptAlive(self, Next(self, s, h), id)
  {
    RecordCases(ChainState(s.chain, id));
    if Funding(ChainState(s.chain, id)) {
      DeadStays(self, s, h, id);
    } else {
      LapsedAttemptStays(self, s, h, id);
    }
  }

  lemma {:induction false} DeadAttemptStaysDead(self: Address, s: Sys, more: seq<Happening>, id: ChequeId)
    requires Inv(s) && AllowedPlay(self, s, more)
    requires id in s.db.cheques && s.db.cheques[id].state == ZorlaTahsilDenendi && !AttemptAlive(self, s, id)
    requires forall j :: 0 <= j < |more| ==> OnOwnTerms(id, s.db.cheques[id], more[j])
    ensures SameRow(s, Play(self, s, more), id) && !AttemptAlive(self, Play(self, s, more), id)
  {
    if more != [] {
      var before := more[..|more| - 1];
      DeadAttemptStaysDead(self, s, before, id);
      PlayKeepsInv(self, s, before);
      DeadAttemptStays(self, Play(self, s, before), more[|more| - 1], id);
    }
  }

  /** A holder may always come to have nothing. */
  lemma Drained(self: Address, w: World, token: Address, who: Address)
    requires HonestTokens(w.balances) && who != self
    ensures Admissible(self, w, Elsewhere(w.balances[(token, who) := 0]))
  {
    var b := w.balances[(token, who) := 0];
    forall held ensures Supply(b, held) <= I128_MAX {
      SupplyAfterSet(w.balances, token, who, 0, held);
      assert Supply(w.balances, held) <= I128_MAX;
    }
  }

  lemma AttemptBounces(self: Address, w: World, id: ChequeId, row: Cheque)
    requires id !in w.cheques && Collectable(self, row) && BalanceOf(w.balances, row.token, row.sender) == 0
    requires w.now < row.expiresAt / MICROS_PER_SECOND
    ensures var late := Step(self, w, Tick(LaterOf(w.now, row.expiresAt / MICROS_PER_SECOND - 1)));
            Execute(self, late, {row.sender}, ForceCall(id, row)).outcome == Settled(Bounced)
  {
    var late := Step(self, w, Tick(LaterOf(w.now, row.expiresAt / MICROS_PER_SECOND - 1)));
    ForceCollectSettlesInLastDay(self, late, {row.sender}, ForceCall(id, row));
  }

  /** An attempt that has not been used can be carried out on its own terms, if only to bounce. */
  lemma UnusedAttemptMoves(self: Address, s: Sys, id: ChequeId)
    requires Logged(s.db) && HonestTokens(s.chain.balances)
    requires id in s.db.cheques && s.db.cheques[id].state == ZorlaTahsilDenendi
    requires AttemptAlive(self, s, id) && ChainState(s.chain, id) == None
    ensures CanMove(self, s, id, OwnTerms(id, s.db.cheques[id]))
  {
    var row := s.db.cheques[id];
    var ok := OwnTerms(id, row);
    var drain := OnChain(Elsewhere(s.chain.balances[(row.token, row.sender) := 0]));
    var wait := OnChain(Tick(LaterOf(s.chain.now, row.expiresAt / MICROS_PER_SECOND - 1)));
    LeadsHere(self, s, ok);
    Drained(self, s.chain, row.token, row.sender);
    LeadsOn(self, s, ok, s, drain);
    var poor := Next(self, s, drain);
    AttemptBounces(self, poor.chain, id, row);
    LeadsOn(self, s, ok, poor, wait);
    AttemptMoves(self, s, ok, Next(self, poor, wait), id, {row.sender}, ForceCall(id, row));
  }

  lemma UsedAttemptMoves(self: Address, s: Sys, id: ChequeId)
    requires Logged(s.db) && id in s.db.cheques && s.db.cheques[id].state == ZorlaTahsilDenendi
    requires Used(ChainState(s.chain, id))
    ensures CanMove(self, s, id, OwnTerms(id, s.db.cheques[id]))
  {
    LeadsHere(self, s, OwnTerms(id, s.db.cheques[id]));
    MovesFrom(self, s, OwnTerms(id, s.db.cheques[id]), s, id);
  }

  /**
   * A force-collect attempt whose id is force-collected on its own terms only: some honest future moves
   * the row if and only if the contract has settled the attempt, or the id is unused, the
   * amount positive in the contract's type, and the cheque not expired on chain.
   */
  lemma AttemptMovesExactly(self: Address, s: Sys, id: ChequeId)
    requires Reachable(self, s) && id in s.db.cheques && s.db.cheques[id].state == ZorlaTahsilDenendi
    ensures CanMove(self, s, id, OwnTerms(id, s.db.cheques[id])) <==> AttemptAlive(self, s, id)
  {
    ReachableInv(self, s);
    var ok := OwnTerms(id, s.db.cheques[id]);
    if AttemptAlive(self, s, id) {
      ReachableSound(self, s);
      if Used(ChainState(s.chain, id)) {
        UsedAttemptMoves(self, s, id);
      } else {
        UnusedAttemptMoves(self, s, id);
      }
    } else {
      forall t | Leads(self, s, ok, t) ensures id in t.db.cheques && t.db.cheques[id].state == s.db.cheques[id].state {
        var more :| AllowedPlay(self, s, more) && Heeding(more, ok) && Play(self, s, more) == t;
        assert forall j :: 0 <= j < |more| ==> ok(more[j]);
        DeadAttemptStaysDead(self, s, more, id);
      }
    }
  }

  // ---- What a dead row costs ----------------------------------------------

  /** A request for either transaction that has read nothing but the dead row and its record. */
  predicate Hopeless(chain: World, t: Task, id: ChequeId)
  {
    t.id == id &&
    match t
    case ClaimXdr(_, _) | ForceCollectXdr(_, _) => true
    case AskChain(_, _, _) => Used(ChainState(chain, id))
    case BuildClaim(_, _) => ChainState(chain, id) == Some(Refunded)
    case SimulateForce(_, _) => id in chain.cheques
    case Done(_, reply) => reply != Granted
    case _ => false
  }

  lemma HopelessTurn(self: Address, s: Sys, t: Task, now: Weather, id: ChequeId)
    requires id in s.db.cheques && Dead(s, id) && Hopeless(s.chain, t, id)
    ensures Hopeless(s.chain, TaskStep(self, s.chain, s.db, t, now).task, id)
  {
  }

  lemma HopelessPersists(self: Address, s: Sys, h: Happening, t: Task, id: ChequeId)
    requires Hopeless(s.chain, t, id)
    ensures Hopeless(Next(self, s, h).chain, t, id)
  {
    FactsPersist(self, s, h, id);
    if EventOf(s, h).Some? {
      RecordsEvolve(self, s.chain, [EventOf(s, h).value], id);
      assert [EventOf(s, h).value][..0] == [];
      assert Run(self, s.chain, []) == s.chain;
      assert Run(self, s.chain, [EventOf(s, h).value]) == Step(self, s.chain, EventOf(s, h).value);
    }
  }

  /** Where the request at `i` is after one more happening, if it has not died. */
  function Follow(s: Sys, i: nat, h: Happening): Option<nat>
  {
    if !h.Crash? || h.i >= |s.tasks| || h.i > i then Some(i)
    else if h.i == i then None
    else Some(i - 1)
  }

  function Whereabouts(self: Address, s: Sys, i: nat, more: seq<Happening>): Option<nat>
  {
    if more == [] then Some(i)
    else
      var before := more[..|more| - 1];
      match Whereabouts(self, s, i, before)
      case None => None
      case Some(j) => Follow(Play(self, s, before), j, more[|more| - 1])
  }

  lemma HopelessNext(self: Address, s: Sys, i: nat, h: Happening, id: ChequeId)
    requires id in s.db.cheques && Dead(s, id) && i < |s.tasks| && Hopeless(s.chain, s.tasks[i], id)
    ensures match Follow(s, i, h)
            case None => true
            case Some(j) => j < |Next(self, s, h).tasks| && Hopeless(Next(self, s, h).chain, Next(self, s, h).tasks[j], id)
  {
    HopelessPersists(self, s, h, s.tasks[i], id);
    if h.Advance? && h.i == i {
      HopelessTurn(self, s, s.tasks[i], h.weather, id);
      HopelessPersists(self, s, h, TaskStep(self, s.chain, s.db, s.tasks[i], h.weather).task, id);
    }
  }

  lemma {:induction false} StaysHopeless(self: Address, s: Sys, i: nat, more: seq<Happening>, id: ChequeId)
    requires Inv(s) && AllowedPlay(self, s, more) && id in s.db.cheques && Dead(s, id)
    requires i < |s.tasks| && Hopeless(s.chain, s.tasks[i], id)
    ensures match Whereabouts(self, s, i, more)
            case None => true
            case Some(j) =>
              j < |Play(self, s, more).tasks| && Hopeless(Play(self, s, more).chain, Play(self, s, more).tasks[j], id)
  {
    if more != [] {
      var before := more[..|more| - 1];
      StaysHopeless(self, s, i, before, id);
      DeadStaysDead(self, s, before, id);
      match Whereabouts(self, s, i, before)
      case None =>
      case Some(j) => HopelessNext(self, Play(self, s, before), j, more[|more| - 1], id);
    }
  }

  /**
   * Whatever honestly happens around it, no request for a claim or a force collect that
   * arrives while its row is dead is ever granted a transaction.
   */
  lemma NeverGranted(self: Address, s: Sys, r: Task, more: seq<Happening>)
    requires Reachable(self, s) && (r.ClaimXdr? || r.ForceCollectXdr?)
    requires r.id in s.db.cheques && Dead(s, r.id) && AllowedPlay(self, Next(self, s, Arrive(r)), more)
    ensures var asked := Next(self, s, Arrive(r));
            match Whereabouts(self, asked, |s.tasks|, more)
            case None => true
            case Some(j) => j < |Play(self, asked, more).tasks| && Play(self, asked, more).tasks[j] != Done(r.id, Granted)
  {
    ReachableInv(self, s);
    NextKeepsInv(self, s, Arrive(r));
    DeadStays(self, s, Arrive(r), r.id);
    StaysHopeless(self, Next(self, s, Arrive(r)), |s.tasks|, more, r.id);
  }

  /**
   * From a dead row on, whatever honestly happens: the row, its log and its active
   * reservation stay as they are, the row stays dead, and the sender never writes another
   * cheque.
   */
  lemma DeadForever(self: Address, s: Sys, more: seq<Happening>, id: ChequeId, newId: ChequeId, c: Cheque)
    requires Reachable(self, s) && AllowedPlay(self, s, more) && id in s.db.cheques && Dead(s, id)
    requires c.sender == s.db.cheques[id].sender
    ensures id in s.db.reservations
    ensures var later := Play(self, s, more);
            && SameRow(s, later, id) && Dead(later, id) && later.db.reservations[id].active
            && CreateStep(later.db, newId, c).fault != None && CreateStep(later.db, newId, c).db == later.db
  {
    ReachableInv(self, s);
    PlayKeepsInv(self, s, more);
    DeadStaysDead(self, s, more, id);
    OneOpenChequePerSender(Play(self, s, more).db, id, newId, c);
  }

  /** A claim request that read the row before it was marked still gets its transaction, and repairs nothing. */
  lemma ClaimInFlightIsGranted(self: Address, s: Sys, id: ChequeId, expiresAt: nat, now: Weather)
    requires id in s.db.cheques && s.db.cheques[id].state == ZorlaTahsilDenendi
    requires Sound(self, s.chain) && ChainState(s.chain, id) == Some(Funded) && s.chain.now < s.chain.cheques[id].expiresAt
    requires now.up && !Overdue(now, expiresAt)
    ensures Alone(self, s.chain, s.db, AskChain(id, ImzaliRezerve, expiresAt), now) == Turn(s.db, Done(id, Granted))
  {
    AskChainAlone(self, s.chain, s.db, id, ImzaliRezerve, expiresAt, now);
    BuildClaimAlone(self, s.chain, s.db, id, expiresAt, now);
    OnePayoutAlwaysOpen(self, s.chain, {s.chain.cheques[id].receiver}, id);
  }
}
