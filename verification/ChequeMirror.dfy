/**
 * The off-chain mirror and the chain, running together.
 *
 * A system state holds the contract's world, the service's tables and every request in
 * flight. Requests advance one atomic piece at a time in any order, processes die between
 * pieces, and the chain moves on its own. A confirm is only sent once its on-chain step has
 * succeeded; nothing else is assumed of callers.
 */
module ChequeMirror {
  import opened Options
  import opened Escrow
  import opened EscrowSolvency
  import opened EscrowSettlement
  import opened ChequeStore
  import opened ChequeService

  datatype Sys = Sys(chain: World, db: Db, tasks: seq<Task>)

  datatype Happening =
    | OnChain(e: Event)
    | Write(id: ChequeId, c: Cheque)      // CreateCheque reaching its reservation transaction
    | Arrive(t: Task)
    | Advance(i: nat, weather: Weather)
    | Crash(i: nat)

  /** What happens on chain: an event of its own, or the refund the scheduler submits. */
  function EventOf(s: Sys, h: Happening): Option<Event>
  {
    match h
    case OnChain(e) => Some(e)
    case Advance(i, weather) =>
      if i < |s.tasks| && Causes(s.tasks[i], weather).Some? then Some(Invoke({}, Causes(s.tasks[i], weather).value)) else None
    case _ => None
  }

  function ChainAfter(self: Address, s: Sys, h: Happening): World
  {
    if EventOf(s, h).Some? then Step(self, s.chain, EventOf(s, h).value) else s.chain
  }

  function Next(self: Address, s: Sys, h: Happening): Sys
  {
    match h
    case OnChain(_) => s.(chain := ChainAfter(self, s, h))
    case Write(id, c) => s.(db := CreateStep(s.db, id, c).db)
    case Arrive(t) => s.(tasks := s.tasks + [t])
    case Advance(i, weather) =>
      if i >= |s.tasks| then s
      else
        var turn := TaskStep(self, s.chain, s.db, s.tasks[i], weather);
        s.(chain := ChainAfter(self, s, h), db := turn.db, tasks := s.tasks[i := turn.task])
    case Crash(i) =>
      if i >= |s.tasks| then s else s.(tasks := s.tasks[..i] + s.tasks[i + 1..])
  }

  predicate Funding(record: Option<ChequeState>)
  {
    record == Some(Funded) || record == Some(Claimed) || record == Some(Refunded)
  }

  /** A confirm names something that has already happened on chain. */
  predicate Honest(chain: World, t: Task)
  {
    match t
    case ConfirmLock(id, _) => Funding(ChainState(chain, id))
    case ConfirmClaim(id, _) => ChainState(chain, id) == Some(Claimed)
    case ConfirmForceCollect(id, _, collected) => ChainState(chain, id) == Some(if collected then Collected else Bounced)
    case _ => true
  }

  ghost predicate Allowed(self: Address, s: Sys, h: Happening)
  {
    match h
    case OnChain(e) => Admissible(self, s.chain, e)
    case Write(_, c) => c.state == ImzaliRezerve
    case Arrive(t) => IsRequest(t) && Honest(s.chain, t)
    case Advance(_, _) => true
    case Crash(_) => true
  }

  function Play(self: Address, s: Sys, hs: seq<Happening>): Sys
  {
    if hs == [] then s else Next(self, Play(self, s, hs[..|hs| - 1]), hs[|hs| - 1])
  }

  ghost predicate AllowedPlay(self: Address, s: Sys, hs: seq<Happening>)
  {
    hs == [] ||
    (var before := hs[..|hs| - 1];
     AllowedPlay(self, s, before) && Allowed(self, Play(self, s, before), hs[|hs| - 1]))
  }

  ghost predicate Fresh(s: Sys)
  {
    Deployed(s.chain) && s.db == Db(map[], map[], [], map[]) && s.tasks == []
  }

  // ---- What the mirror may say -------------------------------------------

  /** The chain states a mirror state may stand for. */
  predicate Behind(local: State, record: Option<ChequeState>)
  {
    match local
    case ImzaliRezerve | ZorlaTahsilDenendi => true
    case Havuzda => Funding(record)
    case TalepEdildi | Onaylandi => record == Some(Claimed)
    case Kapandi => record == Some(Claimed) || record == Some(Collected)
    case IadeEdilebilir | IadeEdildi => record == Some(Refunded)
    case Karsiliksiz => record == Some(Bounced)
    case Taslak | Fonlaniyor | Hukumsuz => false
  }

  /** What a request in flight has already established. */
  predicate Grounded(chain: World, t: Task)
  {
    match t
    case MarkLocked(id) => Funding(ChainState(chain, id))
    case AskChain(_, seen, _) => seen == ImzaliRezerve
    case Repair(id, seen, to, _) =>
      && seen == ImzaliRezerve
      && ((to == Havuzda && Funding(ChainState(chain, id)))
          || (to == TalepEdildi && ChainState(chain, id) == Some(Claimed)))
    case MarkClaimed(id) => ChainState(chain, id) == Some(Claimed)
    case SimulateForce(_, row) => row.state == ImzaliRezerve
    case MarkForced(_, seen) => seen == ImzaliRezerve
    case MarkForceOutcome(id, collected) => ChainState(chain, id) == Some(if collected then Collected else Bounced)
    case MarkRefundable(id) => ChainState(chain, id) == Some(Refunded)
    case MarkRefunded(id) => ChainState(chain, id) == Some(Refunded)
    case Done(id, reply) => reply == AlreadyClaimed ==> ChainState(chain, id) == Some(Claimed)
    case _ => Honest(chain, t)
  }

  ghost predicate MirrorBehind(s: Sys)
  {
    forall id :: id in s.db.cheques ==> Behind(s.db.cheques[id].state, ChainState(s.chain, id))
  }

  ghost predicate AllGrounded(s: Sys)
  {
    forall i :: 0 <= i < |s.tasks| ==> Grounded(s.chain, s.tasks[i])
  }

  ghost predicate Inv(s: Sys)
  {
    Consistent(s.db) && MirrorBehind(s) && AllGrounded(s)
  }

  // ---- One happening keeps the invariant ---------------------------------

  /** Chain facts that mirror states stand for are never taken back. */
  lemma ChainFactsPersist(self: Address, chain: World, e: Event, id: ChequeId)
    ensures var later := Step(self, chain, e);
            && (Funding(ChainState(chain, id)) ==> Funding(ChainState(later, id)))
            && (ChainState(chain, id) in {Some(Claimed), Some(Refunded), Some(Collected), Some(Bounced)}
                ==> ChainState(later, id) == ChainState(chain, id))
  {
    RecordsEvolve(self, chain, [e], id);
    assert [e][..0] == [] && Run(self, chain, []) == chain;
    assert Run(self, chain, [e]) == Step(self, chain, e);
  }

  lemma FactsPersist(self: Address, s: Sys, h: Happening, id: ChequeId)
    ensures Next(self, s, h).chain == ChainAfter(self, s, h)
    ensures var later := Next(self, s, h).chain;
            && (Funding(ChainState(s.chain, id)) ==> Funding(ChainState(later, id)))
            && (ChainState(s.chain, id) in {Some(Claimed), Some(Refunded), Some(Collected), Some(Bounced)}
                ==> ChainState(later, id) == ChainState(s.chain, id))
  {
    if EventOf(s, h).Some? {
      ChainFactsPersist(self, s.chain, EventOf(s, h).value, id);
    }
  }

  lemma OnChainKeepsInv(self: Address, s: Sys, e: Event)
    requires Inv(s)
    ensures Inv(Next(self, s, OnChain(e)))
  {
    var after := Next(self, s, OnChain(e));
    forall id | id in after.db.cheques ensures Behind(after.db.cheques[id].state, ChainState(after.chain, id)) {
      ChainFactsPersist(self, s.chain, e, id);
    }
    forall i | 0 <= i < |after.tasks| ensures Grounded(after.chain, after.tasks[i]) {
      ChainFactsPersist(self, s.chain, e, s.tasks[i].id);
      assert Grounded(s.chain, s.tasks[i]);
    }
  }

  lemma MoveKeepsBehind(s: Sys, id: ChequeId, from: State, to: State)
    requires MirrorBehind(s)
    requires Behind(from, ChainState(s.chain, id)) ==> Behind(to, ChainState(s.chain, id))
    ensures MirrorBehind(s.(db := TransitionStep(s.db, id, from, to).db))
  {
  }

  /** The only moves any request makes: up one edge, from a state the chain allows to leave. */
  lemma MoveKeepsInv(s: Sys, id: ChequeId, from: State, to: State)
    requires Consistent(s.db) && MirrorBehind(s)
    requires !from.IsTerminal() && Rank(from) < Rank(to)
    requires Behind(from, ChainState(s.chain, id)) ==> Behind(to, ChainState(s.chain, id))
    ensures Consistent(TransitionStep(s.db, id, from, to).db)
    ensures MirrorBehind(s.(db := TransitionStep(s.db, id, from, to).db))
  {
    TransitionKeepsConsistent(s.db, id, from, to);
    MoveKeepsBehind(s, id, from, to);
  }

  /** The move a task is about to make in the tables, if any. */
  function MoveOf(t: Task): Option<(State, State)>
  {
    match t
    case MarkLocked(_) => Some((ImzaliRezerve, Havuzda))
    case Repair(_, seen, to, _) => Some((seen, to))
    case MarkClaimed(_) => Some((Havuzda, TalepEdildi))
    case MarkApproved(_) => Some((TalepEdildi, Onaylandi))
    case MarkClosed(_) => Some((Onaylandi, Kapandi))
    case MarkForced(_, seen) => Some((seen, ZorlaTahsilDenendi))
    case MarkForceOutcome(_, collected) => Some((ZorlaTahsilDenendi, OutcomeState(collected)))
    case MarkRefundable(_) => Some((Havuzda, IadeEdilebilir))
    case MarkRefunded(_) => Some((IadeEdilebilir, IadeEdildi))
    case _ => None
  }

  lemma TurnMakesMove(self: Address, chain: World, db: Db, t: Task, weather: Weather)
    ensures TaskStep(self, chain, db, t, weather).db
         == match MoveOf(t) case None => db case Some(m) => TransitionStep(db, t.id, m.0, m.1).db
  {
  }

  lemma GroundedMoves(chain: World, t: Task)
    requires Grounded(chain, t) && MoveOf(t).Some?
    ensures var (from, to) := MoveOf(t).value;
            && !from.IsTerminal() && Rank(from) < Rank(to)
            && (Behind(from, ChainState(chain, t.id)) ==> Behind(to, ChainState(chain, t.id)))
  {
  }

  lemma TurnStaysGrounded(self: Address, s: Sys, t: Task, weather: Weather)
    requires MirrorBehind(s) && Grounded(s.chain, t) && Causes(t, weather).None?
    ensures Grounded(s.chain, TaskStep(self, s.chain, s.db, t, weather).task)
  {
  }

  lemma TurnKeepsInv(self: Address, s: Sys, t: Task, weather: Weather)
    requires Consistent(s.db) && MirrorBehind(s) && Grounded(s.chain, t) && Causes(t, weather).None?
    ensures var turn := TaskStep(self, s.chain, s.db, t, weather);
            Consistent(turn.db) && MirrorBehind(s.(db := turn.db)) && Grounded(s.chain, turn.task)
  {
    TurnMakesMove(self, s.chain, s.db, t, weather);
    TurnStaysGrounded(self, s, t, weather);
    if MoveOf(t).Some? {
      GroundedMoves(s.chain, t);
      MoveKeepsInv(s, t.id, MoveOf(t).value.0, MoveOf(t).value.1);
    } else {
      assert s.(db := s.db) == s;
    }
  }

  lemma WriteKeepsInv(s: Sys, id: ChequeId, c: Cheque)
    requires Inv(s) && c.state == ImzaliRezerve
    ensures Inv(s.(db := CreateStep(s.db, id, c).db))
  {
    CreateKeepsConsistent(s.db, id, c);
  }

  /** The scheduler's refund is an event like any other, and grounds the mark that follows it. */
  lemma RefundTurnKeepsInv(self: Address, s: Sys, i: nat, weather: Weather)
    requires Inv(s) && i < |s.tasks| && Causes(s.tasks[i], weather).Some?
    ensures Inv(Next(self, s, Advance(i, weather)))
  {
    var refunded := Next(self, s, OnChain(Invoke({}, Refund(s.tasks[i].id))));
    OnChainKeepsInv(self, s, Invoke({}, Refund(s.tasks[i].id)));
    var after := Next(self, s, Advance(i, weather));
    assert after.chain == refunded.chain && after.db == refunded.db;
    forall j | 0 <= j < |after.tasks| ensures Grounded(after.chain, after.tasks[j]) {
      if j != i {
        assert Grounded(refunded.chain, refunded.tasks[j]);
      }
    }
  }

  lemma NextKeepsInv(self: Address, s: Sys, h: Happening)
    requires Inv(s) && Allowed(self, s, h)
    ensures Inv(Next(self, s, h))
  {
    match h
    case OnChain(e) => OnChainKeepsInv(self, s, e);
    case Write(id, c) => WriteKeepsInv(s, id, c);
    case Arrive(t) =>
    case Advance(i, weather) =>
      if i < |s.tasks| {
        if Causes(s.tasks[i], weather).Some? {
          RefundTurnKeepsInv(self, s, i, weather);
        } else {
          TurnKeepsInv(self, s, s.tasks[i], weather);
        }
      }
    case Crash(_) =>
  }

  lemma {:induction false} PlayKeepsInv(self: Address, s: Sys, hs: seq<Happening>)
    requires Inv(s) && AllowedPlay(self, s, hs)
    ensures Inv(Play(self, s, hs))
  {
    if hs != [] {
      PlayKeepsInv(self, s, hs[..|hs| - 1]);
      NextKeepsInv(self, Play(self, s, hs[..|hs| - 1]), hs[|hs| - 1]);
    }
  }

  lemma {:induction false} ChainPlays(self: Address, s: Sys, hs: seq<Happening>)
    returns (es: seq<Event>)
    requires AllowedPlay(self, s, hs)
    ensures AdmissibleRun(self, s.chain, es) && Play(self, s, hs).chain == Run(self, s.chain, es)
  {
    if hs == [] {
      es := [];
    } else {
      var before := ChainPlays(self, s, hs[..|hs| - 1]);
      var h := hs[|hs| - 1];
      var e := EventOf(Play(self, s, hs[..|hs| - 1]), h);
      if e.Some? {
        es := before + [e.value];
        assert es[..|es| - 1] == before;
      } else {
        es := before;
      }
    }
  }
}
