/**
 * The cheque service's requests, cut where they touch the database or ask the chain.
 *
 * A `Task` is a request with its program counter; `TaskStep` performs its next atomic piece,
 * so requests can interleave with each other and with the chain between any two pieces.
 * The class `ChequeService` runs the same requests straight through, one after another,
 * and is proved to end where such a `Task`, left alone, would end.
 */
module ChequeService {
  import opened Options
  import opened Escrow
  import opened ChequeStore
  import ScVal

  datatype Reply =
    | Granted
    | NotFoundReply
    | InvalidReceiver
    | TerminalState
    | NotFunded
    | AlreadyClaimed
    | Expired
    | ChainUnavailable
    | SimulationFailed
    | NotDue

  datatype Task =
    | Done(id: ChequeId, reply: Reply)
      // ConfirmLock: read the row, then mark it funded
    | ConfirmLock(id: ChequeId, caller: Address)
    | MarkLocked(id: ChequeId)
      // ClaimXDR: read the row, perhaps ask the chain, perhaps repair the row, simulate the claim
    | ClaimXdr(id: ChequeId, receiver: Address)
    | AskChain(id: ChequeId, seen: State, expiresAt: nat)
    | Repair(id: ChequeId, seen: State, to: State, expiresAt: nat)
    | BuildClaim(id: ChequeId, expiresAt: nat)
      // ConfirmClaim
    | ConfirmClaim(id: ChequeId, caller: Address)
    | MarkClaimed(id: ChequeId)
      // AcknowledgeReceipt
    | Acknowledge(id: ChequeId, caller: Address)
    | MarkApproved(id: ChequeId)
    | MarkClosed(id: ChequeId)
      // ForceCollectXDR: read the row, simulate the call on its terms, mark the attempt
    | ForceCollectXdr(id: ChequeId, receiver: Address)
    | SimulateForce(id: ChequeId, row: Cheque)
    | MarkForced(id: ChequeId, seen: State)
      // ConfirmForceCollect
    | ConfirmForceCollect(id: ChequeId, caller: Address, collected: bool)
    | MarkForceOutcome(id: ChequeId, collected: bool)
      // The scheduler's sweep of one cheque: find it overdue, submit the refund, and MarkRefunded
    | SweepExpired(id: ChequeId)
    | SubmitRefund(id: ChequeId)
    | MarkRefundable(id: ChequeId)
    | MarkRefunded(id: ChequeId)

  predicate IsRequest(t: Task)
  {
    t.ConfirmLock? || t.ClaimXdr? || t.ConfirmClaim? || t.Acknowledge? || t.ForceCollectXdr?
    || t.ConfirmForceCollect? || t.SweepExpired?
  }

  /**
   * What the outside world is like while a task takes one turn: whether accounts can be read
   * and calls simulated at all, and the server's own clock, in nanoseconds.
   */
  datatype Weather = Weather(up: bool, clock: nat)

  const NANOS_PER_MICRO: int := 1_000
  const MICROS_PER_SECOND: int := 1_000_000

  predicate Overdue(now: Weather, expiresAt: nat)
  {
    now.clock > expiresAt * NANOS_PER_MICRO
  }

  // ---- Simulated calls ---------------------------------------------------

  /** The force collect rebuilt from a row; `Preauth` relates it to what the sender signed. */
  function ForceCall(id: ChequeId, row: Cheque): (call: Call)
    ensures call.ForceCollect?
  {
    ForceCollect(row.sender, id, row.receiver, row.token, ScVal.Wrapped(row.amount), row.expiresAt / MICROS_PER_SECOND)
  }

  /** The lock built beside it when the cheque is written. */
  function LockCall(id: ChequeId, row: Cheque): (call: Call)
    ensures call.Lock?
  {
    Lock(row.sender, id, row.receiver, row.token, ScVal.Wrapped(row.amount), row.expiresAt / MICROS_PER_SECOND)
  }

  /** The row carries the sender's signature of that call, and nobody else's; the contract signs nothing. */
  predicate ForceSimulates(self: Address, chain: World, id: ChequeId, row: Cheque)
  {
    Execute(self, chain, {row.sender} - {self}, ForceCall(id, row)).outcome.Succeeded()
  }

  /** Simulation records the authorisation a claim needs instead of asking for it. */
  predicate ClaimSimulates(self: Address, chain: World, id: ChequeId)
  {
    id in chain.cheques && ClaimStep(self, chain, {chain.cheques[id].receiver}, id).outcome.Succeeded()
  }

  // ---- Requests ----------------------------------------------------------

  datatype Turn = Turn(db: Db, task: Task)

  function Remaining(t: Task): nat
  {
    match t
    case Done(_, _) => 0
    case MarkLocked(_) | BuildClaim(_, _) | MarkClaimed(_) | MarkClosed(_) | MarkForced(_, _)
       | MarkForceOutcome(_, _) | MarkRefunded(_) => 1
    case ConfirmLock(_, _) | Repair(_, _, _, _) | ConfirmClaim(_, _) | MarkApproved(_) | SimulateForce(_, _)
       | ConfirmForceCollect(_, _, _) | MarkRefundable(_) => 2
    case AskChain(_, _, _) | Acknowledge(_, _) | ForceCollectXdr(_, _) | SubmitRefund(_) => 3
    case ClaimXdr(_, _) | SweepExpired(_) => 4
  }

  function OutcomeState(collected: bool): State
  {
    if collected then Kapandi else Karsiliksiz
  }

  /** A request's next atomic piece. */
  function TaskStep(self: Address, chain: World, db: Db, t: Task, now: Weather): (turn: Turn)
    ensures !t.Done? ==> Remaining(turn.task) < Remaining(t)
    ensures turn.task.id == t.id
  {
    match t
    case Done(_, _) => Turn(db, t)

    case ConfirmLock(id, caller) =>
      if id !in db.cheques || db.cheques[id].sender != caller then Turn(db, Done(id, NotFoundReply))
      else Turn(db, MarkLocked(id))
    case MarkLocked(id) => Turn(TransitionStep(db, id, ImzaliRezerve, Havuzda).db, Done(id, Granted))

    case ClaimXdr(id, receiver) =>
      if id !in db.cheques then Turn(db, Done(id, NotFoundReply))
      else
        var c := db.cheques[id];
        if c.receiver != receiver then Turn(db, Done(id, InvalidReceiver))
        else if !now.up then Turn(db, Done(id, ChainUnavailable))
        else if c.state == Havuzda then Turn(db, BuildClaim(id, c.expiresAt))
        else if c.state == ImzaliRezerve || c.state == Fonlaniyor then Turn(db, AskChain(id, c.state, c.expiresAt))
        else Turn(db, Done(id, TerminalState))
    case AskChain(id, seen, expiresAt) =>
      if !now.up then Turn(db, Done(id, TerminalState))
      else if id in chain.cheques && chain.cheques[id].state == Funded then Turn(db, Repair(id, seen, Havuzda, expiresAt))
      else if id in chain.cheques && chain.cheques[id].state == Claimed then Turn(db, Repair(id, seen, TalepEdildi, expiresAt))
      else Turn(db, Done(id, NotFunded))
    case Repair(id, seen, to, expiresAt) =>
      var repaired := TransitionStep(db, id, seen, to).db;
      if to == Havuzda then Turn(repaired, BuildClaim(id, expiresAt)) else Turn(repaired, Done(id, AlreadyClaimed))
    case BuildClaim(id, expiresAt) =>
      if Overdue(now, expiresAt) then Turn(db, Done(id, Expired))
      else if !now.up then Turn(db, Done(id, ChainUnavailable))
      else if !ClaimSimulates(self, chain, id) then Turn(db, Done(id, SimulationFailed))
      else Turn(db, Done(id, Granted))

    case ConfirmClaim(id, caller) =>
      if id !in db.cheques || db.cheques[id].receiver != caller then Turn(db, Done(id, NotFoundReply))
      else Turn(db, MarkClaimed(id))
    case MarkClaimed(id) => Turn(TransitionStep(db, id, Havuzda, TalepEdildi).db, Done(id, Granted))

    case Acknowledge(id, caller) =>
      if id !in db.cheques || db.cheques[id].receiver != caller then Turn(db, Done(id, NotFoundReply))
      else Turn(db, MarkApproved(id))
    case MarkApproved(id) => Turn(TransitionStep(db, id, TalepEdildi, Onaylandi).db, MarkClosed(id))
    case MarkClosed(id) => Turn(TransitionStep(db, id, Onaylandi, Kapandi).db, Done(id, Granted))

    case ForceCollectXdr(id, receiver) =>
      if id !in db.cheques then Turn(db, Done(id, NotFoundReply))
      else
        var c := db.cheques[id];
        if c.receiver != receiver then Turn(db, Done(id, InvalidReceiver))
        else if c.state != ImzaliRezerve && c.state != Fonlaniyor then Turn(db, Done(id, TerminalState))
        else Turn(db, SimulateForce(id, c))
    case SimulateForce(id, row) =>
      if !now.up then Turn(db, Done(id, ChainUnavailable))
      else if !ForceSimulates(self, chain, id, row) then Turn(db, Done(id, SimulationFailed))
      else Turn(db, MarkForced(id, row.state))
    case MarkForced(id, seen) => Turn(TransitionStep(db, id, seen, ZorlaTahsilDenendi).db, Done(id, Granted))

    case ConfirmForceCollect(id, caller, collected) =>
      if id !in db.cheques || db.cheques[id].receiver != caller then Turn(db, Done(id, NotFoundReply))
      else Turn(db, MarkForceOutcome(id, collected))
    case MarkForceOutcome(id, collected) =>
      Turn(TransitionStep(db, id, ZorlaTahsilDenendi, OutcomeState(collected)).db, Done(id, Granted))

    case SweepExpired(id) =>
      if id in db.cheques && db.cheques[id].state == Havuzda && now.clock >= db.cheques[id].expiresAt * NANOS_PER_MICRO
      then Turn(db, SubmitRefund(id)) else Turn(db, Done(id, NotDue))
    case SubmitRefund(id) =>
      if !now.up then Turn(db, Done(id, ChainUnavailable))
      else if !RefundStep(self, chain, id).outcome.Succeeded() then Turn(db, Done(id, SimulationFailed))
      else Turn(db, MarkRefundable(id))
    case MarkRefundable(id) => Turn(TransitionStep(db, id, Havuzda, IadeEdilebilir).db, MarkRefunded(id))
    case MarkRefunded(id) => Turn(TransitionStep(db, id, IadeEdilebilir, IadeEdildi).db, Done(id, Granted))
  }

  /** The chain event a task's next piece causes: only the scheduler submits transactions itself. */
  function Causes(t: Task, now: Weather): Option<Call>
  {
    if t.SubmitRefund? && now.up then Some(Refund(t.id)) else None
  }

  /** A request's turns with nothing else happening meanwhile, on a chain it leaves alone. */
  function Alone(self: Address, chain: World, db: Db, t: Task, now: Weather): (turn: Turn)
    ensures turn.task.Done? && turn.task.id == t.id
    decreases Remaining(t)
  {
    if t.Done? then Turn(db, t)
    else
      var turn := TaskStep(self, chain, db, t, now);
      Alone(self, chain, turn.db, turn.task, now)
  }

  lemma AloneUnfolds(self: Address, chain: World, db: Db, t: Task, now: Weather)
    requires !t.Done?
    ensures var turn := TaskStep(self, chain, db, t, now);
            Alone(self, chain, db, t, now) == if turn.task.Done? then turn else Alone(self, chain, turn.db, turn.task, now)
  {
  }

  lemma ApprovedAlone(self: Address, chain: World, db: Db, id: ChequeId, now: Weather)
    ensures Alone(self, chain, db, MarkApproved(id), now)
         == Turn(TransitionStep(TransitionStep(db, id, TalepEdildi, Onaylandi).db, id, Onaylandi, Kapandi).db, Done(id, Granted))
  {
    AloneUnfolds(self, chain, TransitionStep(db, id, TalepEdildi, Onaylandi).db, MarkClosed(id), now);
  }

  lemma BuildClaimAlone(self: Address, chain: World, db: Db, id: ChequeId, expiresAt: nat, now: Weather)
    requires now.up
    ensures Alone(self, chain, db, BuildClaim(id, expiresAt), now)
         == Turn(db, Done(id, if Overdue(now, expiresAt) then Expired
                             else if ClaimSimulates(self, chain, id) then Granted else SimulationFailed))
  {
  }

  lemma ForcedAlone(self: Address, chain: World, db: Db, id: ChequeId, row: Cheque, now: Weather)
    ensures Alone(self, chain, db, SimulateForce(id, row), now)
         == if !now.up then Turn(db, Done(id, ChainUnavailable))
            else if !ForceSimulates(self, chain, id, row) then Turn(db, Done(id, SimulationFailed))
            else Turn(TransitionStep(db, id, row.state, ZorlaTahsilDenendi).db, Done(id, Granted))
  {
    AloneUnfolds(self, chain, db, MarkForced(id, row.state), now);
  }

  lemma AskChainAlone(self: Address, chain: World, db: Db, id: ChequeId, seen: State, expiresAt: nat, now: Weather)
    requires now.up
    ensures Alone(self, chain, db, AskChain(id, seen, expiresAt), now)
         == match ChainState(chain, id)
            case Some(Funded) => Alone(self, chain, TransitionStep(db, id, seen, Havuzda).db, BuildClaim(id, expiresAt), now)
            case Some(Claimed) => Turn(TransitionStep(db, id, seen, TalepEdildi).db, Done(id, AlreadyClaimed))
            case _ => Turn(db, Done(id, NotFunded))
  {
    match ChainState(chain, id)
    case Some(Funded) => AloneUnfolds(self, chain, db, Repair(id, seen, Havuzda, expiresAt), now);
    case Some(Claimed) => AloneUnfolds(self, chain, db, Repair(id, seen, TalepEdildi, expiresAt), now);
    case _ =>
  }

  /** `chequeStateMatchesChain`: the contract's coarse state against the mirror's finer one. */
  predicate MatchesChain(local: State, record: Option<ChequeState>)
  {
    match record
    case None => local == Taslak || local == ImzaliRezerve
    case Some(Funded) => local == Havuzda || local == Fonlaniyor || local == ZorlaTahsilDenendi
    case Some(Claimed) => local == TalepEdildi || local == Onaylandi || local == Kapandi
    case Some(Refunded) => local == IadeEdilebilir || local == IadeEdildi
    case Some(Collected) => local == Kapandi || local == ZorlaTahsilDenendi
    case Some(Bounced) => local == Karsiliksiz
  }

  function ChainState(chain: World, id: ChequeId): Option<ChequeState>
  {
    if id in chain.cheques then Some(chain.cheques[id].state) else None
  }

  /** The answer `/sync` gives for one cheque: nothing for a terminal one or an unreadable chain. */
  function Verdict(chain: World, readable: bool, id: ChequeId, local: State): Option<bool>
  {
    if local.IsTerminal() || !readable then None else Some(MatchesChain(local, ChainState(chain, id)))
  }

  class ChequeService {
    const repo: Repository
    const escrow: Address

    constructor (repo: Repository, escrow: Address)
      ensures this.repo == repo && this.escrow == escrow
    {
      this.repo := repo;
      this.escrow := escrow;
    }

    method ServeConfirmLock(ghost chain: World, ghost now: Weather, id: ChequeId, caller: Address) returns (reply: Reply)
      modifies repo
      ensures Turn(repo.Snapshot(), Done(id, reply)) == Alone(escrow, chain, old(repo.Snapshot()), ConfirmLock(id, caller), now)
    {
      var c := repo.GetCheque(id);
      if c.None? || c.value.sender != caller { return NotFoundReply; }
      AloneUnfolds(escrow, chain, repo.Snapshot(), MarkLocked(id), now);
      var _ := repo.Transition(id, ImzaliRezerve, Havuzda);
      return Granted;
    }

    method ServeClaimXdr(chain: World, now: Weather, id: ChequeId, receiver: Address) returns (reply: Reply)
      modifies repo
      ensures Turn(repo.Snapshot(), Done(id, reply)) == Alone(escrow, chain, old(repo.Snapshot()), ClaimXdr(id, receiver), now)
    {
      var c := repo.GetCheque(id);
      if c.None? { return NotFoundReply; }
      if c.value.receiver != receiver { return InvalidReceiver; }
      if !now.up { return ChainUnavailable; }
      if c.value.state != Havuzda {
        match c.value.state {
          case ImzaliRezerve | Fonlaniyor =>
            AskChainAlone(escrow, chain, repo.Snapshot(), id, c.value.state, c.value.expiresAt, now);
            match ChainState(chain, id) {
              case Some(Funded) =>
                var _ := repo.Transition(id, c.value.state, Havuzda);
              case Some(Claimed) =>
                var _ := repo.Transition(id, c.value.state, TalepEdildi);
                return AlreadyClaimed;
              case _ =>
                return NotFunded;
            }
          case _ =>
            return TerminalState;
        }
      }
      BuildClaimAlone(escrow, chain, repo.Snapshot(), id, c.value.expiresAt, now);
      if Overdue(now, c.value.expiresAt) { return Expired; }
      if !ClaimSimulates(escrow, chain, id) { return SimulationFailed; }
      return Granted;
    }

    method ServeConfirmClaim(ghost chain: World, ghost now: Weather, id: ChequeId, caller: Address) returns (reply: Reply)
      modifies repo
      ensures Turn(repo.Snapshot(), Done(id, reply)) == Alone(escrow, chain, old(repo.Snapshot()), ConfirmClaim(id, caller), now)
    {
      var c := repo.GetCheque(id);
      if c.None? || c.value.receiver != caller { return NotFoundReply; }
      AloneUnfolds(escrow, chain, repo.Snapshot(), MarkClaimed(id), now);
      var _ := repo.Transition(id, Havuzda, TalepEdildi);
      return Granted;
    }

    method ServeAcknowledge(ghost chain: World, ghost now: Weather, id: ChequeId, caller: Address) returns (reply: Reply)
      modifies repo
      ensures Turn(repo.Snapshot(), Done(id, reply)) == Alone(escrow, chain, old(repo.Snapshot()), Acknowledge(id, caller), now)
    {
      var c := repo.GetCheque(id);
      if c.None? || c.value.receiver != caller { return NotFoundReply; }
      ApprovedAlone(escrow, chain, repo.Snapshot(), id, now);
      var _ := repo.Transition(id, TalepEdildi, Onaylandi);
      var _ := repo.Transition(id, Onaylandi, Kapandi);
      return Granted;
    }

    method ServeForceCollectXdr(chain: World, now: Weather, id: ChequeId, receiver: Address) returns (reply: Reply)
      modifies repo
      ensures Turn(repo.Snapshot(), Done(id, reply)) == Alone(escrow, chain, old(repo.Snapshot()), ForceCollectXdr(id, receiver), now)
    {
      var c := repo.GetCheque(id);
      if c.None? { return NotFoundReply; }
      if c.value.receiver != receiver { return InvalidReceiver; }
      if c.value.state != ImzaliRezerve && c.value.state != Fonlaniyor { return TerminalState; }
      ForcedAlone(escrow, chain, repo.Snapshot(), id, c.value, now);
      if !now.up { return ChainUnavailable; }
      if !ForceSimulates(escrow, chain, id, c.value) { return SimulationFailed; }
      var _ := repo.Transition(id, c.value.state, ZorlaTahsilDenendi);
      return Granted;
    }

    method ServeConfirmForceCollect(ghost chain: World, ghost now: Weather, id: ChequeId, caller: Address, collected: bool)
      returns (reply: Reply)
      modifies repo
      ensures Turn(repo.Snapshot(), Done(id, reply))
           == Alone(escrow, chain, old(repo.Snapshot()), ConfirmForceCollect(id, caller, collected), now)
    {
      var c := repo.GetCheque(id);
      if c.None? || c.value.receiver != caller { return NotFoundReply; }
      var to := Karsiliksiz;
      if collected { to := Kapandi; }
      AloneUnfolds(escrow, chain, repo.Snapshot(), MarkForceOutcome(id, collected), now);
      var _ := repo.Transition(id, ZorlaTahsilDenendi, to);
      return Granted;
    }

    method ServeMarkRefunded(ghost chain: World, ghost now: Weather, id: ChequeId) returns (reply: Reply)
      modifies repo
      ensures Turn(repo.Snapshot(), Done(id, reply)) == Alone(escrow, chain, old(repo.Snapshot()), MarkRefundable(id), now)
    {
      var _ := repo.Transition(id, Havuzda, IadeEdilebilir);
      AloneUnfolds(escrow, chain, repo.Snapshot(), MarkRefunded(id), now);
      var _ := repo.Transition(id, IadeEdilebilir, IadeEdildi);
      return Granted;
    }

    /** The verification loop of `/sync` over the listed cheques. */
    method VerifyListed(chain: World, ids: seq<ChequeId>, states: seq<State>, readable: seq<bool>)
      returns (verified: seq<Option<bool>>)
      requires |ids| == |states| == |readable|
      ensures |verified| == |ids|
      ensures forall i :: 0 <= i < |ids| ==> verified[i] == Verdict(chain, readable[i], ids[i], states[i])
    {
      verified := seq(|ids|, _ => None);
      for i := 0 to |ids|
        invariant |verified| == |ids|
        invariant forall j :: 0 <= j < i ==> verified[j] == Verdict(chain, readable[j], ids[j], states[j])
        invariant forall j :: i <= j < |ids| ==> verified[j] == None
      {
        if states[i].IsTerminal() { continue; }
        if readable[i] {
          verified := verified[i := Some(MatchesChain(states[i], ChainState(chain, ids[i])))];
        }
      }
    }
  }
}
