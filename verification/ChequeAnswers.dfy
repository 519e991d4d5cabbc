/** What each request of the cheque service answers, exactly, and when a new cheque is accepted. */
module ChequeAnswers {
  import opened Options
  import opened Escrow
  import opened EscrowSolvency
  import opened EscrowSettlement
  import opened EscrowAnswers
  import opened ChequeStore
  import opened ChequeService
  import opened ChequeMirror

  // ---- Writing a cheque ----------------------------------------------------

  predicate OpenFor(db: Db, id: ChequeId, sender: Address)
  {
    id in db.cheques && db.cheques[id].sender == sender && !db.cheques[id].state.IsTerminal()
  }

  predicate Answers(db: Db, id: ChequeId, receiver: Address, requestId: string)
  {
    id in db.cheques && db.cheques[id].receiver == receiver && db.cheques[id].requestId == requestId
  }

  /** An active reservation of an account is an open cheque of it. */
  lemma ActiveIsOpen(db: Db, account: Address)
    requires Reserved(db)
    ensures HasActive(db.reservations, account) <==> exists id :: OpenFor(db, id, account)
  {
    if HasActive(db.reservations, account) {
      var id :| id in db.reservations && db.reservations[id].active && db.reservations[id].account == account;
      assert OpenFor(db, id, account);
    }
    if id :| OpenFor(db, id, account) {
      OpenIsActive(db, id);
    }
  }

  lemma TakenIsAnswered(db: Db, receiver: Address, requestId: string)
    ensures RequestTaken(db.cheques, receiver, requestId) <==> requestId != "" && exists id :: Answers(db, id, receiver, requestId)
  {
    if requestId != "" {
      if id :| Answers(db, id, receiver, requestId) {
        assert id in db.cheques && db.cheques[id].receiver == receiver;
      }
      if RequestTaken(db.cheques, receiver, requestId) {
        var id :| id in db.cheques && db.cheques[id].receiver == receiver && db.cheques[id].requestId == requestId;
        assert Answers(db, id, receiver, requestId);
      }
    }
  }

  lemma NewIdIsUnlogged(db: Db, id: ChequeId)
    requires Logged(db) && id !in db.cheques
    ensures Entry(id, Taslak, ImzaliRezerve) !in db.log
  {
    EntryIsLogged(db.log, Entry(id, Taslak, ImzaliRezerve));
  }

  /**
   * In terms of rows alone: a cheque is written exactly when its terms are valid and its id
   * new, its request unanswered, and every cheque of its sender terminal; otherwise the first
   * of these that fails names the refusal, and nothing is written.
   */
  lemma CreateAnswers(db: Db, id: ChequeId, c: Cheque)
    requires Consistent(db)
    ensures var commit := CreateStep(db, id, c);
            var valid := c.amount > 0 && c.sender != c.receiver && id !in db.cheques;
            var answered := c.requestId != "" && exists other :: Answers(db, other, c.receiver, c.requestId);
            var busy := exists other :: OpenFor(db, other, c.sender);
            && (commit.fault == None <==> valid && !answered && !busy)
            && (commit.fault == Some(ConstraintViolated) <==> !valid)
            && (commit.fault == Some(RequestUsed) <==> valid && answered)
            && (commit.fault == Some(AlreadyActive) <==> valid && !answered && busy)
            && (commit.fault != None ==> commit.db == db)
            && (commit.fault == None ==>
                  && commit.db.cheques == db.cheques[id := c]
                  && commit.db.reservations == db.reservations[id := Reservation(c.sender, true)]
                  && commit.db.log == db.log + [Entry(id, Taslak, ImzaliRezerve)]
                  && commit.db.pools == db.pools)
  {
    ActiveIsOpen(db, c.sender);
    TakenIsAnswered(db, c.receiver, c.requestId);
    if id !in db.cheques {
      NewIdIsUnlogged(db, id);
    }
  }

  // ---- Who may ask ---------------------------------------------------------

  /** A party's request about an unknown cheque, or somebody else's cheque, changes nothing and is refused. */
  lemma StrangersGetNothing(self: Address, chain: World, db: Db, t: Task, now: Weather)
    requires t.ConfirmLock? ==> t.id in db.cheques ==> db.cheques[t.id].sender != t.caller
    requires t.ConfirmClaim? || t.Acknowledge? || t.ConfirmForceCollect? ==> t.id in db.cheques ==> db.cheques[t.id].receiver != t.caller
    requires t.ClaimXdr? || t.ForceCollectXdr? ==> t.id in db.cheques ==> db.cheques[t.id].receiver != t.receiver
    requires IsRequest(t) && !t.SweepExpired?
    ensures Alone(self, chain, db, t, now)
         == Turn(db, Done(t.id, if t.id in db.cheques && (t.ClaimXdr? || t.ForceCollectXdr?) then InvalidReceiver else NotFoundReply))
  {
    AloneUnfolds(self, chain, db, t, now);
  }

  /** A party's confirm is always answered as granted, and moves the row if it is where the confirm starts from. */
  lemma ConfirmAnswers(self: Address, chain: World, db: Db, t: Task, now: Weather)
    requires Logged(db) && t.id in db.cheques
    requires t.ConfirmLock? || t.ConfirmClaim? || t.ConfirmForceCollect?
    requires t.caller == if t.ConfirmLock? then db.cheques[t.id].sender else db.cheques[t.id].receiver
    ensures var turn := Alone(self, chain, db, t, now);
            var row := db.cheques[t.id];
            var from := if t.ConfirmLock? then ImzaliRezerve else if t.ConfirmClaim? then Havuzda else ZorlaTahsilDenendi;
            var to := if t.ConfirmLock? then Havuzda else if t.ConfirmClaim? then TalepEdildi
                      else if t.collected then Kapandi else Karsiliksiz;
            && turn.task == Done(t.id, Granted)
            && turn.db == if row.state == from then Shifted(db, t.id, from, to) else db
  {
    var next := TaskStep(self, chain, db, t, now).task;
    AloneUnfolds(self, chain, db, t, now);
    AloneUnfolds(self, chain, db, next, now);
    UniqueNeverRefuses(db, t.id, MoveOf(next).value.0, MoveOf(next).value.1);
  }

  // ---- Claims --------------------------------------------------------------

  /** The ordinary claim: a confirmed cheque's receiver gets the transaction exactly while the claim can succeed. */
  lemma ConfirmedClaimAnswers(self: Address, chain: World, db: Db, id: ChequeId, receiver: Address, now: Weather)
    requires Sound(self, chain) && now.up
    requires id in db.cheques && db.cheques[id].receiver == receiver && db.cheques[id].state == Havuzda
    ensures var turn := Alone(self, chain, db, ClaimXdr(id, receiver), now);
            var late := now.clock > db.cheques[id].expiresAt * 1_000;
            var open := id in chain.cheques && chain.cheques[id].state == Funded && chain.now < chain.cheques[id].expiresAt;
            && turn.db == db
            && (turn.task.reply == Granted <==> !late && open)
            && (turn.task.reply == Expired <==> late)
            && (turn.task.reply == SimulationFailed <==> !late && !open)
  {
    AloneUnfolds(self, chain, db, ClaimXdr(id, receiver), now);
    BuildClaimAlone(self, chain, db, id, db.cheques[id].expiresAt, now);
    if id in chain.cheques {
      ClaimAnswers(self, chain, {chain.cheques[id].receiver}, id);
    }
  }

  /** Every other row: no claim, and nothing changes, unless the row waits for its lock. */
  lemma OtherClaimAnswers(self: Address, chain: World, db: Db, id: ChequeId, receiver: Address, now: Weather)
    requires id in db.cheques && db.cheques[id].receiver == receiver
    requires !now.up || db.cheques[id].state !in {Havuzda, ImzaliRezerve, Fonlaniyor}
    ensures Alone(self, chain, db, ClaimXdr(id, receiver), now)
         == Turn(db, Done(id, if now.up then TerminalState else ChainUnavailable))
  {
    AloneUnfolds(self, chain, db, ClaimXdr(id, receiver), now);
  }

  /** The chain going away half-way through a claim request ends it without an answer and without a change. */
  lemma ClaimLosesChain(self: Address, chain: World, db: Db, t: Task, now: Weather)
    requires !now.up && (t.AskChain? || (t.BuildClaim? && !Overdue(now, t.expiresAt)))
    ensures TaskStep(self, chain, db, t, now)
         == Turn(db, Done(t.id, if t.AskChain? then TerminalState else ChainUnavailable))
  {
  }

  // ---- Force collects ------------------------------------------------------

  /** The contract would settle the call on the row's terms. */
  predicate Settles(self: Address, chain: World, id: ChequeId, row: Cheque)
  {
    var expiry := row.expiresAt / 1_000_000;
    && row.sender != self && ScVal.Wrapped(row.amount) > 0 && id !in chain.cheques
    && expiry - 24 * 60 * 60 <= chain.now < expiry
  }

  lemma SimulatesExactly(self: Address, chain: World, id: ChequeId, row: Cheque)
    ensures ForceSimulates(self, chain, id, row) <==> Settles(self, chain, id, row)
  {
    ForceCollectSettlesInLastDay(self, chain, {row.sender} - {self}, ForceCall(id, row));
  }

  /**
   * The receiver of a cheque that waits for its lock gets the force collect, and the row its
   * mark, exactly when the contract would settle the call: the sender can sign, the amount
   * counts, the id is unused, and the last day before expiry has begun.
   */
  lemma ForceCollectAnswers(self: Address, chain: World, db: Db, id: ChequeId, receiver: Address, now: Weather)
    requires Logged(db) && id in db.cheques && db.cheques[id].receiver == receiver
    ensures var turn := Alone(self, chain, db, ForceCollectXdr(id, receiver), now);
            var row := db.cheques[id];
            var waits := row.state == ImzaliRezerve || row.state == Fonlaniyor;
            turn == if !waits then Turn(db, Done(id, TerminalState))
                    else if !now.up then Turn(db, Done(id, ChainUnavailable))
                    else if !Settles(self, chain, id, row) then Turn(db, Done(id, SimulationFailed))
                    else Turn(Shifted(db, id, row.state, ZorlaTahsilDenendi), Done(id, Granted))
  {
    var row := db.cheques[id];
    AloneUnfolds(self, chain, db, ForceCollectXdr(id, receiver), now);
    ForcedAlone(self, chain, db, id, row, now);
    SimulatesExactly(self, chain, id, row);
    MoveCommits(db, id, row.state, ZorlaTahsilDenendi);
  }

  // ---- The sweep -----------------------------------------------------------

  /** The sweep goes on to a refund exactly for funded rows that are overdue, and to its record exactly if it succeeded. */
  lemma SweepAnswers(self: Address, chain: World, db: Db, id: ChequeId, now: Weather)
    requires Sound(self, chain)
    ensures var listed := TaskStep(self, chain, db, SweepExpired(id), now);
            var due := id in db.cheques && db.cheques[id].state == Havuzda && now.clock >= db.cheques[id].expiresAt * 1_000;
            listed == Turn(db, if due then SubmitRefund(id) else Done(id, NotDue))
    ensures var refunded := TaskStep(self, chain, db, SubmitRefund(id), now);
            var owed := id in chain.cheques && chain.cheques[id].state == Funded && chain.now >= chain.cheques[id].expiresAt;
            refunded == Turn(db, if now.up && owed then MarkRefundable(id)
                                 else Done(id, if now.up then SimulationFailed else ChainUnavailable))
  {
    RefundAnswers(self, chain, id);
  }

  // ---- What /sync says -----------------------------------------------------

  /** For each mirror state, exactly the chain records that `/sync` calls a match. */
  lemma SyncAnswers(chain: World, id: ChequeId, local: State)
    ensures var record := ChainState(chain, id);
            Verdict(chain, true, id, local) ==
              match local
              case Taslak | ImzaliRezerve => Some(record == None)
              case Fonlaniyor | Havuzda => Some(record == Some(Funded))
              case TalepEdildi | Onaylandi => Some(record == Some(Claimed))
              case IadeEdilebilir => Some(record == Some(Refunded))
              case ZorlaTahsilDenendi => Some(record == Some(Funded) || record == Some(Collected))
              case Kapandi | IadeEdildi | Hukumsuz | Karsiliksiz => None
    ensures Verdict(chain, false, id, local) == None
  {
  }

  /**
   * A mismatch reported for an open row of a mirror that is behind the chain is always the
   * mirror lagging: the row is in its first three states and the chain has gone further.
   */
  lemma MismatchIsLag(chain: World, id: ChequeId, local: State)
    requires !local.IsTerminal() && Behind(local, ChainState(chain, id))
    ensures Verdict(chain, true, id, local) == Some(false)
       <==> || (local == ImzaliRezerve && ChainState(chain, id) != None)
            || (local == Havuzda && ChainState(chain, id) != Some(Funded))
            || (local == ZorlaTahsilDenendi && ChainState(chain, id) !in {Some(Funded), Some(Collected)})
  {
  }
}
