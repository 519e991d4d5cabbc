/** The mirror compares chain states and never terms: when a funded row's terms are the chain's. */
module ChequeTerms {
  import opened Options
  import opened Escrow
  import opened EscrowSolvency
  import opened EscrowSettlement
  import opened ChequeStore
  import opened ChequeService
  import opened ChequeMirror
  import opened ChequeGuarantees
  import opened ChequeDeaths

  /** The record holds the money the row speaks of. */
  predicate SameTerms(row: Cheque, record: ChequeRecord)
  {
    && record.sender == row.sender && record.receiver == row.receiver && record.token == row.token
    && record.amount == row.amount && record.expiresAt == row.expiresAt / MICROS_PER_SECOND
  }

  predicate Fits(amount: int)
  {
    -I128_MAX - 1 <= amount <= I128_MAX
  }

  /** A record written by the lock built for a row has the row's terms exactly when the amount fits its type. */
  lemma BuiltLockHasTerms(id: ChequeId, row: Cheque, state: ChequeState)
    ensures SameTerms(row, Terms(LockCall(id, row), state)) <==> Fits(row.amount)
  {
    ScVal.EncodeThenDecode(row.amount);
  }

  /**
   * A row in the pool stands for the money it names if and only if the first call that
   * succeeded for its id on chain was the very lock built for the row, and the amount fits
   * the contract's type.
   */
  lemma FundedOnOwnTerms(self: Address, start: Sys, hs: seq<Happening>, id: ChequeId) returns (es: seq<Event>)
    requires Fresh(start) && AllowedPlay(self, start, hs)
    requires id in Play(self, start, hs).db.cheques && Play(self, start, hs).db.cheques[id].state == Havuzda
    ensures var s := Play(self, start, hs);
            var calls := Successes(self, start.chain, es, id);
            && AdmissibleRun(self, start.chain, es) && Run(self, start.chain, es) == s.chain
            && calls != [] && calls[0].Lock? && id in s.chain.cheques
            && (SameTerms(s.db.cheques[id], s.chain.cheques[id])
                <==> calls[0] == LockCall(id, s.db.cheques[id]) && Fits(s.db.cheques[id].amount))
  {
    MirrorNeverAhead(self, Play(self, start, hs), id);
    es := ChainPlays(self, start, hs);
    EvidenceIsHistory(self, start.chain, es, id);
    SettledExactlyOnce(self, start.chain, es, id);
    ScVal.EncodeThenDecode(Play(self, start, hs).db.cheques[id].amount);
  }

  /** If the id is locked at all, then by the lock built for the row. */
  predicate LocksOnOwnTerms(id: ChequeId, row: Cheque, h: Happening)
  {
    h.OnChain? && h.e.Invoke? && h.e.call.Lock? && h.e.call.id == id ==> h.e.call == LockCall(id, row)
  }

  lemma {:induction false} FundedRecordIsBuilt(self: Address, start: Sys, hs: seq<Happening>, id: ChequeId, row: Cheque)
    requires Fresh(start) && forall j :: 0 <= j < |hs| ==> LocksOnOwnTerms(id, row, hs[j])
    ensures var chain := Play(self, start, hs).chain;
            Funding(ChainState(chain, id)) ==> chain.cheques[id] == Terms(LockCall(id, row), chain.cheques[id].state)
  {
    if hs != [] {
      var before, h := Play(self, start, hs[..|hs| - 1]), hs[|hs| - 1];
      FundedRecordIsBuilt(self, start, hs[..|hs| - 1], id, row);
      assert LocksOnOwnTerms(id, row, h);
      if EventOf(before, h).Some? {
        EventKeepsBuilt(self, before.chain, EventOf(before, h).value, id, row);
      }
    }
  }

  lemma EventKeepsBuilt(self: Address, w: World, e: Event, id: ChequeId, row: Cheque)
    requires LocksOnOwnTerms(id, row, OnChain(e))
    requires Funding(ChainState(w, id)) ==> w.cheques[id] == Terms(LockCall(id, row), w.cheques[id].state)
    ensures var later := Step(self, w, e);
            Funding(ChainState(later, id)) ==> later.cheques[id] == Terms(LockCall(id, row), later.cheques[id].state)
  {
    if !Acts(self, w, e, id) {
      OthersLeaveRecord(self, w, e, id);
    }
  }

  /**
   * So where every lock of the id anybody sends is the one built for the row, the row in the
   * pool has the chain's terms, if and only if its amount fits the contract's type.
   */
  lemma OwnLocksFund(self: Address, start: Sys, hs: seq<Happening>, id: ChequeId)
    requires Fresh(start) && AllowedPlay(self, start, hs)
    requires id in Play(self, start, hs).db.cheques && Play(self, start, hs).db.cheques[id].state == Havuzda
    requires forall j :: 0 <= j < |hs| ==> LocksOnOwnTerms(id, Play(self, start, hs).db.cheques[id], hs[j])
    ensures var s := Play(self, start, hs);
            && id in s.chain.cheques
            && (SameTerms(s.db.cheques[id], s.chain.cheques[id]) <==> Fits(s.db.cheques[id].amount))
  {
    var s := Play(self, start, hs);
    MirrorNeverAhead(self, s, id);
    FundedRecordIsBuilt(self, start, hs, id, s.db.cheques[id]);
    BuiltLockHasTerms(id, s.db.cheques[id], s.chain.cheques[id].state);
  }

  // ---- Nothing makes it so ------------------------------------------------

  /** A lock under the same id for another receiver, once confirmed, is believed. */
  lemma OtherTermsAreBelieved(self: Address, sender: Address, receiver: Address, other: Address, token: Address)
    returns (s: Sys)
    requires sender != self && sender != receiver && sender != other && receiver != other
    ensures Reachable(self, s) && 1 in s.db.cheques && 1 in s.chain.cheques
    ensures s.db.cheques[1].state == Havuzda && s.chain.cheques[1].state == Funded
    ensures !SameTerms(s.db.cheques[1], s.chain.cheques[1])
  {
    s := Confirms(self, sender, receiver, other, token);
  }

  lemma ReadsForClaim(self: Address, s: Sys, receiver: Address) returns (t: Sys)
    requires Reachable(self, s) && s.tasks == [] && ChainState(s.chain, 1) == Some(Funded)
    requires 1 in s.db.cheques && s.db.cheques[1].receiver == receiver && s.db.cheques[1].state == ImzaliRezerve
    ensures Reachable(self, t) && t.chain == s.chain && t.db == s.db
    ensures t.tasks == [Repair(1, ImzaliRezerve, Havuzda, s.db.cheques[1].expiresAt)]
  {
    var now := Weather(true, 0);
    var asked := ReachArrival(self, s, ClaimXdr(1, receiver));
    var read := ReachQuietTurn(self, asked, now);
    assert read.tasks == [AskChain(1, ImzaliRezerve, s.db.cheques[1].expiresAt)] && read.db == s.db;
    t := ReachQuietTurn(self, read, now);
  }

  /** So it is when the row's receiver asks for a claim and the row is repaired from the chain. */
  lemma OtherTermsAreRepaired(self: Address, sender: Address, receiver: Address, other: Address, token: Address)
    returns (s: Sys)
    requires sender != self && sender != receiver && sender != other && receiver != other
    ensures Reachable(self, s) && 1 in s.db.cheques && 1 in s.chain.cheques
    ensures s.db.cheques[1].state == Havuzda && s.chain.cheques[1].state == Funded
    ensures !SameTerms(s.db.cheques[1], s.chain.cheques[1])
  {
    var locked := Locks(self, sender, receiver, other, token);
    var read := ReadsForClaim(self, locked, receiver);
    s := ReachMove(self, read, Weather(true, 0));
  }
}
