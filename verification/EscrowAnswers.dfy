/** What each contract call answers, exactly, and whose tokens a call can take. */
module EscrowAnswers {
  import opened Escrow
  import opened EscrowSolvency

  // ---- Only signers pay ----------------------------------------------------

  /** No call lowers a balance whose holder has not authorised it, the contract's own apart. */
  lemma OnlySignersPay(self: Address, w: World, auths: set<Address>, call: Call, token: Address, who: Address)
    requires who != self && who !in auths
    ensures BalanceOf(Execute(self, w, auths, call).world.balances, token, who) >= BalanceOf(w.balances, token, who)
  {
    if Execute(self, w, auths, call).outcome.Succeeded() {
      match call
      case Lock(sender, _, _, held, amount, _) => BalanceAfterMove(w.balances, held, sender, self, amount, token, who);
      case Claim(id) =>
        BalanceAfterMove(w.balances, w.cheques[id].token, self, w.cheques[id].receiver, w.cheques[id].amount, token, who);
      case Refund(id) =>
        BalanceAfterMove(w.balances, w.cheques[id].token, self, w.cheques[id].sender, w.cheques[id].amount, token, who);
      case ForceCollect(sender, _, receiver, held, amount, _) =>
        BalanceAfterMove(w.balances, held, sender, receiver, amount, token, who);
      case Deposit(owner, held, amount) => BalanceAfterMove(w.balances, held, owner, self, amount, token, who);
      case Withdraw(owner, amount) =>
        BalanceAfterMove(w.balances, w.pools[owner].token, self, owner, amount, token, who);
    }
  }

  /** What the calls of a run that `who` did not sign have added to `who`'s balance, each on its own. */
  function Unsigned(self: Address, w: World, es: seq<Event>, token: Address, who: Address): seq<int>
  {
    if es == [] then []
    else
      var before, e := Run(self, w, es[..|es| - 1]), es[|es| - 1];
      Unsigned(self, w, es[..|es| - 1], token, who)
      + if e.Invoke? && who !in e.auths
        then [BalanceOf(Step(self, before, e).balances, token, who) - BalanceOf(before.balances, token, who)] else []
  }

  /** Over any run no call has ever taken from a holder who did not sign it. */
  lemma {:induction false} NobodyPaysUnsigned(self: Address, w: World, es: seq<Event>, token: Address, who: Address)
    requires who != self
    ensures forall i :: 0 <= i < |Unsigned(self, w, es, token, who)| ==> Unsigned(self, w, es, token, who)[i] >= 0
  {
    if es != [] {
      var before, e := Run(self, w, es[..|es| - 1]), es[|es| - 1];
      NobodyPaysUnsigned(self, w, es[..|es| - 1], token, who);
      if e.Invoke? && who !in e.auths {
        OnlySignersPay(self, before, e.auths, e.call, token, who);
      }
    }
  }

  // ---- Cheque calls --------------------------------------------------------

  lemma LockAnswers(self: Address, w: World, auths: set<Address>, call: Call)
    requires call.Lock?
    ensures var out := Execute(self, w, auths, call).outcome;
            var signed := call.sender in auths;
            var fit := signed && call.amount > 0 && call.sender != call.receiver && call.id !in w.cheques;
            var held := BalanceOf(w.balances, call.token, call.sender);
            && (out == Ok <==> fit && held >= call.amount)
            && (out == Trap <==> !signed || (fit && held < call.amount))
            && (out == Err(InvalidAmount) <==> signed && call.amount <= 0)
            && (out == Err(SelfTransfer) <==> signed && call.amount > 0 && call.sender == call.receiver)
            && (out == Err(ChequeAlreadyUsed)
                <==> signed && call.amount > 0 && call.sender != call.receiver && call.id in w.cheques)
  {
  }

  lemma ClaimAnswers(self: Address, w: World, auths: set<Address>, id: ChequeId)
    requires Sound(self, w)
    ensures var out := ClaimStep(self, w, auths, id).outcome;
            var funded := id in w.cheques && w.cheques[id].state == Funded;
            var signed := funded && w.cheques[id].receiver in auths;
            && (out == Ok <==> signed && w.now < w.cheques[id].expiresAt)
            && (out == Err(ChequeExpired) <==> signed && w.now >= w.cheques[id].expiresAt)
            && (out == Trap <==> funded && !signed)
            && (out == Err(ChequeNotFunded) <==> id in w.cheques && !funded)
            && (out == Err(ChequeNotFound) <==> id !in w.cheques)
  {
    CustodyCovers(self, w);
  }

  lemma RefundAnswers(self: Address, w: World, id: ChequeId)
    requires Sound(self, w)
    ensures var out := RefundStep(self, w, id).outcome;
            var funded := id in w.cheques && w.cheques[id].state == Funded;
            && (out == Ok <==> funded && w.now >= w.cheques[id].expiresAt)
            && (out == Err(ChequeNotExpired) <==> funded && w.now < w.cheques[id].expiresAt)
            && (out == Err(ChequeNotFunded) <==> id in w.cheques && !funded)
            && (out == Err(ChequeNotFound) <==> id !in w.cheques)
  {
    CustodyCovers(self, w);
  }

  lemma ForceCollectRefusals(self: Address, w: World, auths: set<Address>, call: Call)
    requires call.ForceCollect?
    ensures var out := Execute(self, w, auths, call).outcome;
            var signed := call.sender in auths;
            var unused := signed && call.id !in w.cheques;
            var inTime := call.expiresAt - 24 * 60 * 60 <= w.now < call.expiresAt;
            && (out == Trap <==> !signed)
            && (out == Err(AlreadyFunded) <==> signed && !unused && w.cheques[call.id].state == Funded)
            && (out == Err(AlreadyTerminal) <==> signed && !unused && w.cheques[call.id].state != Funded)
            && (out == Err(ForceCollectTooLate) <==> unused && w.now >= call.expiresAt)
            && (out == Err(ForceCollectTooEarly) <==> unused && w.now < call.expiresAt - 24 * 60 * 60)
            && (out == Err(InvalidAmount) <==> unused && inTime && call.amount <= 0)
  {
  }

  // ---- Pool calls ----------------------------------------------------------

  /** A pool that holds something takes its own token only; a deposit is stamped with its time. */
  lemma DepositAnswers(self: Address, w: World, auths: set<Address>, owner: Address, token: Address, amount: I128)
    requires Sound(self, w) && self !in auths
    ensures var effect := DepositStep(self, w, auths, owner, token, amount);
            var out := effect.outcome;
            var held := if owner in w.pools then w.pools[owner].amount else 0;
            var signed := owner in auths;
            var mixed := held > 0 && w.pools[owner].token != token;
            && (out == Err(InvalidAmount) <==> signed && amount <= 0)
            && (out == Err(MixedAsset) <==> signed && amount > 0 && mixed)
            && (out == Ok ==>
                  && effect.world.pools == w.pools[owner := PoolRecord(token, held + amount, w.now)]
                  && effect.world.cheques == w.cheques
                  && forall t, who :: BalanceOf(effect.world.balances, t, who)
                       == BalanceOf(w.balances, t, who) + Delta(token, owner, self, amount, t, who))
  {
    if DepositStep(self, w, auths, owner, token, amount).outcome == Ok {
      forall t, who
        ensures BalanceOf(DepositStep(self, w, auths, owner, token, amount).world.balances, t, who)
             == BalanceOf(w.balances, t, who) + Delta(token, owner, self, amount, t, who)
      {
        BalanceAfterMove(w.balances, token, owner, self, amount, t, who);
      }
    }
  }

  /** In any contract whatever, a deposit the checked addition cannot hold is rolled back whole. */
  lemma DepositTraps(self: Address, w: World, auths: set<Address>, owner: Address, token: Address, amount: I128)
    ensures var effect := DepositStep(self, w, auths, owner, token, amount);
            var held := if owner in w.pools then w.pools[owner].amount else 0;
            var mixed := held > 0 && w.pools[owner].token != token;
            && (effect.outcome == Trap
                <==> owner !in auths
                     || (amount > 0 && !mixed && (BalanceOf(w.balances, token, owner) < amount
                                                  || held + amount > 0x7FFF_FFFF_FFFF_FFFF_FFFF_FFFF_FFFF_FFFF)))
            && (effect.outcome == Trap ==> effect.world == w)
  {
  }

  lemma WithdrawAnswers(self: Address, w: World, auths: set<Address>, owner: Address, amount: I128)
    requires Sound(self, w)
    ensures var effect := WithdrawStep(self, w, auths, owner, amount);
            var out := effect.outcome;
            var held := if owner in w.pools then w.pools[owner].amount else 0;
            var signed := owner in auths;
            && (out == Ok <==> signed && 0 < amount <= held)
            && (out == Trap <==> !signed)
            && (out == Err(InvalidAmount) <==> signed && amount <= 0)
            && (out == Err(InsufficientPoolBalance) <==> signed && amount > 0 && amount > held)
            && (out == Ok ==>
                  && effect.world.cheques == w.cheques
                  && effect.world.pools == w.pools[owner := PoolRecord(w.pools[owner].token, held - amount, w.pools[owner].lastDepositAt)])
  {
    CustodyCovers(self, w);
  }

  // ---- Custody -------------------------------------------------------------

  /** In any contract whatever, nothing is paid out that custody does not hold: the call is rolled back whole. */
  lemma ShortCustodyTraps(self: Address, w: World, auths: set<Address>, id: ChequeId, owner: Address, amount: I128)
    ensures id in w.cheques && BalanceOf(w.balances, w.cheques[id].token, self) < w.cheques[id].amount ==>
              && !ClaimStep(self, w, auths, id).outcome.Succeeded() && ClaimStep(self, w, auths, id).world == w
              && !RefundStep(self, w, id).outcome.Succeeded() && RefundStep(self, w, id).world == w
    ensures owner in w.pools && BalanceOf(w.balances, w.pools[owner].token, self) < amount ==>
              && !WithdrawStep(self, w, auths, owner, amount).outcome.Succeeded()
              && WithdrawStep(self, w, auths, owner, amount).world == w
  {
  }
}
