/** Pool accounting over whole runs: a pool is what its owner paid in and has not taken out. */
module EscrowPools {
  import opened Escrow
  import opened EscrowSolvency

  /** What one event's successful deposit or withdrawal adds to `owner`'s stake in `token`. */
  function Staked(self: Address, w: World, e: Event, owner: Address, token: Address): int
  {
    if !e.Invoke? || !Execute(self, w, e.auths, e.call).outcome.Succeeded() then 0
    else
      match e.call
      case Deposit(o, t, amount) => if o == owner && t == token then amount else 0
      case Withdraw(o, amount) => if o == owner && o in w.pools && w.pools[o].token == token then -amount else 0
      case _ => 0
  }

  /** Deposits minus withdrawals of `token` by `owner` over a run. */
  function NetStake(self: Address, w: World, es: seq<Event>, owner: Address, token: Address): int
  {
    if es == [] then 0
    else
      NetStake(self, w, es[..|es| - 1], owner, token)
      + Staked(self, Run(self, w, es[..|es| - 1]), es[|es| - 1], owner, token)
  }

  function PoolHolding(w: World, owner: Address, token: Address): int
  {
    if owner in w.pools then PooledIn(w.pools[owner], token) else 0
  }

  predicate MovesPool(e: Event, owner: Address)
  {
    e.Invoke? && owner in e.auths
    && ((e.call.Deposit? && e.call.owner == owner) || (e.call.Withdraw? && e.call.owner == owner))
  }

  /** Nothing but the owner's own authorised deposits and withdrawals touches a pool. */
  lemma OnlyOwnerMovesPool(self: Address, w: World, e: Event, owner: Address)
    requires !MovesPool(e, owner)
    ensures owner in Step(self, w, e).pools <==> owner in w.pools
    ensures owner in w.pools ==> Step(self, w, e).pools[owner] == w.pools[owner]
    ensures forall token :: Staked(self, w, e, owner, token) == 0
  {
  }

  lemma StakeOfCall(self: Address, w: World, auths: set<Address>, call: Call, owner: Address, token: Address)
    requires Sound(self, w) && owner in auths
    requires (call.Deposit? && call.owner == owner) || (call.Withdraw? && call.owner == owner)
    ensures PoolHolding(Execute(self, w, auths, call).world, owner, token)
         == PoolHolding(w, owner, token) + Staked(self, w, Invoke(auths, call), owner, token)
  {
  }

  lemma StakeOfStep(self: Address, w: World, e: Event, owner: Address, token: Address)
    requires Sound(self, w)
    ensures PoolHolding(Step(self, w, e), owner, token) == PoolHolding(w, owner, token) + Staked(self, w, e, owner, token)
  {
    if MovesPool(e, owner) {
      StakeOfCall(self, w, e.auths, e.call, owner, token);
    } else {
      OnlyOwnerMovesPool(self, w, e, owner);
    }
  }

  /**
   * Pool conservation: deposits minus withdrawals of a token are the pool's amount if the
   * pool holds that token and zero otherwise, whatever sequence of tokens it held before.
   */
  lemma {:induction false} PoolConservation(self: Address, w: World, es: seq<Event>, owner: Address, token: Address)
    requires Deployed(w) && AdmissibleRun(self, w, es)
    ensures NetStake(self, w, es, owner, token) == PoolHolding(Run(self, w, es), owner, token)
  {
    if es != [] {
      var before := es[..|es| - 1];
      PoolConservation(self, w, before, owner, token);
      DeployedIsSound(self, w);
      RunKeepsSound(self, w, before);
      StakeOfStep(self, Run(self, w, before), es[|es| - 1], owner, token);
    }
  }

  lemma PoolsStayInRange(self: Address, w: World, es: seq<Event>, owner: Address)
    requires Deployed(w) && AdmissibleRun(self, w, es)
    requires owner in Run(self, w, es).pools
    ensures 0 <= Run(self, w, es).pools[owner].amount <= I128_MAX
  {
    DeployedIsSound(self, w);
    RunKeepsSound(self, w, es);
    var now := Run(self, w, es);
    CustodyCovers(self, now);
    BalanceWithinSupply(now.balances, now.pools[owner].token, self);
  }

  /**
   * The checked addition in a deposit never overflows: a deposit goes through exactly when
   * it is authorised, positive, in the pool's token and covered by the owner's balance.
   */
  lemma DepositNeverOverflows(self: Address, w: World, auths: set<Address>, owner: Address, token: Address, amount: I128)
    requires Sound(self, w) && self !in auths
    ensures DepositStep(self, w, auths, owner, token, amount).outcome == Ok
       <==> && owner in auths
            && amount > 0
            && (PoolOf(w, owner, token).amount > 0 ==> PoolOf(w, owner, token).token == token)
            && BalanceOf(w.balances, token, owner) >= amount
  {
    if && owner in auths
       && amount > 0
       && (PoolOf(w, owner, token).amount > 0 ==> PoolOf(w, owner, token).token == token)
       && BalanceOf(w.balances, token, owner) >= amount
    {
      CustodyCovers(self, w);
      MoveKeepsHonesty(w.balances, token, owner, self, amount);
      BalanceAfterMove(w.balances, token, owner, self, amount, token, self);
      BalanceWithinSupply(Moved(w.balances, token, owner, self, amount), token, self);
      BalanceWithinSupply(w.balances, token, self);
      assert PoolOf(w, owner, token).amount <= BalanceOf(w.balances, token, self);
    }
  }

  /** Custody always covers a withdrawal the pool record allows, and the owner gets it all. */
  lemma WithdrawNeverShort(self: Address, w: World, auths: set<Address>, owner: Address, amount: I128)
    requires Sound(self, w)
    requires owner in auths && owner in w.pools && 0 < amount <= w.pools[owner].amount
    ensures var effect := WithdrawStep(self, w, auths, owner, amount);
            && effect.outcome == Ok
            && PoolHolding(effect.world, owner, w.pools[owner].token) == w.pools[owner].amount - amount
            && BalanceOf(effect.world.balances, w.pools[owner].token, owner)
               == BalanceOf(w.balances, w.pools[owner].token, owner) + amount
  {
    CustodyCovers(self, w);
    BalanceAfterMove(w.balances, w.pools[owner].token, self, owner, amount, w.pools[owner].token, owner);
  }

  /** Depositing and taking the same amount out again leaves every balance and holding as it was. */
  lemma WithdrawUndoesDeposit(self: Address, w: World, auths: set<Address>, owner: Address, token: Address, amount: I128,
                              held: Address, who: Address)
    requires Sound(self, w) && self !in auths
    requires DepositStep(self, w, auths, owner, token, amount).outcome == Ok
    ensures var mid := DepositStep(self, w, auths, owner, token, amount).world;
            var end := WithdrawStep(self, mid, auths, owner, amount);
            && end.outcome == Ok
            && BalanceOf(end.world.balances, held, who) == BalanceOf(w.balances, held, who)
            && PoolHolding(end.world, who, held) == PoolHolding(w, who, held)
  {
    var mid := DepositStep(self, w, auths, owner, token, amount).world;
    StepKeepsSound(self, w, Invoke(auths, Deposit(owner, token, amount)));
    CustodyCovers(self, mid);
    BalanceAfterMove(w.balances, token, owner, self, amount, held, who);
    BalanceAfterMove(mid.balances, token, self, owner, amount, held, who);
  }
}
