/**
 * Runs of the pay-escrow contract, and solvency over all of them.
 *
 * A run interleaves contract calls by anyone, the passing of ledger time and anything the
 * holders do with their own tokens elsewhere. Assumed of the outside world: tokens are
 * honest, a token's supply fits in an i128, the contract's address authorises nothing, and
 * ledger time does not go back.
 */
module EscrowSolvency {
  import opened MapSums
  import opened Escrow

  datatype Event =
    | Invoke(auths: set<Address>, call: Call)
    | Tick(now: nat)
    | Elsewhere(balances: Balances)

  function HoldingsIn(b: Balances, token: Address): map<(Address, Address), int>
  {
    map k | k in b :: if k.0 == token then b[k] else 0
  }

  ghost function Supply(b: Balances, token: Address): int
  {
    Sum(HoldingsIn(b, token))
  }

  ghost predicate HonestTokens(b: Balances)
  {
    && (forall k :: k in b ==> b[k] >= 0)
    && (forall token :: Supply(b, token) <= I128_MAX)
  }

  ghost predicate Admissible(self: Address, w: World, e: Event)
  {
    match e
    case Invoke(auths, _) => self !in auths
    case Tick(now) => now >= w.now
    case Elsewhere(b) =>
      && HonestTokens(b)
      && forall token :: BalanceOf(b, token, self) >= BalanceOf(w.balances, token, self)
  }

  function Step(self: Address, w: World, e: Event): World
  {
    match e
    case Invoke(auths, call) => Execute(self, w, auths, call).world
    case Tick(now) => w.(now := now)
    case Elsewhere(b) => w.(balances := b)
  }

  function Run(self: Address, w: World, es: seq<Event>): World
  {
    if es == [] then w else Step(self, Run(self, w, es[..|es| - 1]), es[|es| - 1])
  }

  ghost predicate AdmissibleRun(self: Address, w: World, es: seq<Event>)
  {
    es == [] ||
    (var before := es[..|es| - 1];
     AdmissibleRun(self, w, before) && Admissible(self, Run(self, w, before), es[|es| - 1]))
  }

  /** The freshly deployed contract: no records, any honest balances. */
  ghost predicate Deployed(w: World)
  {
    w.cheques == map[] && w.pools == map[] && HonestTokens(w.balances)
  }

  // ---- What the contract owes --------------------------------------------

  function OwedOn(record: ChequeRecord, token: Address): int
  {
    if record.state == Funded && record.token == token then record.amount else 0
  }

  function ChequesOwed(cheques: map<ChequeId, ChequeRecord>, token: Address): map<ChequeId, int>
  {
    map id | id in cheques :: OwedOn(cheques[id], token)
  }

  function PooledIn(record: PoolRecord, token: Address): int
  {
    if record.token == token then record.amount else 0
  }

  function PoolsOwed(pools: map<Address, PoolRecord>, token: Address): map<Address, int>
  {
    map owner | owner in pools :: PooledIn(pools[owner], token)
  }

  ghost function Debt(cheques: map<ChequeId, ChequeRecord>, pools: map<Address, PoolRecord>, token: Address): int
  {
    Sum(ChequesOwed(cheques, token)) + Sum(PoolsOwed(pools, token))
  }

  ghost function Liabilities(w: World, token: Address): int
  {
    Debt(w.cheques, w.pools, token)
  }

  ghost function Excess(self: Address, w: World, token: Address): int
  {
    BalanceOf(w.balances, token, self) - Liabilities(w, token)
  }

  ghost predicate Sound(self: Address, w: World)
  {
    && HonestTokens(w.balances)
    && (forall id :: id in w.cheques ==> w.cheques[id].amount > 0 && w.cheques[id].sender != self)
    && (forall owner :: owner in w.pools ==> w.pools[owner].amount >= 0 && owner != self)
    && (forall token :: Excess(self, w, token) >= 0)
  }

  /** What one transfer of `amount` from `src` to `dst` adds to `who`'s balance of `held`. */
  function Delta(token: Address, src: Address, dst: Address, amount: int, held: Address, who: Address): int
  {
    if held != token then 0
    else (if who == dst then amount else 0) - (if who == src then amount else 0)
  }

  /** Tokens a call hands to the contract without recording a debt for them. */
  function Gift(self: Address, w: World, auths: set<Address>, call: Call, token: Address): int
  {
    if call.ForceCollect? && call.receiver == self && call.token == token
       && Execute(self, w, auths, call).outcome == Settled(Collected)
    then call.amount else 0
  }

  // ---- Bookkeeping lemmas ------------------------------------------------

  lemma BalanceAfterMove(b: Balances, token: Address, src: Address, dst: Address, amount: int, held: Address, who: Address)
    ensures BalanceOf(Moved(b, token, src, dst, amount), held, who)
         == BalanceOf(b, held, who) + Delta(token, src, dst, amount, held, who)
  {
  }

  lemma SupplyAfterSet(b: Balances, token: Address, who: Address, v: int, held: Address)
    ensures Supply(b[(token, who) := v], held)
         == Supply(b, held) + (if held == token then v - BalanceOf(b, token, who) else 0)
  {
    var entry := if held == token then v else 0;
    assert HoldingsIn(b[(token, who) := v], held) == HoldingsIn(b, held)[(token, who) := entry];
    SumUpdate(HoldingsIn(b, held), (token, who), entry);
  }

  /** Honest transfers create and destroy nothing, whoever they are between. */
  lemma MoveKeepsHonesty(b: Balances, token: Address, src: Address, dst: Address, amount: int)
    requires HonestTokens(b) && CanPay(b, token, src, amount)
    ensures HonestTokens(Moved(b, token, src, dst, amount))
    ensures forall held :: Supply(Moved(b, token, src, dst, amount), held) == Supply(b, held)
  {
    var debited := b[(token, src) := BalanceOf(b, token, src) - amount];
    forall held ensures Supply(Moved(b, token, src, dst, amount), held) == Supply(b, held) {
      SupplyAfterSet(b, token, src, BalanceOf(b, token, src) - amount, held);
      SupplyAfterSet(debited, token, dst, BalanceOf(debited, token, dst) + amount, held);
    }
  }

  lemma BalanceWithinSupply(b: Balances, token: Address, who: Address)
    requires HonestTokens(b)
    ensures 0 <= BalanceOf(b, token, who) <= I128_MAX
  {
    PartAtMostSum(HoldingsIn(b, token), (token, who));
    assert Supply(b, token) <= I128_MAX;
  }

  /** A token movement with one cheque record written beside it. */
  lemma ExcessAfterChequeWrite(self: Address, w: World, id: ChequeId, record: ChequeRecord,
                               held: Address, src: Address, dst: Address, amount: int, token: Address)
    ensures Excess(self, w.(balances := Moved(w.balances, held, src, dst, amount), cheques := w.cheques[id := record]), token)
         == Excess(self, w, token) + Delta(held, src, dst, amount, token, self)
            - OwedOn(record, token) + (if id in w.cheques then OwedOn(w.cheques[id], token) else 0)
  {
    BalanceAfterMove(w.balances, held, src, dst, amount, token, self);
    assert ChequesOwed(w.cheques[id := record], token) == ChequesOwed(w.cheques, token)[id := OwedOn(record, token)];
    SumUpdate(ChequesOwed(w.cheques, token), id, OwedOn(record, token));
  }

  /** A token movement with one pool record written beside it. */
  lemma ExcessAfterPoolWrite(self: Address, w: World, owner: Address, record: PoolRecord,
                             held: Address, src: Address, dst: Address, amount: int, token: Address)
    ensures Excess(self, w.(balances := Moved(w.balances, held, src, dst, amount), pools := w.pools[owner := record]), token)
         == Excess(self, w, token) + Delta(held, src, dst, amount, token, self)
            - PooledIn(record, token) + (if owner in w.pools then PooledIn(w.pools[owner], token) else 0)
  {
    BalanceAfterMove(w.balances, held, src, dst, amount, token, self);
    assert PoolsOwed(w.pools[owner := record], token) == PoolsOwed(w.pools, token)[owner := PooledIn(record, token)];
    SumUpdate(PoolsOwed(w.pools, token), owner, PooledIn(record, token));
  }

  /** What backs one record: a sound contract's own balance covers any single debt. */
  lemma CustodyCovers(self: Address, w: World)
    requires Sound(self, w)
    ensures forall id :: id in w.cheques && w.cheques[id].state == Funded
              ==> CanPay(w.balances, w.cheques[id].token, self, w.cheques[id].amount)
    ensures forall owner :: owner in w.pools
              ==> CanPay(w.balances, w.pools[owner].token, self, w.pools[owner].amount)
  {
    forall token ensures Sum(ChequesOwed(w.cheques, token)) >= 0 && Sum(PoolsOwed(w.pools, token)) >= 0 {
      SumNonNegative(ChequesOwed(w.cheques, token));
      SumNonNegative(PoolsOwed(w.pools, token));
    }
    forall id | id in w.cheques && w.cheques[id].state == Funded
      ensures CanPay(w.balances, w.cheques[id].token, self, w.cheques[id].amount)
    {
      var token := w.cheques[id].token;
      PartAtMostSum(ChequesOwed(w.cheques, token), id);
      assert Excess(self, w, token) >= 0;
    }
    forall owner | owner in w.pools
      ensures CanPay(w.balances, w.pools[owner].token, self, w.pools[owner].amount)
    {
      var token := w.pools[owner].token;
      PartAtMostSum(PoolsOwed(w.pools, token), owner);
      assert Excess(self, w, token) >= 0;
    }
  }

  // ---- Solvency ----------------------------------------------------------

  lemma ExcessAfterLock(self: Address, w: World, auths: set<Address>, call: Call, token: Address)
    requires self !in auths && call.Lock?
    ensures Excess(self, Execute(self, w, auths, call).world, token) == Excess(self, w, token)
  {
    var effect := Execute(self, w, auths, call);
    if effect.outcome.Succeeded() {
      var record := effect.world.cheques[call.id];
      ExcessAfterChequeWrite(self, w, call.id, record, call.token, call.sender, self, call.amount, token);
    }
  }

  lemma ExcessAfterPayOut(self: Address, w: World, id: ChequeId, to: Address, end: ChequeState, token: Address)
    requires id in w.cheques && w.cheques[id].state == Funded && to != self && end != Funded
    ensures Excess(self, PayOut(self, w, id, to, end).world, token) == Excess(self, w, token)
  {
    var record := w.cheques[id];
    ExcessAfterChequeWrite(self, w, id, record.(state := end), record.token, self, to, record.amount, token);
  }

  lemma ExcessAfterForceCollect(self: Address, w: World, auths: set<Address>, call: Call, token: Address)
    requires self !in auths && call.ForceCollect?
    ensures Excess(self, Execute(self, w, auths, call).world, token)
         == Excess(self, w, token) + Gift(self, w, auths, call, token)
  {
    var effect := Execute(self, w, auths, call);
    if effect.outcome.Succeeded() {
      var record := effect.world.cheques[call.id];
      if effect.outcome == Settled(Collected) {
        ExcessAfterChequeWrite(self, w, call.id, record, call.token, call.sender, call.receiver, call.amount, token);
      } else {
        assert ChequesOwed(w.cheques[call.id := record], token) == ChequesOwed(w.cheques, token)[call.id := 0];
        SumUpdate(ChequesOwed(w.cheques, token), call.id, 0);
      }
    }
  }

  lemma ExcessAfterDeposit(self: Address, w: World, auths: set<Address>, call: Call, token: Address)
    requires Sound(self, w) && self !in auths && call.Deposit?
    ensures Excess(self, Execute(self, w, auths, call).world, token) == Excess(self, w, token)
  {
    var effect := Execute(self, w, auths, call);
    if effect.outcome.Succeeded() {
      var record := effect.world.pools[call.owner];
      ExcessAfterPoolWrite(self, w, call.owner, record, call.token, call.owner, self, call.amount, token);
    }
  }

  lemma ExcessAfterWithdraw(self: Address, w: World, auths: set<Address>, call: Call, token: Address)
    requires self !in auths && call.Withdraw?
    ensures Excess(self, Execute(self, w, auths, call).world, token) == Excess(self, w, token)
  {
    var effect := Execute(self, w, auths, call);
    if effect.outcome.Succeeded() {
      var record := effect.world.pools[call.owner];
      ExcessAfterPoolWrite(self, w, call.owner, record, record.token, self, call.owner, call.amount, token);
    }
  }

  /** Every call moves custody and debts together: the excess changes by the gift alone. */
  lemma ExcessAfterCall(self: Address, w: World, auths: set<Address>, call: Call, token: Address)
    requires Sound(self, w) && self !in auths
    ensures Excess(self, Execute(self, w, auths, call).world, token)
         == Excess(self, w, token) + Gift(self, w, auths, call, token)
  {
    match call
    case Lock(_, _, _, _, _, _) => ExcessAfterLock(self, w, auths, call, token);
    case Claim(id) =>
      if Execute(self, w, auths, call).outcome.Succeeded() {
        ExcessAfterPayOut(self, w, id, w.cheques[id].receiver, Claimed, token);
      }
    case Refund(id) =>
      if Execute(self, w, auths, call).outcome.Succeeded() {
        ExcessAfterPayOut(self, w, id, w.cheques[id].sender, Refunded, token);
      }
    case ForceCollect(_, _, _, _, _, _) => ExcessAfterForceCollect(self, w, auths, call, token);
    case Deposit(_, _, _) => ExcessAfterDeposit(self, w, auths, call, token);
    case Withdraw(_, _) => ExcessAfterWithdraw(self, w, auths, call, token);
  }

  lemma CallKeepsHonesty(self: Address, w: World, auths: set<Address>, call: Call)
    requires Sound(self, w)
    ensures HonestTokens(Execute(self, w, auths, call).world.balances)
  {
    if Execute(self, w, auths, call).outcome.Succeeded() {
      match call
      case Lock(sender, _, _, token, amount, _) => MoveKeepsHonesty(w.balances, token, sender, self, amount);
      case Claim(id) => MoveKeepsHonesty(w.balances, w.cheques[id].token, self, w.cheques[id].receiver, w.cheques[id].amount);
      case Refund(id) => MoveKeepsHonesty(w.balances, w.cheques[id].token, self, w.cheques[id].sender, w.cheques[id].amount);
      case ForceCollect(sender, _, receiver, token, amount, _) =>
        if BalanceOf(w.balances, token, sender) >= amount {
          MoveKeepsHonesty(w.balances, token, sender, receiver, amount);
        }
      case Deposit(owner, token, amount) => MoveKeepsHonesty(w.balances, token, owner, self, amount);
      case Withdraw(owner, amount) => MoveKeepsHonesty(w.balances, w.pools[owner].token, self, owner, amount);
    }
  }

  lemma CallKeepsRecordsSound(self: Address, w: World, auths: set<Address>, call: Call)
    requires self !in auths
    requires forall id :: id in w.cheques ==> w.cheques[id].amount > 0 && w.cheques[id].sender != self
    requires forall owner :: owner in w.pools ==> w.pools[owner].amount >= 0 && owner != self
    ensures var after := Execute(self, w, auths, call).world;
            && (forall id :: id in after.cheques ==> after.cheques[id].amount > 0 && after.cheques[id].sender != self)
            && (forall owner :: owner in after.pools ==> after.pools[owner].amount >= 0 && owner != self)
  {
  }

  lemma CallKeepsSound(self: Address, w: World, auths: set<Address>, call: Call)
    requires Sound(self, w) && self !in auths
    ensures Sound(self, Execute(self, w, auths, call).world)
    ensures forall token :: Excess(self, Execute(self, w, auths, call).world, token) >= Excess(self, w, token)
  {
    CallKeepsHonesty(self, w, auths, call);
    CallKeepsRecordsSound(self, w, auths, call);
    forall token ensures Excess(self, Execute(self, w, auths, call).world, token) >= Excess(self, w, token) {
      ExcessAfterCall(self, w, auths, call, token);
    }
    assert forall token :: Excess(self, w, token) >= 0;
  }

  lemma StepKeepsSound(self: Address, w: World, e: Event)
    requires Sound(self, w) && Admissible(self, w, e)
    ensures Sound(self, Step(self, w, e))
    ensures forall token :: Excess(self, Step(self, w, e), token) >= Excess(self, w, token)
  {
    if e.Invoke? {
      CallKeepsSound(self, w, e.auths, e.call);
    } else {
      forall token ensures Excess(self, Step(self, w, e), token) >= Excess(self, w, token) {
        assert Liabilities(Step(self, w, e), token) == Liabilities(w, token);
      }
    }
  }

  lemma DeployedIsSound(self: Address, w: World)
    requires Deployed(w)
    ensures Sound(self, w)
  {
  }

  lemma {:induction false} RunKeepsSound(self: Address, w: World, es: seq<Event>)
    requires Sound(self, w) && AdmissibleRun(self, w, es)
    ensures Sound(self, Run(self, w, es))
  {
    if es != [] {
      RunKeepsSound(self, w, es[..|es| - 1]);
      StepKeepsSound(self, Run(self, w, es[..|es| - 1]), es[|es| - 1]);
    }
  }

  /**
   * Solvency: after any run, for every token, what the contract holds covers all funded
   * cheques and all pools together, and the surplus is at least what it was at any
   * earlier moment `k` of the run.
   */
  lemma {:induction false} AlwaysSolvent(self: Address, w: World, es: seq<Event>, k: nat)
    requires Deployed(w) && AdmissibleRun(self, w, es) && k <= |es|
    ensures Sound(self, Run(self, w, es))
    ensures forall token :: BalanceOf(Run(self, w, es).balances, token, self) >= Liabilities(Run(self, w, es), token)
    ensures forall token :: Excess(self, Run(self, w, es), token) >= Excess(self, Run(self, w, es[..k]), token)
  {
    DeployedIsSound(self, w);
    RunKeepsSound(self, w, es);
    forall token ensures BalanceOf(Run(self, w, es).balances, token, self) >= Liabilities(Run(self, w, es), token) {
      assert Excess(self, Run(self, w, es), token) >= 0;
    }
    if k < |es| {
      var before := es[..|es| - 1];
      RunKeepsSound(self, w, before);
      AlwaysSolvent(self, w, before, k);
      assert before[..k] == es[..k];
      StepKeepsSound(self, Run(self, w, before), es[|es| - 1]);
    } else {
      assert es[..k] == es;
    }
  }
}
