/**
 * The pay-escrow contract: cheques and pools over token balances.
 *
 * Every entry point exists twice: as a pure step on a `World` value, which the run
 * theorems speak about, and as a method of `PayEscrow` that updates storage in place and
 * is proved to compute that step. A call that does not succeed leaves the world alone.
 */
module Escrow {
  datatype Address = Account(key: nat) | Contract(key: nat)

  type ChequeId = nat

  const I128_MAX: int := 0x7FFF_FFFF_FFFF_FFFF_FFFF_FFFF_FFFF_FFFF
  const FORCE_COLLECT_WINDOW_SECONDS: int := 24 * 60 * 60

  type I128 = x: int | -I128_MAX - 1 <= x <= I128_MAX

  datatype ChequeState = Funded | Claimed | Refunded | Collected | Bounced

  datatype ChequeRecord = ChequeRecord(
    sender: Address, receiver: Address, token: Address, amount: int, expiresAt: nat, state: ChequeState)

  datatype PoolRecord = PoolRecord(token: Address, amount: int, lastDepositAt: nat)

  datatype Error =
    | InvalidAmount
    | SelfTransfer
    | ChequeAlreadyUsed
    | ChequeNotFound
    | ChequeNotFunded
    | ChequeExpired
    | ChequeNotExpired
    | AlreadyFunded
    | AlreadyTerminal
    | ForceCollectTooEarly
    | ForceCollectTooLate
    | InsufficientPoolBalance
    | MixedAsset

  /** `Trap` is a host panic: a missing authorisation, a failed transfer or an i128 overflow. */
  datatype Outcome = Ok | Settled(state: ChequeState) | Err(error: Error) | Trap
  {
    predicate Succeeded() { Ok? || Settled? }
  }

  /** Balances are keyed by (token, holder); an absent key is a zero balance. */
  type Balances = map<(Address, Address), int>

  datatype World = World(
    balances: Balances, cheques: map<ChequeId, ChequeRecord>, pools: map<Address, PoolRecord>, now: nat)

  datatype Call =
    | Lock(sender: Address, id: ChequeId, receiver: Address, token: Address, amount: I128, expiresAt: nat)
    | Claim(id: ChequeId)
    | Refund(id: ChequeId)
    | ForceCollect(sender: Address, id: ChequeId, receiver: Address, token: Address, amount: I128, expiresAt: nat)
    | Deposit(owner: Address, token: Address, amount: I128)
    | Withdraw(owner: Address, amount: I128)

  datatype Effect = Effect(world: World, outcome: Outcome)

  // ---- Tokens ------------------------------------------------------------

  function BalanceOf(b: Balances, token: Address, who: Address): int
  {
    if (token, who) in b then b[(token, who)] else 0
  }

  predicate CanPay(b: Balances, token: Address, who: Address, amount: int)
  {
    0 <= amount <= BalanceOf(b, token, who)
  }

  /** The balances after an honest transfer: debit first, then credit. */
  function Moved(b: Balances, token: Address, src: Address, dst: Address, amount: int): Balances
  {
    var debited := b[(token, src) := BalanceOf(b, token, src) - amount];
    debited[(token, dst) := BalanceOf(debited, token, dst) + amount]
  }

  // ---- Entry points as steps ---------------------------------------------

  function LockStep(self: Address, w: World, auths: set<Address>,
                    sender: Address, id: ChequeId, receiver: Address, token: Address, amount: I128, expiresAt: nat): Effect
  {
    if sender !in auths then Effect(w, Trap)
    else if amount <= 0 then Effect(w, Err(InvalidAmount))
    else if sender == receiver then Effect(w, Err(SelfTransfer))
    else if id in w.cheques then Effect(w, Err(ChequeAlreadyUsed))
    else if !CanPay(w.balances, token, sender, amount) then Effect(w, Trap)
    else
      Effect(w.(balances := Moved(w.balances, token, sender, self, amount),
                cheques := w.cheques[id := ChequeRecord(sender, receiver, token, amount, expiresAt, Funded)]),
             Ok)
  }

  /** Pays a funded cheque out of custody and records how it ended. */
  function PayOut(self: Address, w: World, id: ChequeId, to: Address, end: ChequeState): Effect
    requires id in w.cheques
  {
    var record := w.cheques[id];
    if !CanPay(w.balances, record.token, self, record.amount) then Effect(w, Trap)
    else
      Effect(w.(balances := Moved(w.balances, record.token, self, to, record.amount),
                cheques := w.cheques[id := record.(state := end)]),
             Ok)
  }

  function ClaimStep(self: Address, w: World, auths: set<Address>, id: ChequeId): Effect
  {
    if id !in w.cheques then Effect(w, Err(ChequeNotFound))
    else if w.cheques[id].state != Funded then Effect(w, Err(ChequeNotFunded))
    else if w.cheques[id].receiver !in auths then Effect(w, Trap)
    else if w.now >= w.cheques[id].expiresAt then Effect(w, Err(ChequeExpired))
    else PayOut(self, w, id, w.cheques[id].receiver, Claimed)
  }

  function RefundStep(self: Address, w: World, id: ChequeId): Effect
  {
    if id !in w.cheques then Effect(w, Err(ChequeNotFound))
    else if w.cheques[id].state != Funded then Effect(w, Err(ChequeNotFunded))
    else if w.now < w.cheques[id].expiresAt then Effect(w, Err(ChequeNotExpired))
    else PayOut(self, w, id, w.cheques[id].sender, Refunded)
  }

  function ForceCollectStep(w: World, auths: set<Address>,
                            sender: Address, id: ChequeId, receiver: Address, token: Address, amount: I128, expiresAt: nat): Effect
  {
    if sender !in auths then Effect(w, Trap)
    else if id in w.cheques then Effect(w, Err(if w.cheques[id].state == Funded then AlreadyFunded else AlreadyTerminal))
    else if w.now >= expiresAt then Effect(w, Err(ForceCollectTooLate))
    else if expiresAt - w.now > FORCE_COLLECT_WINDOW_SECONDS then Effect(w, Err(ForceCollectTooEarly))
    else if amount <= 0 then Effect(w, Err(InvalidAmount))
    else
      var paid := BalanceOf(w.balances, token, sender) >= amount;
      var end := if paid then Collected else Bounced;
      Effect(w.(balances := if paid then Moved(w.balances, token, sender, receiver, amount) else w.balances,
                cheques := w.cheques[id := ChequeRecord(sender, receiver, token, amount, expiresAt, end)]),
             Settled(end))
  }

  function PoolOf(w: World, owner: Address, fallback: Address): PoolRecord
  {
    if owner in w.pools then w.pools[owner] else PoolRecord(fallback, 0, 0)
  }

  function DepositStep(self: Address, w: World, auths: set<Address>, owner: Address, token: Address, amount: I128): Effect
  {
    var record := PoolOf(w, owner, token);
    if owner !in auths then Effect(w, Trap)
    else if amount <= 0 then Effect(w, Err(InvalidAmount))
    else if record.amount > 0 && record.token != token then Effect(w, Err(MixedAsset))
    else if !CanPay(w.balances, token, owner, amount) then Effect(w, Trap)
    else if record.amount + amount > I128_MAX then Effect(w, Trap)
    else
      Effect(w.(balances := Moved(w.balances, token, owner, self, amount),
                pools := w.pools[owner := PoolRecord(token, record.amount + amount, w.now)]),
             Ok)
  }

  function WithdrawStep(self: Address, w: World, auths: set<Address>, owner: Address, amount: I128): Effect
  {
    if owner !in auths then Effect(w, Trap)
    else if amount <= 0 then Effect(w, Err(InvalidAmount))
    else if owner !in w.pools || amount > w.pools[owner].amount then Effect(w, Err(InsufficientPoolBalance))
    else
      var record := w.pools[owner];
      if !CanPay(w.balances, record.token, self, amount) then Effect(w, Trap)
      else
        Effect(w.(balances := Moved(w.balances, record.token, self, owner, amount),
                  pools := w.pools[owner := record.(amount := record.amount - amount)]),
               Ok)
  }

  function Execute(self: Address, w: World, auths: set<Address>, call: Call): Effect
  {
    match call
    case Lock(sender, id, receiver, token, amount, expiresAt) =>
      LockStep(self, w, auths, sender, id, receiver, token, amount, expiresAt)
    case Claim(id) => ClaimStep(self, w, auths, id)
    case Refund(id) => RefundStep(self, w, id)
    case ForceCollect(sender, id, receiver, token, amount, expiresAt) =>
      ForceCollectStep(w, auths, sender, id, receiver, token, amount, expiresAt)
    case Deposit(owner, token, amount) => DepositStep(self, w, auths, owner, token, amount)
    case Withdraw(owner, amount) => WithdrawStep(self, w, auths, owner, amount)
  }

  // ---- The contract over mutable storage ---------------------------------

  class PayEscrow {
    const self: Address
    var balances: Balances
    var cheques: map<ChequeId, ChequeRecord>
    var pools: map<Address, PoolRecord>
    var now: nat

    constructor (self: Address, balances: Balances, now: nat)
      ensures this.self == self
      ensures Snapshot() == World(balances, map[], map[], now)
    {
      this.self := self;
      this.balances := balances;
      this.cheques := map[];
      this.pools := map[];
      this.now := now;
    }

    ghost function Snapshot(): World
      reads this
    {
      World(balances, cheques, pools, now)
    }

    /** The token client's transfer: moves exactly `amount`, or refuses for lack of balance. */
    method Transfer(token: Address, src: Address, dst: Address, amount: int) returns (ok: bool)
      modifies this`balances
      ensures ok == CanPay(old(balances), token, src, amount)
      ensures balances == if ok then Moved(old(balances), token, src, dst, amount) else old(balances)
    {
      var held := BalanceOf(balances, token, src);
      if amount < 0 || amount > held {
        return false;
      }
      balances := balances[(token, src) := held - amount];
      balances := balances[(token, dst) := BalanceOf(balances, token, dst) + amount];
      return true;
    }

    method LockCheque(auths: set<Address>, sender: Address, id: ChequeId, receiver: Address,
                      token: Address, amount: I128, expiresAt: nat)
      returns (out: Outcome)
      modifies this`balances, this`cheques
      ensures Effect(Snapshot(), out)
           == LockStep(self, old(Snapshot()), auths, sender, id, receiver, token, amount, expiresAt)
    {
      if sender !in auths { return Trap; }
      if amount <= 0 { return Err(InvalidAmount); }
      if sender == receiver { return Err(SelfTransfer); }
      if id in cheques { return Err(ChequeAlreadyUsed); }
      var ok := Transfer(token, sender, self, amount);
      if !ok { return Trap; }
      cheques := cheques[id := ChequeRecord(sender, receiver, token, amount, expiresAt, Funded)];
      return Ok;
    }

    method ClaimCheque(auths: set<Address>, id: ChequeId) returns (out: Outcome)
      modifies this`balances, this`cheques
      ensures Effect(Snapshot(), out) == ClaimStep(self, old(Snapshot()), auths, id)
    {
      if id !in cheques { return Err(ChequeNotFound); }
      var record := cheques[id];
      if record.state != Funded { return Err(ChequeNotFunded); }
      if record.receiver !in auths { return Trap; }
      if now >= record.expiresAt { return Err(ChequeExpired); }
      var ok := Transfer(record.token, self, record.receiver, record.amount);
      if !ok { return Trap; }
      record := record.(state := Claimed);
      cheques := cheques[id := record];
      return Ok;
    }

    method RefundCheque(id: ChequeId) returns (out: Outcome)
      modifies this`balances, this`cheques
      ensures Effect(Snapshot(), out) == RefundStep(self, old(Snapshot()), id)
    {
      if id !in cheques { return Err(ChequeNotFound); }
      var record := cheques[id];
      if record.state != Funded { return Err(ChequeNotFunded); }
      if now < record.expiresAt { return Err(ChequeNotExpired); }
      var ok := Transfer(record.token, self, record.sender, record.amount);
      if !ok { return Trap; }
      record := record.(state := Refunded);
      cheques := cheques[id := record];
      return Ok;
    }

    method ForceCollectCheque(auths: set<Address>, sender: Address, id: ChequeId, receiver: Address,
                              token: Address, amount: I128, expiresAt: nat)
      returns (out: Outcome)
      modifies this`balances, this`cheques
      ensures Effect(Snapshot(), out)
           == ForceCollectStep(old(Snapshot()), auths, sender, id, receiver, token, amount, expiresAt)
    {
      if sender !in auths { return Trap; }
      if id in cheques {
        return Err(if cheques[id].state == Funded then AlreadyFunded else AlreadyTerminal);
      }
      if now >= expiresAt { return Err(ForceCollectTooLate); }
      if expiresAt - now > FORCE_COLLECT_WINDOW_SECONDS { return Err(ForceCollectTooEarly); }
      if amount <= 0 { return Err(InvalidAmount); }
      var finalState := Bounced;
      if BalanceOf(balances, token, sender) >= amount {
        var ok := Transfer(token, sender, receiver, amount);
        assert ok;
        finalState := Collected;
      }
      cheques := cheques[id := ChequeRecord(sender, receiver, token, amount, expiresAt, finalState)];
      return Settled(finalState);
    }

    method DepositToPool(auths: set<Address>, owner: Address, token: Address, amount: I128) returns (out: Outcome)
      modifies this`balances, this`pools
      ensures Effect(Snapshot(), out) == DepositStep(self, old(Snapshot()), auths, owner, token, amount)
    {
      if owner !in auths { return Trap; }
      if amount <= 0 { return Err(InvalidAmount); }
      var record := if owner in pools then pools[owner] else PoolRecord(token, 0, 0);
      if record.amount > 0 && record.token != token { return Err(MixedAsset); }
      var before := balances;
      var ok := Transfer(token, owner, self, amount);
      if !ok { return Trap; }
      if record.amount + amount > I128_MAX {
        balances := before; // the checked addition panics and the host rolls the transfer back
        return Trap;
      }
      record := record.(token := token);
      record := record.(amount := record.amount + amount);
      record := record.(lastDepositAt := now);
      pools := pools[owner := record];
      return Ok;
    }

    method WithdrawFromPool(auths: set<Address>, owner: Address, amount: I128) returns (out: Outcome)
      modifies this`balances, this`pools
      ensures Effect(Snapshot(), out) == WithdrawStep(self, old(Snapshot()), auths, owner, amount)
    {
      if owner !in auths { return Trap; }
      if amount <= 0 { return Err(InvalidAmount); }
      if owner !in pools { return Err(InsufficientPoolBalance); }
      var record := pools[owner];
      if amount > record.amount { return Err(InsufficientPoolBalance); }
      var ok := Transfer(record.token, self, owner, amount);
      if !ok { return Trap; }
      record := record.(amount := record.amount - amount);
      pools := pools[owner := record];
      return Ok;
    }
  }
}
