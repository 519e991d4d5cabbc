/** The cached pool balances: drift by confirms, repair from the contract. */
module PoolCache {
  import opened Options
  import opened Escrow
  import opened EscrowSolvency
  import opened ChequeStore

  /** What simulating `get_pool` tells: nothing, that there is no pool, or the pool's amount. */
  datatype PoolRead = Unreadable | NoPool | Holds(amount: int)

  function ReadPool(chain: World, up: bool, owner: Address): PoolRead
  {
    if !up then Unreadable
    else if owner in chain.pools then Holds(chain.pools[owner].amount)
    else NoPool
  }

  function ChainAmount(read: PoolRead): int
  {
    if read.Holds? then read.amount else 0
  }

  function CachedRow(pools: map<Address, PoolRow>, owner: Address): PoolRow
  {
    if owner in pools then pools[owner] else PoolRow(0, 0)
  }

  /** The view `/sync` serves, and whether it was checked against the chain. */
  datatype View = View(row: PoolRow, verified: Option<bool>)

  datatype Outcome = Outcome(pools: map<Address, PoolRow>, view: View)

  /** One reconcile: `local` was read before the chain was, the cache is written after. */
  function ReconcileStep(pools: map<Address, PoolRow>, owner: Address, local: PoolRow, read: PoolRead,
                         writable: bool, configured: nat): Outcome
  {
    if read.Unreadable? then Outcome(pools, View(local, None))
    else if ChainAmount(read) == local.amount then Outcome(pools, View(local, Some(true)))
    else if !writable then Outcome(pools, View(local, None))
    else
      var row := PoolRow(ChainAmount(read), if local.decimals == 0 then configured else local.decimals);
      Outcome(pools[owner := row], View(row, Some(true)))
  }

  class PoolReconciler {
    const repo: Repository
    const decimals: nat

    constructor (repo: Repository, decimals: nat)
      ensures this.repo == repo && this.decimals == decimals
    {
      this.repo := repo;
      this.decimals := decimals;
    }

    /** `/sync`'s pool half: read the cache, ask the chain, and overwrite the cache where they differ. */
    method Reconcile(owner: Address, read: PoolRead, writable: bool) returns (view: View)
      modifies repo`pools
      ensures Outcome(repo.pools, view)
           == ReconcileStep(old(repo.pools), owner, CachedRow(old(repo.pools), owner), read, writable, decimals)
    {
      var row, _ := repo.GetPool(owner);
      if read.Unreadable? { return View(row, None); }
      var chainAmount := 0;
      if read.Holds? { chainAmount := read.amount; }
      if chainAmount == row.amount { return View(row, Some(true)); }
      var places := row.decimals;
      if places == 0 { places := decimals; }
      if !writable { return View(row, None); }
      repo.SetPoolAmount(owner, chainAmount, places);
      row := row.(amount := chainAmount);
      row := row.(decimals := places);
      return View(row, Some(true));
    }
  }

  // ---- Confirms, reconciles and the chain, interleaved --------------------

  /**
   * A reconcile in flight: the row it read, then what the chain told it. `moved` records
   * what the owner's pool has gained on chain since that answer.
   */
  datatype Reconciling = Reconciling(owner: Address, local: PoolRow, read: Option<PoolRead>, moved: int)

  /**
   * For one owner, since the last reconcile that wrote the cache: confirms recorded,
   * withdrawals that clamping at zero did not subtract, and what the pool has gained on chain
   * since that reconcile's answer.
   */
  datatype Tally = Tally(confirmed: int, clamped: int, moved: int)

  datatype Caching = Caching(chain: World, pools: map<Address, PoolRow>, pending: seq<Reconciling>, tallies: Address -> Tally)

  datatype CacheEvent =
    | ChainMoves(e: Event)
    | DepositConfirmed(owner: Address, amount: int, decimals: nat)
    | WithdrawConfirmed(owner: Address, amount: int)
    | LocalRead(owner: Address)
    | ChainRead(i: nat, up: bool)
    | WrittenBack(i: nat, writable: bool, configured: nat)
    | Abandoned(i: nat)

  function PoolAmount(w: World, owner: Address): int
  {
    if owner in w.pools then w.pools[owner].amount else 0
  }

  /** What one event's successful deposit or withdrawal adds to the owner's pool. */
  function Gained(self: Address, w: World, e: Event, owner: Address): int
  {
    if !e.Invoke? || !Execute(self, w, e.auths, e.call).outcome.Succeeded() then 0
    else
      match e.call
      case Deposit(o, _, amount) => if o == owner then amount else 0
      case Withdraw(o, amount) => if o == owner then -amount else 0
      case _ => 0
  }

  /** How much of a confirmed withdrawal the cached amount does not cover. */
  function Shortfall(cached: int, amount: int): int
  {
    if amount > cached then amount - cached else 0
  }

  function WithTally(tallies: Address -> Tally, owner: Address, tally: Tally): Address -> Tally
  {
    o => if o == owner then tally else tallies(o)
  }

  /** Writing happens only over a readable answer that differs from the row read first. */
  predicate Writes(r: Reconciling, writable: bool)
  {
    r.read.Some? && !r.read.value.Unreadable? && ChainAmount(r.read.value) != r.local.amount && writable
  }

  function CacheNext(self: Address, c: Caching, e: CacheEvent): Caching
  {
    match e
    case ChainMoves(step) =>
      Caching(Step(self, c.chain, step), c.pools,
              seq(|c.pending|, i requires 0 <= i < |c.pending| =>
                c.pending[i].(moved := c.pending[i].moved + Gained(self, c.chain, step, c.pending[i].owner))),
              o => c.tallies(o).(moved := c.tallies(o).moved + Gained(self, c.chain, step, o)))
    case DepositConfirmed(owner, amount, decimals) =>
      if amount <= 0 then c
      else
        var t := c.tallies(owner);
        c.(pools := DepositRecorded(c.pools, owner, amount, decimals),
           tallies := WithTally(c.tallies, owner, t.(confirmed := t.confirmed + amount)))
    case WithdrawConfirmed(owner, amount) =>
      if amount <= 0 then c
      else
        var t := c.tallies(owner);
        var short := Shortfall(CachedRow(c.pools, owner).amount, amount);
        c.(pools := WithdrawRecorded(c.pools, owner, amount),
           tallies := WithTally(c.tallies, owner, t.(confirmed := t.confirmed - amount, clamped := t.clamped + short)))
    case LocalRead(owner) => c.(pending := c.pending + [Reconciling(owner, CachedRow(c.pools, owner), None, 0)])
    case ChainRead(i, up) =>
      if i >= |c.pending| then c
      else c.(pending := c.pending[i := c.pending[i].(read := Some(ReadPool(c.chain, up, c.pending[i].owner)), moved := 0)])
    case WrittenBack(i, writable, configured) =>
      if i >= |c.pending| || c.pending[i].read.None? then c
      else
        var r := c.pending[i];
        c.(pools := ReconcileStep(c.pools, r.owner, r.local, r.read.value, writable, configured).pools,
           pending := c.pending[..i] + c.pending[i + 1..],
           tallies := if Writes(r, writable) then WithTally(c.tallies, r.owner, Tally(0, 0, r.moved)) else c.tallies)
    case Abandoned(i) =>
      if i >= |c.pending| then c else c.(pending := c.pending[..i] + c.pending[i + 1..])
  }

  function CachePlay(self: Address, c: Caching, es: seq<CacheEvent>): Caching
  {
    if es == [] then c else CacheNext(self, CachePlay(self, c, es[..|es| - 1]), es[|es| - 1])
  }

  ghost predicate CacheAllowed(self: Address, c: Caching, es: seq<CacheEvent>)
  {
    es == [] ||
    (var before, e := es[..|es| - 1], es[|es| - 1];
     CacheAllowed(self, c, before) && (e.ChainMoves? ==> Admissible(self, CachePlay(self, c, before).chain, e.e)))
  }

  ghost predicate FreshCache(c: Caching)
  {
    Deployed(c.chain) && c.pools == map[] && c.pending == [] && forall owner :: c.tallies(owner) == Tally(0, 0, 0)
  }

  // ---- What one confirm and one reconcile write ----------------------------

  /** A deposit confirm raises the owner's row by its amount and sets its decimals, and touches no other row. */
  lemma DepositConfirmAdds(pools: map<Address, PoolRow>, owner: Address, amount: int, decimals: nat, other: Address)
    requires other != owner
    ensures var after := DepositRecorded(pools, owner, amount, decimals);
            && owner in after
            && CachedRow(after, owner) == PoolRow(CachedRow(pools, owner).amount + amount, decimals)
            && (other in after <==> other in pools) && CachedRow(after, other) == CachedRow(pools, other)
  {
  }

  /**
   * A withdrawal confirm lowers the owner's row by exactly its amount when that covers it, to
   * zero when it does not, keeps the decimals, and touches no other row and creates none.
   */
  lemma WithdrawConfirmSubtracts(pools: map<Address, PoolRow>, owner: Address, amount: int, other: Address)
    requires other != owner
    ensures var after := WithdrawRecorded(pools, owner, amount);
            var cached := CachedRow(pools, owner);
            && after.Keys == pools.Keys
            && (owner in pools && amount <= cached.amount ==> after[owner] == PoolRow(cached.amount - amount, cached.decimals))
            && (owner in pools && amount > cached.amount ==> after[owner] == PoolRow(0, cached.decimals))
            && CachedRow(after, other) == CachedRow(pools, other)
  {
  }

  /**
   * A reconcile writes exactly when the chain is readable, differs from the row read first,
   * and the database takes the write; its view is verified exactly when it wrote or had
   * nothing to write; and decimals are kept where known and configured where not.
   */
  lemma ReconcileAnswers(pools: map<Address, PoolRow>, owner: Address, local: PoolRow, read: PoolRead,
                         writable: bool, configured: nat)
    ensures var out := ReconcileStep(pools, owner, local, read, writable, configured);
            var differs := !read.Unreadable? && ChainAmount(read) != local.amount;
            var row := PoolRow(ChainAmount(read), if local.decimals == 0 then configured else local.decimals);
            && out.pools == (if differs && writable then pools[owner := row] else pools)
            && (out.view.verified == Some(true) <==> !read.Unreadable? && (differs ==> writable))
            && (out.view.verified == None <==> read.Unreadable? || (differs && !writable))
            && out.view.row == if differs && writable then row else local
  {
  }

  // ---- The drift, exactly -------------------------------------------------

  predicate AnswerKept(chain: World, r: Reconciling)
  {
    r.read.Some? && !r.read.value.Unreadable? ==> ChainAmount(r.read.value) + r.moved == PoolAmount(chain, r.owner)
  }

  ghost predicate Accounted(c: Caching)
  {
    && (forall owner :: CachedRow(c.pools, owner).amount - PoolAmount(c.chain, owner)
          == c.tallies(owner).confirmed + c.tallies(owner).clamped - c.tallies(owner).moved)
    && (forall i :: 0 <= i < |c.pending| ==> AnswerKept(c.chain, c.pending[i]))
  }

  lemma GainIsGained(self: Address, w: World, e: Event, owner: Address)
    ensures PoolAmount(Step(self, w, e), owner) == PoolAmount(w, owner) + Gained(self, w, e, owner)
  {
  }

  lemma ChainMovesAccounted(self: Address, c: Caching, e: Event)
    requires Accounted(c)
    ensures Accounted(CacheNext(self, c, ChainMoves(e)))
  {
    var after := CacheNext(self, c, ChainMoves(e));
    forall owner ensures CachedRow(after.pools, owner).amount - PoolAmount(after.chain, owner)
        == after.tallies(owner).confirmed + after.tallies(owner).clamped - after.tallies(owner).moved
    {
      GainIsGained(self, c.chain, e, owner);
    }
    forall i | 0 <= i < |after.pending| ensures AnswerKept(after.chain, after.pending[i]) {
      assert AnswerKept(c.chain, c.pending[i]);
      GainIsGained(self, c.chain, e, c.pending[i].owner);
    }
  }

  lemma WrittenBackAccounted(self: Address, c: Caching, i: nat, writable: bool, configured: nat)
    requires Accounted(c)
    ensures Accounted(CacheNext(self, c, WrittenBack(i, writable, configured)))
  {
    if i < |c.pending| {
      assert AnswerKept(c.chain, c.pending[i]);
    }
  }

  lemma ConfirmsAccounted(self: Address, c: Caching, e: CacheEvent)
    requires Accounted(c) && (e.DepositConfirmed? || e.WithdrawConfirmed?)
    ensures Accounted(CacheNext(self, c, e))
  {
    var after := CacheNext(self, c, e);
    forall owner ensures CachedRow(after.pools, owner).amount - PoolAmount(after.chain, owner)
        == after.tallies(owner).confirmed + after.tallies(owner).clamped - after.tallies(owner).moved
    {
      assert CachedRow(c.pools, owner).amount - PoolAmount(c.chain, owner)
          == c.tallies(owner).confirmed + c.tallies(owner).clamped - c.tallies(owner).moved;
    }
  }

  lemma CacheNextAccounted(self: Address, c: Caching, e: CacheEvent)
    requires Accounted(c)
    ensures Accounted(CacheNext(self, c, e))
  {
    match e
    case ChainMoves(step) => ChainMovesAccounted(self, c, step);
    case WrittenBack(i, writable, configured) => WrittenBackAccounted(self, c, i, writable, configured);
    case DepositConfirmed(_, _, _) => ConfirmsAccounted(self, c, e);
    case WithdrawConfirmed(_, _) => ConfirmsAccounted(self, c, e);
    case _ =>
  }

  /**
   * Over any run of confirms in any order and number, chain steps, and reconciles caught
   * half-way: the cache exceeds the contract's pool by the confirms recorded since the last
   * write-back, plus what clamping spared, less what the pool has gained since that
   * write-back's answer. So the two agree if and only if these match.
   */
  lemma {:induction false} DriftExactly(self: Address, c: Caching, es: seq<CacheEvent>, owner: Address)
    requires FreshCache(c)
    ensures Accounted(CachePlay(self, c, es))
    ensures var later := CachePlay(self, c, es);
            var t := later.tallies(owner);
            var drift := CachedRow(later.pools, owner).amount - PoolAmount(later.chain, owner);
            && drift == t.confirmed + t.clamped - t.moved
            && (t.clamped == 0 ==> (drift == 0 <==> t.confirmed == t.moved))
  {
    if es != [] {
      DriftExactly(self, c, es[..|es| - 1], owner);
      CacheNextAccounted(self, CachePlay(self, c, es[..|es| - 1]), es[|es| - 1]);
    }
  }

  // ---- Healing ------------------------------------------------------------

  /** A reconcile of `owner` with nothing in between. */
  function Reconciled(self: Address, c: Caching, owner: Address, up: bool, configured: nat): Caching
  {
    var asked := CacheNext(self, CacheNext(self, c, LocalRead(owner)), ChainRead(|c.pending|, up));
    CacheNext(self, asked, WrittenBack(|c.pending|, true, configured))
  }

  lemma ReconciledAtOnce(self: Address, c: Caching, owner: Address, up: bool, configured: nat)
    ensures var after := Reconciled(self, c, owner, up, configured);
            var read := ReadPool(c.chain, up, owner);
            && after.chain == c.chain && after.pending == c.pending
            && after.pools == ReconcileStep(c.pools, owner, CachedRow(c.pools, owner), read, true, configured).pools
            && (up && PoolAmount(c.chain, owner) != CachedRow(c.pools, owner).amount ==> after.tallies(owner) == Tally(0, 0, 0))
  {
    var read := ReadPool(c.chain, up, owner);
    var asked := CacheNext(self, CacheNext(self, c, LocalRead(owner)), ChainRead(|c.pending|, up));
    assert asked.pending == c.pending + [Reconciling(owner, CachedRow(c.pools, owner), Some(read), 0)];
  }

  /**
   * Self-healing: whatever the cache held, one undisturbed reconcile against a readable chain
   * makes it the contract's own pool, a second finds nothing to do, an unreadable chain
   * changes nothing, and other owners keep what they had.
   */
  lemma ReconcileHeals(self: Address, c: Caching, owner: Address, configured: nat)
    ensures var healed := Reconciled(self, c, owner, true, configured);
            && healed.chain == c.chain && healed.pending == c.pending
            && CachedRow(healed.pools, owner).amount == PoolAmount(c.chain, owner)
            && Reconciled(self, healed, owner, true, configured).pools == healed.pools
            && (forall other :: other != owner ==> CachedRow(healed.pools, other) == CachedRow(c.pools, other))
    ensures Reconciled(self, c, owner, false, configured).pools == c.pools
  {
    ReconciledAtOnce(self, c, owner, true, configured);
    ReconciledAtOnce(self, c, owner, false, configured);
    ReconciledAtOnce(self, Reconciled(self, c, owner, true, configured), owner, true, configured);
  }

  /**
   * With confirms and chain steps in between, a reconcile against a readable chain leaves
   * the contract's amount behind if and only if it writes and the pool has not moved since
   * it asked, or it does not write and the confirms since the last write-back match the
   * chain.
   */
  lemma WrittenBackExactly(self: Address, c: Caching, i: nat, configured: nat)
    requires Accounted(c) && i < |c.pending| && c.pending[i].read.Some? && !c.pending[i].read.value.Unreadable?
    ensures var r := c.pending[i];
            var t := c.tallies(r.owner);
            CachedRow(CacheNext(self, c, WrittenBack(i, true, configured)).pools, r.owner).amount == PoolAmount(c.chain, r.owner)
            <==> if Writes(r, true) then r.moved == 0 else t.confirmed + t.clamped == t.moved
  {
    assert AnswerKept(c.chain, c.pending[i]);
  }

  /** A view marked verified is the contract's pool as it was when the chain was asked; any other is the row read first. */
  lemma VerifiedViewIsChains(c: Caching, i: nat, writable: bool, configured: nat)
    requires Accounted(c) && i < |c.pending| && c.pending[i].read.Some?
    ensures var r := c.pending[i];
            var view := ReconcileStep(c.pools, r.owner, r.local, r.read.value, writable, configured).view;
            && view.verified in {None, Some(true)}
            && (view.verified == Some(true) ==> view.row.amount == PoolAmount(c.chain, r.owner) - r.moved)
            && (view.verified == None ==> view.row == r.local)
  {
    assert AnswerKept(c.chain, c.pending[i]);
  }

  lemma DepositArrives(self: Address, w: World, owner: Address, token: Address)
    requires owner != self && Deployed(w) && w.balances == map[(token, owner) := 10]
    ensures PoolAmount(Step(self, w, Invoke({owner}, Deposit(owner, token, 10))), owner) == 10
  {
    assert DepositStep(self, w, {owner}, owner, token, 10).outcome == Ok;
    GainIsGained(self, w, Invoke({owner}, Deposit(owner, token, 10)), owner);
  }

  /**
   * A late confirm: the owner deposits ten, a reconcile sees it and writes it, and then the
   * deposit's confirm arrives. The cache says twenty until the next reconcile.
   */
  lemma LateConfirmCountsTwice(self: Address, owner: Address, token: Address, c: Caching)
    requires owner != self && FreshCache(c) && c.chain.balances == map[(token, owner) := 10]
    ensures var healed := Reconciled(self, CacheNext(self, c, ChainMoves(Invoke({owner}, Deposit(owner, token, 10)))), owner, true, 7);
            var late := CacheNext(self, healed, DepositConfirmed(owner, 10, 7));
            && Admissible(self, c.chain, Invoke({owner}, Deposit(owner, token, 10)))
            && CachedRow(healed.pools, owner).amount == PoolAmount(healed.chain, owner) == 10
            && PoolAmount(late.chain, owner) == 10 && CachedRow(late.pools, owner).amount == 20
            && late.tallies(owner) == Tally(10, 0, 0)
            && CachedRow(Reconciled(self, late, owner, true, 7).pools, owner).amount == 10
  {
    DepositArrives(self, c.chain, owner, token);
    var deposited := CacheNext(self, c, ChainMoves(Invoke({owner}, Deposit(owner, token, 10))));
    ReconcileHeals(self, deposited, owner, 7);
    ReconciledAtOnce(self, deposited, owner, true, 7);
    var healed := Reconciled(self, deposited, owner, true, 7);
    ReconcileHeals(self, CacheNext(self, healed, DepositConfirmed(owner, 10, 7)), owner, 7);
  }

  // ---- Never negative, in any interleaving -------------------------------

  ghost predicate NothingNegative(c: Caching)
  {
    && (forall owner :: owner in c.pools ==> c.pools[owner].amount >= 0)
    && (forall i :: 0 <= i < |c.pending| && c.pending[i].read.Some? ==> ChainAmount(c.pending[i].read.value) >= 0)
  }

  lemma NextNothingNegative(self: Address, c: Caching, e: CacheEvent)
    requires NothingNegative(c)
    requires forall owner :: owner in c.chain.pools ==> c.chain.pools[owner].amount >= 0
    ensures NothingNegative(CacheNext(self, c, e))
  {
  }

  /**
   * No sequence of confirms, repeated or out of order, and of reconciles caught half-way,
   * ever makes a cached amount negative. What a reconcile writes back is never negative
   * because the contract's own pools are not.
   */
  lemma {:induction false} CacheNeverNegative(self: Address, c: Caching, es: seq<CacheEvent>)
    requires FreshCache(c) && CacheAllowed(self, c, es)
    ensures Sound(self, CachePlay(self, c, es).chain)
    ensures forall owner :: CachedRow(CachePlay(self, c, es).pools, owner).amount >= 0
    ensures NothingNegative(CachePlay(self, c, es))
  {
    if es == [] {
      DeployedIsSound(self, c.chain);
    } else {
      var before, e := es[..|es| - 1], es[|es| - 1];
      CacheNeverNegative(self, c, before);
      NextNothingNegative(self, CachePlay(self, c, before), e);
      if e.ChainMoves? {
        StepKeepsSound(self, CachePlay(self, c, before).chain, e.e);
      }
    }
  }
}
