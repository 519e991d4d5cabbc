/**
 * How one cheque id lives on chain: it is used once, ends once, moves exactly the tokens
 * its final state names, and never gets stuck.
 */
module EscrowSettlement {
  import opened Escrow
  import opened EscrowSolvency

  predicate Names(call: Call, id: ChequeId)
  {
    match call
    case Lock(_, i, _, _, _, _) => i == id
    case Claim(i) => i == id
    case Refund(i) => i == id
    case ForceCollect(_, i, _, _, _, _) => i == id
    case Deposit(_, _, _) => false
    case Withdraw(_, _) => false
  }

  predicate Acts(self: Address, w: World, e: Event, id: ChequeId)
  {
    e.Invoke? && Names(e.call, id) && Execute(self, w, e.auths, e.call).outcome.Succeeded()
  }

  /** The calls on `id` that succeeded during a run, in order. */
  function Successes(self: Address, w: World, es: seq<Event>, id: ChequeId): seq<Call>
  {
    if es == [] then []
    else
      var before, e := es[..|es| - 1], es[|es| - 1];
      Successes(self, w, before, id) + if Acts(self, Run(self, w, before), e, id) then [e.call] else []
  }

  /** What all calls on `id` together added to `who`'s balance of `token`. */
  function Flow(self: Address, w: World, es: seq<Event>, id: ChequeId, token: Address, who: Address): int
  {
    if es == [] then 0
    else
      var before, e := es[..|es| - 1], es[|es| - 1];
      var w' := Run(self, w, before);
      Flow(self, w, before, id, token, who)
      + if e.Invoke? && Names(e.call, id)
        then BalanceOf(Step(self, w', e).balances, token, who) - BalanceOf(w'.balances, token, who)
        else 0
  }

  /** The record a first use of an id writes. */
  function Terms(call: Call, state: ChequeState): ChequeRecord
    requires call.Lock? || call.ForceCollect?
  {
    ChequeRecord(call.sender, call.receiver, call.token, call.amount, call.expiresAt, state)
  }

  /** The only histories a cheque id can have, each with the record it leaves behind. */
  predicate LegalHistory(history: seq<Call>, id: ChequeId, cheques: map<ChequeId, ChequeRecord>)
  {
    if id !in cheques then history == []
    else
      var record := cheques[id];
      && 1 <= |history| <= 2
      && Names(history[0], id)
      && (|history| == 1 ==>
            || (history[0].Lock? && record == Terms(history[0], Funded))
            || (history[0].ForceCollect? && record == Terms(history[0], Collected))
            || (history[0].ForceCollect? && record == Terms(history[0], Bounced)))
      && (|history| == 2 ==>
            || (history[0].Lock? && history[1] == Claim(id) && record == Terms(history[0], Claimed))
            || (history[0].Lock? && history[1] == Refund(id) && record == Terms(history[0], Refunded)))
  }

  /** What a record in its present state says has moved for it. */
  function NamedFlow(self: Address, id: ChequeId, cheques: map<ChequeId, ChequeRecord>, token: Address, who: Address): int
  {
    if id !in cheques then 0
    else
      var r := cheques[id];
      match r.state
      case Funded => Delta(r.token, r.sender, self, r.amount, token, who)
      case Claimed => Delta(r.token, r.sender, r.receiver, r.amount, token, who)
      case Refunded => 0
      case Collected => Delta(r.token, r.sender, r.receiver, r.amount, token, who)
      case Bounced => 0
  }

  // ---- One step ----------------------------------------------------------

  lemma FailedCallLeavesWorld(self: Address, w: World, auths: set<Address>, call: Call)
    requires !Execute(self, w, auths, call).outcome.Succeeded()
    ensures Execute(self, w, auths, call).world == w
  {
  }

  lemma UnnamedCallLeavesRecord(self: Address, w: World, auths: set<Address>, call: Call, id: ChequeId)
    requires !Names(call, id)
    ensures var after := Execute(self, w, auths, call).world;
            (id in after.cheques <==> id in w.cheques) && (id in w.cheques ==> after.cheques[id] == w.cheques[id])
  {
  }

  lemma OthersLeaveRecord(self: Address, w: World, e: Event, id: ChequeId)
    requires !Acts(self, w, e, id)
    ensures id in Step(self, w, e).cheques <==> id in w.cheques
    ensures id in w.cheques ==> Step(self, w, e).cheques[id] == w.cheques[id]
    ensures e.Invoke? && Names(e.call, id) ==> Step(self, w, e) == w
  {
    if e.Invoke? {
      if Names(e.call, id) {
        FailedCallLeavesWorld(self, w, e.auths, e.call);
      } else {
        UnnamedCallLeavesRecord(self, w, e.auths, e.call, id);
      }
    }
  }

  /** A settled cheque takes part in nothing any more. */
  lemma SettledActsNoMore(self: Address, w: World, e: Event, id: ChequeId)
    requires id in w.cheques && w.cheques[id].state != Funded
    ensures !Acts(self, w, e, id)
  {
  }

  /**
   * A force collect settles an unused id exactly during the last day before expiry, and then
   * never fails: it moves the whole amount if the sender has it, and nothing at all if not.
   */
  lemma ForceCollectSettlesInLastDay(self: Address, w: World, auths: set<Address>, call: Call)
    requires call.ForceCollect?
    ensures var effect := Execute(self, w, auths, call);
            && (effect.outcome.Succeeded()
                <==> call.sender in auths && call.id !in w.cheques && call.amount > 0
                     && call.expiresAt - 24 * 60 * 60 <= w.now < call.expiresAt)
            && (effect.outcome.Succeeded() ==>
                  if BalanceOf(w.balances, call.token, call.sender) < call.amount
                  then effect.outcome == Settled(Bounced) && effect.world.balances == w.balances
                  else effect.outcome == Settled(Collected)
                       && forall held, who :: BalanceOf(effect.world.balances, held, who)
                            == BalanceOf(w.balances, held, who) + Delta(call.token, call.sender, call.receiver, call.amount, held, who))
  {
    forall held, who
      ensures BalanceOf(Moved(w.balances, call.token, call.sender, call.receiver, call.amount), held, who)
           == BalanceOf(w.balances, held, who) + Delta(call.token, call.sender, call.receiver, call.amount, held, who)
    {
      BalanceAfterMove(w.balances, call.token, call.sender, call.receiver, call.amount, held, who);
    }
  }

  lemma FlowOfFirstUse(self: Address, w: World, auths: set<Address>, call: Call, token: Address, who: Address)
    requires call.Lock? || call.ForceCollect?
    requires Execute(self, w, auths, call).outcome.Succeeded()
    ensures BalanceOf(Execute(self, w, auths, call).world.balances, token, who) - BalanceOf(w.balances, token, who)
         == NamedFlow(self, call.id, Execute(self, w, auths, call).world.cheques, token, who)
  {
    var dst := if call.Lock? then self else call.receiver;
    BalanceAfterMove(w.balances, call.token, call.sender, dst, call.amount, token, who);
  }

  lemma FlowOfPayOut(self: Address, w: World, id: ChequeId, to: Address, end: ChequeState, token: Address, who: Address)
    requires id in w.cheques && w.cheques[id].state == Funded
    requires PayOut(self, w, id, to, end).outcome.Succeeded()
    requires (end == Claimed && to == w.cheques[id].receiver) || (end == Refunded && to == w.cheques[id].sender)
    ensures BalanceOf(PayOut(self, w, id, to, end).world.balances, token, who) - BalanceOf(w.balances, token, who)
         == NamedFlow(self, id, PayOut(self, w, id, to, end).world.cheques, token, who)
            - NamedFlow(self, id, w.cheques, token, who)
  {
  }

  lemma FlowOfAct(self: Address, w: World, e: Event, id: ChequeId, token: Address, who: Address)
    requires Acts(self, w, e, id)
    ensures BalanceOf(Step(self, w, e).balances, token, who) - BalanceOf(w.balances, token, who)
         == NamedFlow(self, id, Step(self, w, e).cheques, token, who) - NamedFlow(self, id, w.cheques, token, who)
  {
    match e.call
    case Lock(_, _, _, _, _, _) => FlowOfFirstUse(self, w, e.auths, e.call, token, who);
    case Claim(_) => FlowOfPayOut(self, w, id, w.cheques[id].receiver, Claimed, token, who);
    case Refund(_) => FlowOfPayOut(self, w, id, w.cheques[id].sender, Refunded, token, who);
    case ForceCollect(_, _, _, _, _, _) => FlowOfFirstUse(self, w, e.auths, e.call, token, who);
  }

  // ---- Exactly-once settlement -------------------------------------------

  /** At most one first use, at most one payout after a lock, and the record tells which. */
  lemma {:induction false} SettledExactlyOnce(self: Address, w: World, es: seq<Event>, id: ChequeId)
    requires id !in w.cheques
    ensures LegalHistory(Successes(self, w, es, id), id, Run(self, w, es).cheques)
  {
    if es != [] {
      var before, e := es[..|es| - 1], es[|es| - 1];
      SettledExactlyOnce(self, w, before, id);
      if !Acts(self, Run(self, w, before), e, id) {
        OthersLeaveRecord(self, Run(self, w, before), e, id);
      }
    }
  }

  /** The net tokens moved for an id are exactly those its present record names. */
  lemma {:induction false} MovedWhatRecordNames(self: Address, w: World, es: seq<Event>, id: ChequeId, token: Address, who: Address)
    requires id !in w.cheques
    ensures Flow(self, w, es, id, token, who) == NamedFlow(self, id, Run(self, w, es).cheques, token, who)
  {
    if es != [] {
      var before, e := es[..|es| - 1], es[|es| - 1];
      MovedWhatRecordNames(self, w, before, id, token, who);
      if Acts(self, Run(self, w, before), e, id) {
        FlowOfAct(self, Run(self, w, before), e, id, token, who);
      } else {
        OthersLeaveRecord(self, Run(self, w, before), e, id);
      }
    }
  }

  /** Terms are written once; only a funded cheque can still change state, and only by ending. */
  ghost predicate Evolves(self: Address, w: World, later: World, id: ChequeId)
  {
    id in w.cheques ==>
      && id in later.cheques
      && later.cheques[id].(state := w.cheques[id].state) == w.cheques[id]
      && (later.cheques[id].state == w.cheques[id].state
          || (w.cheques[id].state == Funded && later.cheques[id].state in {Claimed, Refunded}))
  }

  lemma {:induction false} RunAppend(self: Address, w: World, es: seq<Event>, more: seq<Event>)
    ensures Run(self, w, es + more) == Run(self, Run(self, w, es), more)
    ensures AdmissibleRun(self, w, es + more)
       <==> AdmissibleRun(self, w, es) && AdmissibleRun(self, Run(self, w, es), more)
  {
    if more == [] {
      assert es + more == es;
    } else {
      RunAppend(self, w, es, more[..|more| - 1]);
      assert (es + more)[..|es + more| - 1] == es + more[..|more| - 1];
    }
  }

  lemma {:induction false} RecordsEvolve(self: Address, w: World, es: seq<Event>, id: ChequeId)
    ensures Evolves(self, w, Run(self, w, es), id)
  {
    if es != [] {
      var before, e := es[..|es| - 1], es[|es| - 1];
      RecordsEvolve(self, w, before, id);
      if !Acts(self, Run(self, w, before), e, id) {
        OthersLeaveRecord(self, Run(self, w, before), e, id);
      }
    }
  }

  // ---- No stuck funds ----------------------------------------------------

  /**
   * The clock decides alone: before expiry the receiver's claim goes through in full and a
   * refund is refused, from expiry on anybody's refund goes through, pays the sender back in
   * full, and a claim is refused.
   */
  ghost predicate ExactlyOnePayout(self: Address, w: World, auths: set<Address>, id: ChequeId)
    requires id in w.cheques
  {
    var r := w.cheques[id];
    var claim, refund := ClaimStep(self, w, auths, id), RefundStep(self, w, id);
    if w.now < r.expiresAt then
      && refund.outcome == Err(ChequeNotExpired)
      && (r.receiver in auths ==>
            && claim.outcome == Ok && claim.world.cheques[id] == r.(state := Claimed)
            && forall token, who :: BalanceOf(claim.world.balances, token, who)
                 == BalanceOf(w.balances, token, who) + Delta(r.token, self, r.receiver, r.amount, token, who))
    else
      && (r.receiver in auths ==> claim.outcome == Err(ChequeExpired))
      && refund.outcome == Ok && refund.world.cheques[id] == r.(state := Refunded)
      && forall token, who :: BalanceOf(refund.world.balances, token, who)
           == BalanceOf(w.balances, token, who) + Delta(r.token, self, r.sender, r.amount, token, who)
  }

  lemma OnePayoutAlwaysOpen(self: Address, w: World, auths: set<Address>, id: ChequeId)
    requires Sound(self, w)
    requires id in w.cheques && w.cheques[id].state == Funded
    ensures ExactlyOnePayout(self, w, auths, id)
  {
    CustodyCovers(self, w);
    var r := w.cheques[id];
    forall token, who, to
      ensures BalanceOf(Moved(w.balances, r.token, self, to, r.amount), token, who)
           == BalanceOf(w.balances, token, who) + Delta(r.token, self, to, r.amount, token, who)
    {
      BalanceAfterMove(w.balances, r.token, self, to, r.amount, token, who);
    }
  }

  /** No funds get stuck: so it is in every state a run reaches. */
  lemma NoStuckFunds(self: Address, w: World, es: seq<Event>, auths: set<Address>, id: ChequeId)
    requires Deployed(w) && AdmissibleRun(self, w, es)
    requires id in Run(self, w, es).cheques && Run(self, w, es).cheques[id].state == Funded
    ensures ExactlyOnePayout(self, Run(self, w, es), auths, id)
  {
    DeployedIsSound(self, w);
    RunKeepsSound(self, w, es);
    OnePayoutAlwaysOpen(self, Run(self, w, es), auths, id);
  }

  /** A refundable cheque that has been left alone, or the same cheque refunded. */
  ghost predicate RefundableOrRefunded(self: Address, w: World, later: World, history: seq<Call>, id: ChequeId)
    requires id in w.cheques
  {
    && later.now >= w.now
    && id in later.cheques
    && (|| (history == [] && later.cheques[id] == w.cheques[id] && RefundStep(self, later, id).outcome == Ok)
        || (history == [Refund(id)] && later.cheques[id] == w.cheques[id].(state := Refunded)))
  }

  lemma OverdueEventRefundsOrLeaves(self: Address, w: World, e: Event, id: ChequeId)
    requires Sound(self, w) && Admissible(self, w, e)
    requires id in w.cheques && w.cheques[id].state == Funded && w.now >= w.cheques[id].expiresAt
    ensures var later := Step(self, w, e);
            && later.now >= w.now && id in later.cheques
            && (if Acts(self, w, e, id) then e.call == Refund(id) && later.cheques[id] == w.cheques[id].(state := Refunded)
                else later.cheques[id] == w.cheques[id])
  {
    if !Acts(self, w, e, id) {
      OthersLeaveRecord(self, w, e, id);
    }
  }

  /** Once refundable, a cheque stays refundable until the one call that refunds it. */
  lemma {:induction false} RefundableUntilRefunded(self: Address, w: World, more: seq<Event>, id: ChequeId)
    requires Sound(self, w) && AdmissibleRun(self, w, more)
    requires id in w.cheques && w.cheques[id].state == Funded && w.now >= w.cheques[id].expiresAt
    ensures RefundableOrRefunded(self, w, Run(self, w, more), Successes(self, w, more, id), id)
  {
    if more == [] {
      OnePayoutAlwaysOpen(self, w, {}, id);
    } else {
      var before, e := more[..|more| - 1], more[|more| - 1];
      var mid := Run(self, w, before);
      RefundableUntilRefunded(self, w, before, id);
      RunKeepsSound(self, w, before);
      if mid.cheques[id].state == Funded {
        OverdueEventRefundsOrLeaves(self, mid, e, id);
        RunKeepsSound(self, w, more);
        if !Acts(self, mid, e, id) {
          OnePayoutAlwaysOpen(self, Step(self, mid, e), {}, id);
        }
      } else {
        SettledActsNoMore(self, mid, e, id);
        OthersLeaveRecord(self, mid, e, id);
        TimeOnlyPasses(self, mid, e);
      }
    }
  }

  /** So it is from any moment of any run: a cheque overdue after `es` is refundable until refunded. */
  lemma OverdueStaysRefundable(self: Address, w: World, es: seq<Event>, more: seq<Event>, id: ChequeId)
    requires Deployed(w) && AdmissibleRun(self, w, es + more)
    requires var due := Run(self, w, es);
             id in due.cheques && due.cheques[id].state == Funded && due.now >= due.cheques[id].expiresAt
    ensures RefundableOrRefunded(self, Run(self, w, es), Run(self, w, es + more), Successes(self, Run(self, w, es), more, id), id)
  {
    RunAppend(self, w, es, more);
    DeployedIsSound(self, w);
    RunKeepsSound(self, w, es);
    RefundableUntilRefunded(self, Run(self, w, es), more, id);
  }

  lemma TimeOnlyPasses(self: Address, w: World, e: Event)
    requires Admissible(self, w, e)
    ensures Step(self, w, e).now >= w.now
  {
  }
}
