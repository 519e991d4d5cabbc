/** Every way for a row to die happens, in a run from a fresh system. */
module ChequeDeaths {
  import opened Options
  import opened Escrow
  import opened EscrowSolvency
  import opened EscrowSettlement
  import opened ChequeStore
  import opened ChequeService
  import opened ChequeMirror
  import opened ChequeGuarantees
  import opened ChequeStuck

  /** The one request in flight moves its row. */
  lemma ReachMove(self: Address, s: Sys, now: Weather) returns (t: Sys)
    requires Reachable(self, s) && |s.tasks| == 1 && MoveOf(s.tasks[0]).Some?
    requires s.tasks[0].id in s.db.cheques && s.db.cheques[s.tasks[0].id].state == MoveOf(s.tasks[0]).value.0
    ensures Reachable(self, t) && t.chain == s.chain && |t.tasks| == 1
    ensures t.tasks[0] == TaskStep(self, s.chain, s.db, s.tasks[0], now).task
    ensures var id, to := s.tasks[0].id, MoveOf(s.tasks[0]).value.1;
            t.db.cheques == s.db.cheques[id := s.db.cheques[id].(state := to)]
  {
    ReachableInv(self, s);
    t := ReachQuietTurn(self, s, now);
    TurnMakesMove(self, s.chain, s.db, s.tasks[0], now);
    MoveCommits(s.db, s.tasks[0].id, MoveOf(s.tasks[0]).value.0, MoveOf(s.tasks[0]).value.1);
  }

  // ---- Marked in the cheque's last day -------------------------------------

  lemma NothingIsHonest()
    ensures HonestTokens(map[])
  {
    var none: Balances := map[];
    forall token ensures Supply(none, token) <= I128_MAX {
      assert HoldingsIn(none, token) == map[];
    }
  }

  /** Ledger time 561600 is the middle of the cheque's last day, and nobody has anything. */
  function BrokeLastDay(): World
  {
    World(map[], map[], map[], 561600)
  }

  lemma RaceSimulates(self: Address, sender: Address, receiver: Address, token: Address)
    requires self != sender && sender != receiver
    ensures ForceSimulates(self, BrokeLastDay(), 1, WeekCheque(sender, receiver, token))
    ensures Execute(self, BrokeLastDay(), {sender}, ForceCall(1, WeekCheque(sender, receiver, token))).outcome == Settled(Bounced)
  {
    ScVal.EncodeThenDecode(10);
    assert {sender} - {self} == {sender};
    ForceCollectSettlesInLastDay(self, BrokeLastDay(), {sender}, ForceCall(1, WeekCheque(sender, receiver, token)));
  }

  /** Half a day before expiry the receiver asks to force-collect, and the simulation says it would bounce. */
  lemma RaceAsks(self: Address, sender: Address, receiver: Address, token: Address) returns (s: Sys)
    requires self != sender && sender != receiver
    ensures Reachable(self, s) && s.chain == BrokeLastDay() && s.tasks == [MarkForced(1, ImzaliRezerve)]
    ensures s.db.cheques == map[1 := WeekCheque(sender, receiver, token)] && s.db.log == [Entry(1, Taslak, ImzaliRezerve)]
  {
    var fair := Weather(true, 0);
    NothingIsHonest();
    var signed := SignedAndWaited(self, sender, receiver, token, map[], 561600);
    RaceSimulates(self, sender, receiver, token);
    var asked := ReachArrival(self, signed, ForceCollectXdr(1, receiver));
    var read := ReachQuietTurn(self, asked, fair);
    assert read.tasks == [SimulateForce(1, WeekCheque(sender, receiver, token))];
    s := ReachQuietTurn(self, read, fair);
  }

  lemma RaceMarks(self: Address, sender: Address, receiver: Address, token: Address) returns (s: Sys)
    requires self != sender && sender != receiver
    ensures Reachable(self, s) && s.chain == BrokeLastDay()
    ensures 1 in s.db.cheques && s.db.cheques[1].state == ZorlaTahsilDenendi
  {
    var asked := RaceAsks(self, sender, receiver, token);
    s := ReachMove(self, asked, Weather(true, 0));
  }

  /** The mark is written, and then the sender comes by the money and locks after all. */
  lemma LockedAfterMarkIsReachable(self: Address, sender: Address, receiver: Address, token: Address) returns (s: Sys)
    requires self != sender && sender != receiver
    ensures Reachable(self, s) && 1 in s.db.cheques && Dead(s, 1)
    ensures s.db.cheques[1].state == ZorlaTahsilDenendi && ChainState(s.chain, 1) == Some(Funded)
  {
    var marked := RaceMarks(self, sender, receiver, token);
    var paid := OnChain(Elsewhere(map[(token, sender) := 10]));
    var lock := OnChain(Invoke({sender}, Lock(sender, 1, receiver, token, 10, 604800)));
    SmallSupplyIsHonest(token, sender);
    ReachNext(self, marked, paid);
    ReachNext(self, Next(self, marked, paid), lock);
    s := Next(self, Next(self, marked, paid), lock);
  }

  /** The mark is lost, which the service ignores, and the force collect is carried out. */
  lemma BouncedWithoutMarkIsReachable(self: Address, sender: Address, receiver: Address, token: Address) returns (s: Sys)
    requires self != sender && sender != receiver
    ensures Reachable(self, s) && 1 in s.db.cheques && Dead(s, 1)
    ensures s.db.cheques[1].state == ImzaliRezerve && ChainState(s.chain, 1) == Some(Bounced)
  {
    var asked := RaceAsks(self, sender, receiver, token);
    var force := OnChain(Invoke({sender}, ForceCall(1, WeekCheque(sender, receiver, token))));
    RaceSimulates(self, sender, receiver, token);
    var lost := ReachCrash(self, asked);
    ReachNext(self, lost, force);
    s := Next(self, lost, force);
  }

  // ---- Refunded without a record of it -------------------------------------

  /** A lock of cheque 1 for `to`. */
  lemma Locks(self: Address, sender: Address, receiver: Address, to: Address, token: Address) returns (s: Sys)
    requires sender != self && sender != receiver && sender != to
    ensures Reachable(self, s) && s.tasks == [] && s.chain.now == 0
    ensures s.chain.cheques == map[1 := ChequeRecord(sender, to, token, 10, 604800, Funded)]
    ensures s.db.cheques == map[1 := WeekCheque(sender, receiver, token)] && s.db.log == [Entry(1, Taslak, ImzaliRezerve)]
  {
    SmallSupplyIsHonest(token, sender);
    var signed := SignedAndWaited(self, sender, receiver, token, map[(token, sender) := 10], 0);
    var lock := Invoke({sender}, Lock(sender, 1, to, token, 10, 604800));
    ReachNext(self, signed, OnChain(lock));
    s := Next(self, signed, OnChain(lock));
  }

  lemma ReadsConfirm(self: Address, s: Sys, sender: Address) returns (t: Sys)
    requires Reachable(self, s) && s.tasks == [] && Funding(ChainState(s.chain, 1))
    requires 1 in s.db.cheques && s.db.cheques[1].sender == sender
    ensures Reachable(self, t) && t.chain == s.chain && t.db == s.db && t.tasks == [MarkLocked(1)]
  {
    var asked := ReachArrival(self, s, ConfirmLock(1, sender));
    t := ReachQuietTurn(self, asked, Weather(true, 0));
  }

  /** The lock is confirmed, and the row is in the pool. */
  lemma Confirms(self: Address, sender: Address, receiver: Address, to: Address, token: Address) returns (s: Sys)
    requires sender != self && sender != receiver && sender != to
    ensures Reachable(self, s) && s.tasks == [Done(1, Granted)] && s.chain.now == 0
    ensures s.chain.cheques == map[1 := ChequeRecord(sender, to, token, 10, 604800, Funded)]
    ensures s.db.cheques == map[1 := WeekCheque(sender, receiver, token).(state := Havuzda)]
  {
    var locked := Locks(self, sender, receiver, to, token);
    var read := ReadsConfirm(self, locked, sender);
    assert MoveOf(read.tasks[0]) == Some((ImzaliRezerve, Havuzda));
    s := ReachMove(self, read, Weather(true, 0));
    assert s.tasks == [s.tasks[0]];
  }

  /** The confirmed cheque expires, and nothing is in flight. */
  lemma Expires(self: Address, sender: Address, receiver: Address, token: Address) returns (s: Sys)
    requires sender != self && sender != receiver
    ensures Reachable(self, s) && s.tasks == [] && s.chain.now == 604800
    ensures s.chain.cheques == map[1 := ChequeRecord(sender, receiver, token, 10, 604800, Funded)]
    ensures s.db.cheques == map[1 := WeekCheque(sender, receiver, token).(state := Havuzda)]
    ensures RefundStep(self, s.chain, 1).outcome == Ok
  {
    var confirmed := Confirms(self, sender, receiver, receiver, token);
    var quiet := ReachCrash(self, confirmed);
    ReachNext(self, quiet, OnChain(Tick(604800)));
    s := Next(self, quiet, OnChain(Tick(604800)));
    ReachableSound(self, s);
    OnePayoutAlwaysOpen(self, s.chain, {}, 1);
  }

  /** Somebody else submits the refund, as anybody may. */
  lemma RefundedByOthersIsReachable(self: Address, sender: Address, receiver: Address, token: Address) returns (s: Sys)
    requires sender != self && sender != receiver
    ensures Reachable(self, s) && 1 in s.db.cheques && Dead(s, 1)
    ensures s.db.cheques[1].state == Havuzda && ChainState(s.chain, 1) == Some(Refunded)
  {
    var expired := Expires(self, sender, receiver, token);
    var refund := OnChain(Invoke({}, Refund(1)));
    ReachNext(self, expired, refund);
    s := Next(self, expired, refund);
  }

  /** The sweep lists the row. */
  lemma SchedulerLists(self: Address, sender: Address, receiver: Address, token: Address) returns (s: Sys)
    requires sender != self && sender != receiver
    ensures Reachable(self, s) && s.tasks == [SubmitRefund(1)] && RefundStep(self, s.chain, 1).outcome == Ok
    ensures s.db.cheques == map[1 := WeekCheque(sender, receiver, token).(state := Havuzda)]
  {
    var expired := Expires(self, sender, receiver, token);
    var asked := ReachArrival(self, expired, SweepExpired(1));
    s := ReachQuietTurn(self, asked, Weather(true, 604800 * MICROS_PER_SECOND * NANOS_PER_MICRO));
  }

  lemma RefundIsSubmitted(self: Address, w: World, id: ChequeId)
    requires RefundStep(self, w, id).outcome == Ok
    ensures ChainState(Step(self, w, Invoke({}, Refund(id))), id) == Some(Refunded)
  {
  }

  lemma RefundTurn(self: Address, s: Sys, id: ChequeId, now: Weather)
    requires s.tasks == [SubmitRefund(id)] && now.up && RefundStep(self, s.chain, id).outcome == Ok
    ensures TaskStep(self, s.chain, s.db, s.tasks[0], now) == Turn(s.db, MarkRefundable(id))
    ensures ChainAfter(self, s, Advance(0, now)) == Step(self, s.chain, Invoke({}, Refund(id)))
  {
  }

  lemma ReachRefund(self: Address, s: Sys, id: ChequeId, now: Weather) returns (t: Sys)
    requires Reachable(self, s) && s.tasks == [SubmitRefund(id)] && now.up && RefundStep(self, s.chain, id).outcome == Ok
    ensures Reachable(self, t) && t.db == s.db && t.tasks == [MarkRefundable(id)]
    ensures ChainState(t.chain, id) == Some(Refunded)
  {
    RefundIsSubmitted(self, s.chain, id);
    RefundTurn(self, s, id, now);
    t := ReachTurn(self, s, now);
  }

  /** And its own refund goes through. */
  lemma SchedulerRefunds(self: Address, sender: Address, receiver: Address, token: Address) returns (s: Sys)
    requires sender != self && sender != receiver
    ensures Reachable(self, s) && s.tasks == [MarkRefundable(1)] && ChainState(s.chain, 1) == Some(Refunded)
    ensures s.db.cheques == map[1 := WeekCheque(sender, receiver, token).(state := Havuzda)]
  {
    var listed := SchedulerLists(self, sender, receiver, token);
    s := ReachRefund(self, listed, 1, Weather(true, 0));
  }

  /** The scheduler dies, or its call fails, before the refund is recorded. */
  lemma RefundLostIsReachable(self: Address, sender: Address, receiver: Address, token: Address) returns (s: Sys)
    requires sender != self && sender != receiver
    ensures Reachable(self, s) && 1 in s.db.cheques && Dead(s, 1)
    ensures s.db.cheques[1].state == Havuzda && ChainState(s.chain, 1) == Some(Refunded)
  {
    var refunded := SchedulerRefunds(self, sender, receiver, token);
    s := ReachCrash(self, refunded);
  }

  /** The service dies between the two transactions that record it. */
  lemma RefundHalfRecordedIsReachable(self: Address, sender: Address, receiver: Address, token: Address) returns (s: Sys)
    requires sender != self && sender != receiver
    ensures Reachable(self, s) && 1 in s.db.cheques && Dead(s, 1)
    ensures s.db.cheques[1].state == IadeEdilebilir && ChainState(s.chain, 1) == Some(Refunded)
  {
    var refunded := SchedulerRefunds(self, sender, receiver, token);
    var half := ReachMove(self, refunded, Weather(true, 0));
    s := ReachCrash(self, half);
  }
}
