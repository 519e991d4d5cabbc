/** What the mirror guarantees in every reachable state, and what it can never recover from. */
module ChequeGuarantees {
  import opened Options
  import opened Escrow
  import opened EscrowSolvency
  import opened EscrowSettlement
  import opened ChequeStore
  import opened ChequeService
  import opened ChequeMirror

  ghost predicate Reachable(self: Address, s: Sys)
  {
    exists start, hs :: Fresh(start) && AllowedPlay(self, start, hs) && Play(self, start, hs) == s
  }

  lemma ReachableInv(self: Address, s: Sys)
    requires Reachable(self, s)
    ensures Inv(s)
  {
    var start, hs :| Fresh(start) && AllowedPlay(self, start, hs) && Play(self, start, hs) == s;
    assert Consistent(start.db);
    PlayKeepsInv(self, start, hs);
  }

  /** Confirms are honest exactly when the chain history of the id says so. */
  lemma EvidenceIsHistory(self: Address, w: World, es: seq<Event>, id: ChequeId)
    requires Deployed(w)
    ensures var calls := Successes(self, w, es, id);
            var record := ChainState(Run(self, w, es), id);
            && (Funding(record) <==> calls != [] && calls[0].Lock?)
            && (record == Some(Claimed) <==> Claim(id) in calls)
            && (record == Some(Refunded) <==> Refund(id) in calls)
            && (record in {Some(Collected), Some(Bounced)} <==> calls != [] && calls[0].ForceCollect?)
  {
    SettledExactlyOnce(self, w, es, id);
    var calls := Successes(self, w, es, id);
    if |calls| == 1 {
      assert calls == [calls[0]];
    } else if |calls| == 2 {
      assert calls == [calls[0], calls[1]];
    }
  }

  // ---- Safety ------------------------------------------------------------

  /** The mirror never runs ahead of the chain, in any interleaving. */
  lemma MirrorNeverAhead(self: Address, s: Sys, id: ChequeId)
    requires Reachable(self, s) && id in s.db.cheques
    ensures Behind(s.db.cheques[id].state, ChainState(s.chain, id))
    ensures s.db.cheques[id].state !in {Taslak, Fonlaniyor, Hukumsuz}
  {
    ReachableInv(self, s);
  }

  ghost predicate SameRow(s: Sys, later: Sys, id: ChequeId)
    requires id in s.db.cheques && id in s.db.reservations
  {
    && id in later.db.cheques && later.db.cheques[id] == s.db.cheques[id]
    && id in later.db.reservations && later.db.reservations[id] == s.db.reservations[id]
    && LogOf(later.db.log, id) == LogOf(s.db.log, id)
  }

  lemma CreateLeavesRows(db: Db, newId: ChequeId, c: Cheque, id: ChequeId)
    requires Reserved(db) && id in db.cheques
    ensures var after := CreateStep(db, newId, c).db;
            && id in after.cheques && after.cheques[id] == db.cheques[id]
            && id in after.reservations && after.reservations[id] == db.reservations[id]
            && LogOf(after.log, id) == LogOf(db.log, id)
  {
    LogAppend(db.log, Entry(newId, Taslak, ImzaliRezerve), id);
  }

  lemma TransitionLeavesRows(db: Db, moved: ChequeId, from: State, to: State, id: ChequeId)
    requires Reserved(db) && id in db.cheques && (moved != id || db.cheques[id].state != from)
    ensures var after := TransitionStep(db, moved, from, to).db;
            && id in after.cheques && after.cheques[id] == db.cheques[id]
            && id in after.reservations && after.reservations[id] == db.reservations[id]
            && LogOf(after.log, id) == LogOf(db.log, id)
  {
    if MayShift(db, moved, from, to) {
      assert moved != id;
      LogAppend(db.log, Entry(moved, from, to), id);
    }
  }

  /** A row that no grounded request can move is left alone by everything. */
  lemma NextLeavesRow(self: Address, s: Sys, h: Happening, id: ChequeId)
    requires Reserved(s.db) && id in s.db.cheques
    requires h.Advance? && h.i < |s.tasks| && s.tasks[h.i].id == id && MoveOf(s.tasks[h.i]).Some?
             ==> MoveOf(s.tasks[h.i]).value.0 != s.db.cheques[id].state
    ensures SameRow(s, Next(self, s, h), id)
  {
    match h
    case OnChain(_) =>
    case Write(newId, c) => CreateLeavesRows(s.db, newId, c, id);
    case Arrive(_) =>
    case Advance(i, weather) =>
      if i < |s.tasks| {
        TurnMakesMove(self, s.chain, s.db, s.tasks[i], weather);
        if MoveOf(s.tasks[i]).Some? {
          TransitionLeavesRows(s.db, s.tasks[i].id, MoveOf(s.tasks[i]).value.0, MoveOf(s.tasks[i]).value.1, id);
        }
      }
    case Crash(_) =>
  }

  lemma TerminalMatches(s: Sys, id: ChequeId)
    requires Inv(s) && id in s.db.cheques && s.db.cheques[id].state.IsTerminal()
    ensures MatchesChain(s.db.cheques[id].state, ChainState(s.chain, id))
  {
    assert Behind(s.db.cheques[id].state, ChainState(s.chain, id));
  }

  ghost predicate KeptWithChain(s: Sys, later: Sys, id: ChequeId)
    requires id in s.db.cheques && id in s.db.reservations
  {
    SameRow(s, later, id) && ChainState(later.chain, id) == ChainState(s.chain, id)
  }

  lemma TerminalRecordStays(self: Address, chain: World, e: Event, id: ChequeId, local: State)
    requires Behind(local, ChainState(chain, id)) && local.IsTerminal()
    ensures ChainState(Step(self, chain, e), id) == ChainState(chain, id)
  {
    ChainFactsPersist(self, chain, e, id);
  }

  lemma TerminalRowStays(self: Address, s: Sys, h: Happening, id: ChequeId)
    requires Reserved(s.db) && AllGrounded(s) && id in s.db.cheques && s.db.cheques[id].state.IsTerminal()
    requires Behind(s.db.cheques[id].state, ChainState(s.chain, id))
    ensures KeptWithChain(s, Next(self, s, h), id)
  {
    if h.Advance? && h.i < |s.tasks| && MoveOf(s.tasks[h.i]).Some? {
      assert Grounded(s.chain, s.tasks[h.i]);
      GroundedMoves(s.chain, s.tasks[h.i]);
    }
    NextLeavesRow(self, s, h, id);
    if EventOf(s, h).Some? {
      TerminalRecordStays(self, s.chain, EventOf(s, h).value, id, s.db.cheques[id].state);
    }
  }

  lemma {:induction false} TerminalRowsStay(self: Address, s: Sys, more: seq<Happening>, id: ChequeId)
    requires Inv(s) && AllowedPlay(self, s, more)
    requires id in s.db.cheques && s.db.cheques[id].state.IsTerminal()
    ensures KeptWithChain(s, Play(self, s, more), id)
  {
    if more != [] {
      var before := more[..|more| - 1];
      TerminalRowsStay(self, s, before, id);
      PlayKeepsInv(self, s, before);
      TerminalRowStays(self, Play(self, s, before), more[|more| - 1], id);
    }
  }

  /**
   * A terminal row agrees with the chain and neither of them changes again, whatever is
   * still in flight: `/sync` may skip it.
   */
  lemma TerminalRowsMatchForever(self: Address, s: Sys, more: seq<Happening>, id: ChequeId)
    requires Reachable(self, s) && AllowedPlay(self, s, more)
    requires id in s.db.cheques && s.db.cheques[id].state.IsTerminal()
    ensures id in s.db.reservations
    ensures var later := Play(self, s, more);
            && SameRow(s, later, id) && !later.db.reservations[id].active
            && ChainState(later.chain, id) == ChainState(s.chain, id)
            && MatchesChain(later.db.cheques[id].state, ChainState(later.chain, id))
  {
    ReachableInv(self, s);
    TerminalMatches(s, id);
    TerminalRowsStay(self, s, more, id);
  }

  /** A cheque is open exactly while its reservation is active, and a sender has one open cheque at most. */
  lemma OpenExactlyWhileReserved(self: Address, s: Sys, id: ChequeId, other: ChequeId)
    requires Reachable(self, s) && id in s.db.cheques
    ensures id in s.db.reservations && s.db.reservations[id].account == s.db.cheques[id].sender
    ensures s.db.reservations[id].active <==> !s.db.cheques[id].state.IsTerminal()
    ensures other in s.db.cheques && other in s.db.reservations && other != id
              && s.db.reservations[id].active && s.db.reservations[other].active
            ==> s.db.cheques[other].sender != s.db.cheques[id].sender
  {
    ReachableInv(self, s);
  }

  /** Every cheque's log climbs from draft to its present state in at most five entries. */
  lemma LogClimbs(self: Address, s: Sys, id: ChequeId, to: State)
    requires Reachable(self, s) && id in s.db.cheques
    ensures IsStory(LogOf(s.db.log, id), s.db.cheques[id].state)
    ensures |LogOf(s.db.log, id)| <= 5
    ensures TransitionStep(s.db, id, s.db.cheques[id].state, to).fault == None
  {
    ReachableInv(self, s);
    StoryIsShort(LogOf(s.db.log, id), s.db.cheques[id].state);
    UniqueNeverRefuses(s.db, id, s.db.cheques[id].state, to);
  }

  /** One payment request of a receiver is answered by one cheque at most. */
  lemma RequestAnsweredOnce(self: Address, s: Sys, a: ChequeId, b: ChequeId)
    requires Reachable(self, s) && a in s.db.cheques && b in s.db.cheques
    requires s.db.cheques[a].requestId != "" && s.db.cheques[a].requestId == s.db.cheques[b].requestId
    requires s.db.cheques[a].receiver == s.db.cheques[b].receiver
    ensures a == b
  {
    ReachableInv(self, s);
  }

  /** An "already claimed" answer is true when given and stays true. */
  lemma {:induction false} AlreadyClaimedIsTrue(self: Address, s: Sys, more: seq<Happening>, i: nat)
    requires Inv(s) && AllowedPlay(self, s, more)
    requires i < |s.tasks| && s.tasks[i].Done? && s.tasks[i].reply == AlreadyClaimed
    ensures ChainState(Play(self, s, more).chain, s.tasks[i].id) == Some(Claimed)
  {
    if more == [] {
      assert Grounded(s.chain, s.tasks[i]);
    } else {
      var before, h := more[..|more| - 1], more[|more| - 1];
      AlreadyClaimedIsTrue(self, s, before, i);
      FactsPersist(self, Play(self, s, before), h, s.tasks[i].id);
    }
  }

  // ---- Replays and repair ------------------------------------------------

  lemma TransitionTwice(db: Db, id: ChequeId, from: State, to: State)
    requires from != to
    ensures TransitionStep(TransitionStep(db, id, from, to).db, id, from, to).db == TransitionStep(db, id, from, to).db
  {
  }

  /** D3: a confirm that arrives twice changes the tables no more than a confirm that arrives once. */
  lemma ConfirmsReplaySafely(self: Address, chain: World, db: Db, t: Task, now: Weather, again: Weather)
    requires t.ConfirmLock? || t.ConfirmClaim? || t.ConfirmForceCollect?
    ensures Alone(self, chain, Alone(self, chain, db, t, now).db, t, again) == Alone(self, chain, db, t, now)
  {
    var next := TaskStep(self, chain, db, t, now).task;
    if !next.Done? {
      var (from, to) := MoveOf(next).value;
      TransitionTwice(db, t.id, from, to);
      AloneUnfolds(self, chain, db, next, now);
      AloneUnfolds(self, chain, TransitionStep(db, t.id, from, to).db, next, again);
    }
  }

  /**
   * A lost lock confirm does not strand the receiver: asking for the claim transaction
   * while the chain is readable repairs the row from whatever the chain says.
   */
  lemma ClaimRepairsFromChain(self: Address, chain: World, db: Db, id: ChequeId, receiver: Address, now: Weather)
    requires Logged(db) && now.up
    requires id in db.cheques && db.cheques[id].receiver == receiver
    requires db.cheques[id].state == ImzaliRezerve || db.cheques[id].state == Fonlaniyor
    ensures var turn := Alone(self, chain, db, ClaimXdr(id, receiver), now);
            var row := db.cheques[id];
            && id in turn.db.cheques
            && (ChainState(chain, id) == Some(Funded) ==>
                  && turn.db.cheques[id] == row.(state := Havuzda)
                  && turn.task.reply == if Overdue(now, row.expiresAt) then Expired
                                         else if ClaimSimulates(self, chain, id) then Granted else SimulationFailed)
            && (ChainState(chain, id) == Some(Claimed) ==>
                  turn.db.cheques[id] == row.(state := TalepEdildi) && turn.task.reply == AlreadyClaimed)
            && (ChainState(chain, id) !in {Some(Funded), Some(Claimed)} ==>
                  turn.db == db && turn.task.reply == NotFunded)
  {
    var row := db.cheques[id];
    AloneUnfolds(self, chain, db, ClaimXdr(id, receiver), now);
    AskChainAlone(self, chain, db, id, row.state, row.expiresAt, now);
    match ChainState(chain, id)
    case Some(Funded) =>
      MoveCommits(db, id, row.state, Havuzda);
      BuildClaimAlone(self, chain, Shifted(db, id, row.state, Havuzda), id, row.expiresAt, now);
    case Some(Claimed) => MoveCommits(db, id, row.state, TalepEdildi);
    case _ =>
  }

  // ---- What is never given back ------------------------------------------

  /**
   * The clock alone releases nothing: while an id is unused on chain its cheque stays open,
   * its reservation stays active and its sender can write no other cheque, however long ago
   * the cheque expired.
   */
  lemma UnusedStaysReserved(self: Address, s: Sys, id: ChequeId, newId: ChequeId, c: Cheque)
    requires Reachable(self, s) && id in s.db.cheques && ChainState(s.chain, id) == None
    requires c.sender == s.db.cheques[id].sender
    ensures s.db.cheques[id].state in {ImzaliRezerve, ZorlaTahsilDenendi}
    ensures id in s.db.reservations && s.db.reservations[id].active
    ensures CreateStep(s.db, newId, c).fault != None && CreateStep(s.db, newId, c).db == s.db
  {
    ReachableInv(self, s);
    assert Behind(s.db.cheques[id].state, ChainState(s.chain, id));
    OneOpenChequePerSender(s.db, id, newId, c);
  }

  // ---- Runs from a fresh system -------------------------------------------

  lemma ReachNext(self: Address, s: Sys, h: Happening)
    requires Reachable(self, s) && Allowed(self, s, h)
    ensures Reachable(self, Next(self, s, h))
  {
    var start, hs :| Fresh(start) && AllowedPlay(self, start, hs) && Play(self, start, hs) == s;
    assert (hs + [h])[..|hs + [h]| - 1] == hs;
    assert AllowedPlay(self, start, hs + [h]) && Play(self, start, hs + [h]) == Next(self, s, h);
  }

  /** The one request in flight takes a turn. */
  lemma ReachTurn(self: Address, s: Sys, now: Weather) returns (t: Sys)
    requires Reachable(self, s) && |s.tasks| == 1
    ensures Reachable(self, t) && t.chain == ChainAfter(self, s, Advance(0, now))
    ensures var turn := TaskStep(self, s.chain, s.db, s.tasks[0], now); t.db == turn.db && t.tasks == [turn.task]
  {
    ReachNext(self, s, Advance(0, now));
    t := Next(self, s, Advance(0, now));
  }

  /** It takes one that leaves the chain alone. */
  lemma ReachQuietTurn(self: Address, s: Sys, now: Weather) returns (t: Sys)
    requires Reachable(self, s) && |s.tasks| == 1 && !s.tasks[0].SubmitRefund?
    ensures Reachable(self, t) && t.chain == s.chain
    ensures var turn := TaskStep(self, s.chain, s.db, s.tasks[0], now); t.db == turn.db && t.tasks == [turn.task]
  {
    t := ReachTurn(self, s, now);
  }

  /** A request arrives where none is in flight. */
  lemma ReachArrival(self: Address, s: Sys, r: Task) returns (t: Sys)
    requires Reachable(self, s) && s.tasks == [] && IsRequest(r) && Honest(s.chain, r)
    ensures Reachable(self, t) && t.chain == s.chain && t.db == s.db && t.tasks == [r]
  {
    ReachNext(self, s, Arrive(r));
    t := Next(self, s, Arrive(r));
  }

  /** The one request in flight dies. */
  lemma ReachCrash(self: Address, s: Sys) returns (t: Sys)
    requires Reachable(self, s) && |s.tasks| == 1
    ensures Reachable(self, t) && t.chain == s.chain && t.db == s.db && t.tasks == []
  {
    ReachNext(self, s, Crash(0));
    t := Next(self, s, Crash(0));
  }

  lemma FreshIsReachable(self: Address, s: Sys)
    requires Fresh(s)
    ensures Reachable(self, s)
  {
    assert AllowedPlay(self, s, []) && Play(self, s, []) == s;
  }

  lemma SmallSupplyIsHonest(token: Address, who: Address)
    ensures HonestTokens(map[(token, who) := 10])
  {
    var empty: Balances := map[];
    forall t ensures Supply(map[(token, who) := 10], t) <= I128_MAX {
      assert HoldingsIn(empty, t) == map[];
      SupplyAfterSet(empty, token, who, 10, t);
      assert empty[(token, who) := 10] == map[(token, who) := 10];
    }
  }

  /** A cheque over ten units that expires a week after the epoch. */
  function WeekCheque(sender: Address, receiver: Address, token: Address): Cheque
  {
    Cheque(sender, receiver, "", token, 10, 604800 * MICROS_PER_SECOND, ImzaliRezerve)
  }

  /** The sender signs cheque 1, and ledger time passes. */
  lemma SignedAndWaited(self: Address, sender: Address, receiver: Address, token: Address, b: Balances, clock: nat)
    returns (s: Sys)
    requires sender != receiver && HonestTokens(b)
    ensures Reachable(self, s) && s.tasks == []
    ensures s.chain == World(b, map[], map[], clock)
    ensures s.db.cheques == map[1 := WeekCheque(sender, receiver, token)] && s.db.log == [Entry(1, Taslak, ImzaliRezerve)]
  {
    var start := Sys(World(b, map[], map[], 0), Db(map[], map[], [], map[]), []);
    FreshIsReachable(self, start);
    var row := WeekCheque(sender, receiver, token);
    assert CreateRefusal(start.db, 1, row) == None;
    ReachNext(self, start, Write(1, row));
    var signed := Next(self, start, Write(1, row));
    ReachNext(self, signed, OnChain(Tick(clock)));
    s := Next(self, signed, OnChain(Tick(clock)));
  }

  /** So a cheque that was never funded and expired long ago is still open and still reserved. */
  lemma ExpiredIsStillReserved(self: Address, sender: Address, receiver: Address, token: Address, clock: nat)
    returns (s: Sys)
    requires sender != receiver && clock > 604800
    ensures Reachable(self, s) && 1 in s.db.cheques && 1 in s.db.reservations
    ensures s.chain.now > s.db.cheques[1].expiresAt / MICROS_PER_SECOND && ChainState(s.chain, 1) == None
    ensures s.db.cheques[1].state == ImzaliRezerve && s.db.reservations[1].active
  {
    SmallSupplyIsHonest(token, sender);
    s := SignedAndWaited(self, sender, receiver, token, map[(token, sender) := 10], clock);
    ReachableInv(self, s);
  }
}
