/**
 * The cheque service's tables and the transactions over them.
 *
 * A `Db` is one consistent state of the tables; each repository method is one atomic
 * transaction, given as a step on a `Db` and as a method of `Repository` that updates the
 * tables statement by statement and rolls back where the transaction would.
 */
module ChequeStore {
  import opened Options
  import opened Escrow

  datatype State =
    | Taslak
    | ImzaliRezerve
    | Fonlaniyor
    | Havuzda
    | TalepEdildi
    | Onaylandi
    | Kapandi
    | IadeEdilebilir
    | IadeEdildi
    | Hukumsuz
    | ZorlaTahsilDenendi
    | Karsiliksiz
  {
    predicate IsTerminal()
    {
      Kapandi? || IadeEdildi? || Hukumsuz? || Karsiliksiz?
    }
  }

  /** `expiresAt` is in microseconds, as the database keeps it. */
  datatype Cheque = Cheque(
    sender: Address, receiver: Address, requestId: string, token: Address, amount: int, expiresAt: nat, state: State)

  datatype Reservation = Reservation(account: Address, active: bool)

  datatype Entry = Entry(id: ChequeId, from: State, to: State)

  datatype PoolRow = PoolRow(amount: int, decimals: nat)

  datatype Db = Db(
    cheques: map<ChequeId, Cheque>, reservations: map<ChequeId, Reservation>, log: seq<Entry>,
    pools: map<Address, PoolRow>)

  datatype Fault =
    | AlreadyActive
    | NotFound
    | RequestUsed
    | BadTransition
    | ConstraintViolated

  datatype Commit = Commit(db: Db, fault: Option<Fault>)

  // ---- Constraints the schema names --------------------------------------

  predicate RequestTaken(cheques: map<ChequeId, Cheque>, receiver: Address, requestId: string)
  {
    requestId != "" && exists id :: id in cheques && cheques[id].receiver == receiver && cheques[id].requestId == requestId
  }

  predicate HasActive(reservations: map<ChequeId, Reservation>, account: Address)
  {
    exists id :: id in reservations && reservations[id].active && reservations[id].account == account
  }

  // ---- Transactions as steps ---------------------------------------------

  /** The constraint a new cheque would violate, in the order the statements meet them. */
  function CreateRefusal(db: Db, id: ChequeId, c: Cheque): Option<Fault>
  {
    if c.amount <= 0 || c.sender == c.receiver || id in db.cheques then Some(ConstraintViolated)
    else if RequestTaken(db.cheques, c.receiver, c.requestId) then Some(RequestUsed)
    else if id in db.reservations || HasActive(db.reservations, c.sender) then Some(AlreadyActive)
    else if Entry(id, Taslak, ImzaliRezerve) in db.log then Some(ConstraintViolated)
    else None
  }

  function Created(db: Db, id: ChequeId, c: Cheque): Db
  {
    db.(cheques := db.cheques[id := c],
        reservations := db.reservations[id := Reservation(c.sender, true)],
        log := db.log + [Entry(id, Taslak, ImzaliRezerve)])
  }

  function CreateStep(db: Db, id: ChequeId, c: Cheque): Commit
  {
    var refusal := CreateRefusal(db, id, c);
    Commit(if refusal == None then Created(db, id, c) else db, refusal)
  }

  function Shifted(db: Db, id: ChequeId, from: State, to: State): Db
    requires id in db.cheques
  {
    db.(cheques := db.cheques[id := db.cheques[id].(state := to)],
        reservations := if to.IsTerminal() && id in db.reservations
                        then db.reservations[id := db.reservations[id].(active := false)]
                        else db.reservations,
        log := db.log + [Entry(id, from, to)])
  }

  predicate MayShift(db: Db, id: ChequeId, from: State, to: State)
  {
    id in db.cheques && db.cheques[id].state == from && Entry(id, from, to) !in db.log
  }

  function TransitionStep(db: Db, id: ChequeId, from: State, to: State): Commit
  {
    if MayShift(db, id, from, to) then Commit(Shifted(db, id, from, to), None) else Commit(db, Some(BadTransition))
  }

  function DepositRecorded(pools: map<Address, PoolRow>, owner: Address, amount: int, decimals: nat): map<Address, PoolRow>
  {
    pools[owner := PoolRow((if owner in pools then pools[owner].amount else 0) + amount, decimals)]
  }

  function WithdrawRecorded(pools: map<Address, PoolRow>, owner: Address, amount: int): map<Address, PoolRow>
  {
    if owner !in pools then pools
    else pools[owner := pools[owner].(amount := if pools[owner].amount >= amount then pools[owner].amount - amount else 0)]
  }

  // ---- The repository over mutable tables --------------------------------

  class Repository {
    var cheques: map<ChequeId, Cheque>
    var reservations: map<ChequeId, Reservation>
    var log: seq<Entry>
    var pools: map<Address, PoolRow>

    ghost function Snapshot(): Db
      reads this
    {
      Db(cheques, reservations, log, pools)
    }

    constructor ()
      ensures Snapshot() == Db(map[], map[], [], map[])
    {
      cheques := map[];
      reservations := map[];
      log := [];
      pools := map[];
    }

    method CreateReservedCheque(id: ChequeId, c: Cheque) returns (fault: Option<Fault>)
      modifies this
      ensures Commit(Snapshot(), fault) == CreateStep(old(Snapshot()), id, c)
    {
      var before := cheques;
      if c.amount <= 0 || c.sender == c.receiver || id in cheques {
        return Some(ConstraintViolated);
      }
      if RequestTaken(cheques, c.receiver, c.requestId) {
        return Some(RequestUsed);
      }
      cheques := cheques[id := c];
      if id in reservations || HasActive(reservations, c.sender) {
        cheques := before;
        return Some(AlreadyActive);
      }
      var unreserved := reservations;
      reservations := reservations[id := Reservation(c.sender, true)];
      if Entry(id, Taslak, ImzaliRezerve) in log {
        cheques, reservations := before, unreserved;
        return Some(ConstraintViolated);
      }
      log := log + [Entry(id, Taslak, ImzaliRezerve)];
      return None;
    }

    method GetCheque(id: ChequeId) returns (c: Option<Cheque>)
      ensures c == if id in cheques then Some(cheques[id]) else None
    {
      if id !in cheques { return None; }
      return Some(cheques[id]);
    }

    method Transition(id: ChequeId, from: State, to: State) returns (fault: Option<Fault>)
      modifies this
      ensures fault == if MayShift(old(Snapshot()), id, from, to) then None else Some(BadTransition)
      ensures Snapshot() == if MayShift(old(Snapshot()), id, from, to) then Shifted(old(Snapshot()), id, from, to) else old(Snapshot())
    {
      if id !in cheques || cheques[id].state != from {
        return Some(BadTransition); // the guarded update matched no row
      }
      var row := cheques[id];
      var before := cheques;
      cheques := before[id := row.(state := to)];
      if Entry(id, from, to) in log {
        cheques := before; // the unique constraint aborts the transaction
        return Some(BadTransition);
      }
      log := log + [Entry(id, from, to)];
      if to.IsTerminal() && id in reservations {
        var held := reservations[id];
        reservations := reservations[id := held.(active := false)];
      }
      return None;
    }

    method GetPool(owner: Address) returns (row: PoolRow, present: bool)
      ensures present == (owner in pools)
      ensures row == if present then pools[owner] else PoolRow(0, 0)
    {
      if owner in pools { return pools[owner], true; }
      return PoolRow(0, 0), false;
    }

    method RecordDeposit(owner: Address, amount: int, decimals: nat)
      modifies this`pools
      ensures pools == DepositRecorded(old(pools), owner, amount, decimals)
    {
      if owner in pools {
        var row := pools[owner];
        row := row.(amount := row.amount + amount);
        row := row.(decimals := decimals);
        pools := pools[owner := row];
      } else {
        pools := pools[owner := PoolRow(amount, decimals)];
      }
    }

    method RecordWithdraw(owner: Address, amount: int) returns (fault: Option<Fault>)
      modifies this`pools
      ensures pools == WithdrawRecorded(old(pools), owner, amount)
      ensures fault == if owner in old(pools) then None else Some(NotFound)
    {
      if owner !in pools { return Some(NotFound); }
      var row := pools[owner];
      var left := row.amount - amount;
      if left < 0 { left := 0; }
      pools := pools[owner := row.(amount := left)];
      return None;
    }

    method SetPoolAmount(owner: Address, amount: int, decimals: nat)
      modifies this`pools
      ensures pools == old(pools)[owner := PoolRow(amount, decimals)]
    {
      pools := pools[owner := PoolRow(amount, decimals)];
    }
  }

  // ---- What every transaction keeps --------------------------------------

  /** How far along its life a cheque in this state is. */
  function Rank(s: State): nat
  {
    match s
    case Taslak => 0
    case ImzaliRezerve => 1
    case Fonlaniyor => 1
    case Havuzda => 2
    case ZorlaTahsilDenendi => 2
    case TalepEdildi => 3
    case IadeEdilebilir => 3
    case Onaylandi => 4
    case IadeEdildi => 4
    case Kapandi => 5
    case Hukumsuz => 5
    case Karsiliksiz => 5
  }

  function LogOf(log: seq<Entry>, id: ChequeId): seq<Entry>
  {
    if log == [] then []
    else
      var last := log[|log| - 1];
      LogOf(log[..|log| - 1], id) + if last.id == id then [last] else []
  }

  /** A life story: from draft to `now`, each move starting where the last one ended, always upwards. */
  ghost predicate IsStory(story: seq<Entry>, now: State)
  {
    && |story| > 0
    && story[0].from == Taslak && story[0].to == ImzaliRezerve
    && (forall i :: 0 <= i < |story| ==> Rank(story[i].from) < Rank(story[i].to))
    && (forall i :: 0 < i < |story| ==> story[i].from == story[i - 1].to)
    && story[|story| - 1].to == now
  }

  /** A reservation per cheque, active exactly while the cheque is open. */
  ghost predicate Reserved(db: Db)
  {
    && db.reservations.Keys == db.cheques.Keys
    && forall id :: id in db.cheques ==>
         db.reservations[id] == Reservation(db.cheques[id].sender, !db.cheques[id].state.IsTerminal())
  }

  /** The log tells every cheque's story and nothing else. */
  ghost predicate Logged(db: Db)
  {
    forall id :: if id in db.cheques then IsStory(LogOf(db.log, id), db.cheques[id].state) else LogOf(db.log, id) == []
  }

  /** No sender has two open cheques. */
  ghost predicate Exclusive(db: Db)
  {
    forall a, b :: a in db.cheques && b in db.cheques && a != b
      && !db.cheques[a].state.IsTerminal() && !db.cheques[b].state.IsTerminal()
      ==> db.cheques[a].sender != db.cheques[b].sender
  }

  /** A receiver's payment request is answered by one cheque at most. */
  ghost predicate RequestsSingle(db: Db)
  {
    forall a, b :: a in db.cheques && b in db.cheques && a != b && db.cheques[a].requestId != ""
      ==> db.cheques[a].requestId != db.cheques[b].requestId || db.cheques[a].receiver != db.cheques[b].receiver
  }

  ghost predicate Consistent(db: Db)
  {
    Reserved(db) && Logged(db) && Exclusive(db) && RequestsSingle(db)
  }

  lemma {:induction false} EntryIsLogged(log: seq<Entry>, e: Entry)
    ensures e in log <==> e in LogOf(log, e.id)
  {
    if log != [] {
      EntryIsLogged(log[..|log| - 1], e);
      assert log == log[..|log| - 1] + [log[|log| - 1]];
    }
  }

  lemma LogAppend(log: seq<Entry>, e: Entry, id: ChequeId)
    ensures LogOf(log + [e], id) == LogOf(log, id) + if e.id == id then [e] else []
  {
  }

  lemma {:induction false} StoryClimbs(story: seq<Entry>, now: State, i: nat)
    requires IsStory(story, now) && i < |story|
    ensures i + 1 <= Rank(story[i].to) <= Rank(now)
    ensures Rank(story[i].from) < Rank(now)
    decreases |story| - i
  {
    if i + 1 < |story| {
      StoryClimbs(story, now, i + 1);
    }
    StoryStart(story, now, i);
  }

  lemma {:induction false} StoryStart(story: seq<Entry>, now: State, i: nat)
    requires IsStory(story, now) && i < |story|
    ensures i + 1 <= Rank(story[i].to)
  {
    if i > 0 {
      StoryStart(story, now, i - 1);
    }
  }

  lemma StoryIsShort(story: seq<Entry>, now: State)
    requires IsStory(story, now)
    ensures |story| <= Rank(now) <= 5
  {
    StoryClimbs(story, now, |story| - 1);
  }

  lemma StoryNeverLoopsBack(story: seq<Entry>, now: State, e: Entry)
    requires IsStory(story, now) && e.from == now
    ensures e !in story
  {
    if e in story {
      var i :| 0 <= i < |story| && story[i] == e;
      StoryClimbs(story, now, i);
    }
  }

  /** The unique constraint never refuses a move whose state guard has passed. */
  lemma UniqueNeverRefuses(db: Db, id: ChequeId, from: State, to: State)
    requires Logged(db)
    ensures TransitionStep(db, id, from, to).fault == None
       <==> id in db.cheques && db.cheques[id].state == from
  {
    if id in db.cheques && db.cheques[id].state == from {
      EntryIsLogged(db.log, Entry(id, from, to));
      StoryNeverLoopsBack(LogOf(db.log, id), from, Entry(id, from, to));
      assert MayShift(db, id, from, to);
    }
  }

  lemma MoveCommits(db: Db, id: ChequeId, from: State, to: State)
    requires Logged(db) && id in db.cheques && db.cheques[id].state == from
    ensures TransitionStep(db, id, from, to).db == Shifted(db, id, from, to)
  {
    UniqueNeverRefuses(db, id, from, to);
  }

  lemma OpenIsActive(db: Db, id: ChequeId)
    requires Reserved(db) && id in db.cheques && !db.cheques[id].state.IsTerminal()
    ensures HasActive(db.reservations, db.cheques[id].sender)
  {
  }

  lemma CreatedKeepsLogged(db: Db, id: ChequeId, c: Cheque)
    requires Logged(db) && id !in db.cheques && c.state == ImzaliRezerve
    ensures Logged(Created(db, id, c))
  {
    var after := Created(db, id, c);
    forall i ensures if i in after.cheques then IsStory(LogOf(after.log, i), after.cheques[i].state) else LogOf(after.log, i) == [] {
      LogAppend(db.log, Entry(id, Taslak, ImzaliRezerve), i);
      assert if i in db.cheques then IsStory(LogOf(db.log, i), db.cheques[i].state) else LogOf(db.log, i) == [];
    }
  }

  lemma CreatedKeepsReserved(db: Db, id: ChequeId, c: Cheque)
    requires Reserved(db) && c.state == ImzaliRezerve
    ensures Reserved(Created(db, id, c))
  {
  }

  lemma CreatedKeepsExclusive(db: Db, id: ChequeId, c: Cheque)
    requires Reserved(db) && Exclusive(db) && !HasActive(db.reservations, c.sender)
    ensures Exclusive(Created(db, id, c))
  {
  }

  lemma CreatedKeepsRequests(db: Db, id: ChequeId, c: Cheque)
    requires RequestsSingle(db) && !RequestTaken(db.cheques, c.receiver, c.requestId)
    ensures RequestsSingle(Created(db, id, c))
  {
  }

  lemma CreateKeepsConsistent(db: Db, id: ChequeId, c: Cheque)
    requires Consistent(db) && c.state == ImzaliRezerve
    ensures Consistent(CreateStep(db, id, c).db)
  {
    if CreateRefusal(db, id, c) == None {
      CreatedKeepsReserved(db, id, c);
      CreatedKeepsLogged(db, id, c);
      CreatedKeepsExclusive(db, id, c);
      CreatedKeepsRequests(db, id, c);
    }
  }

  lemma StoryGrows(story: seq<Entry>, e: Entry)
    requires IsStory(story, e.from) && Rank(e.from) < Rank(e.to)
    ensures IsStory(story + [e], e.to)
  {
  }

  lemma ShiftedKeepsLogged(db: Db, id: ChequeId, from: State, to: State)
    requires Logged(db) && Rank(from) < Rank(to) && id in db.cheques && db.cheques[id].state == from
    ensures Logged(Shifted(db, id, from, to))
  {
    var after := Shifted(db, id, from, to);
    forall i ensures if i in after.cheques then IsStory(LogOf(after.log, i), after.cheques[i].state) else LogOf(after.log, i) == [] {
      LogAppend(db.log, Entry(id, from, to), i);
      assert if i in db.cheques then IsStory(LogOf(db.log, i), db.cheques[i].state) else LogOf(db.log, i) == [];
      if i == id {
        StoryGrows(LogOf(db.log, id), Entry(id, from, to));
      }
    }
  }

  lemma ShiftedKeepsReserved(db: Db, id: ChequeId, from: State, to: State)
    requires Reserved(db) && id in db.cheques && db.cheques[id].state == from && !from.IsTerminal()
    ensures Reserved(Shifted(db, id, from, to))
  {
  }

  lemma ShiftedKeepsExclusive(db: Db, id: ChequeId, from: State, to: State)
    requires Exclusive(db) && id in db.cheques && db.cheques[id].state == from && !from.IsTerminal()
    ensures Exclusive(Shifted(db, id, from, to))
  {
  }

  lemma ShiftedKeepsRequests(db: Db, id: ChequeId, from: State, to: State)
    requires RequestsSingle(db) && id in db.cheques
    ensures RequestsSingle(Shifted(db, id, from, to))
  {
  }

  /** Moving an open cheque up in rank keeps every table invariant. */
  lemma TransitionKeepsConsistent(db: Db, id: ChequeId, from: State, to: State)
    requires Consistent(db) && !from.IsTerminal() && Rank(from) < Rank(to)
    ensures Consistent(TransitionStep(db, id, from, to).db)
  {
    if MayShift(db, id, from, to) {
      ShiftedKeepsReserved(db, id, from, to);
      ShiftedKeepsLogged(db, id, from, to);
      ShiftedKeepsExclusive(db, id, from, to);
      ShiftedKeepsRequests(db, id, from, to);
    }
  }

  /** D5 in the database: the sender of an open cheque cannot open another. */
  lemma OneOpenChequePerSender(db: Db, open: ChequeId, id: ChequeId, c: Cheque)
    requires Consistent(db)
    requires open in db.cheques && !db.cheques[open].state.IsTerminal() && db.cheques[open].sender == c.sender
    ensures CreateStep(db, id, c).fault != None && CreateStep(db, id, c).db == db
  {
    OpenIsActive(db, open);
  }
}
