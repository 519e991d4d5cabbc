/**
 * `Submit`, cut at every database statement and at the chain call.
 *
 * Many submits can share one key. Each advances one piece at a time, in any order, and can
 * die between any two pieces; the reaper runs whenever it likes.
 */
module TxSubmit {
  import opened Options
  import opened TxStore

  const BAD_SEQ := "tx_bad_seq"

  /** The network's own word on a transaction. */
  datatype Verdict = Verdict(hash: string, successful: bool, resultCode: string)

  /** What handing the envelope to the gateway comes back with. */
  datatype ChainAnswer = GatewayError(message: string) | Ruled(verdict: Verdict)

  predicate IsFinal(answer: ChainAnswer)
  {
    answer.Ruled? && (answer.verdict.successful || answer.verdict.resultCode != BAD_SEQ)
  }

  function ResponseFor(v: Verdict): Response
  {
    Response(v.hash, v.successful, v.resultCode)
  }

  function StateFor(v: Verdict): SubmissionState
  {
    if v.successful then Success else if v.resultCode == "PENDING" then Submitted else Failed
  }

  datatype Reply =
    | Replayed(response: Response)
    | Answered(response: Response)
    | InFlight
    | SubmitFailed(message: string)

  datatype Phase =
    | Check
    | Begin
    | Call
    | RecordFailure(code: string, reply: Reply)
    | DropKey(reply: Reply)
    | RecordVerdict(verdict: Verdict)
    | FinishKey(verdict: Verdict)
    | Replied(reply: Reply)

  datatype Task = Task(key: Key, phase: Phase)

  datatype Turn = Turn(store: Store, task: Task)

  /** Where the chain's answer sends a submit. */
  function AfterCall(answer: ChainAnswer): Phase
  {
    match answer
    case GatewayError(message) => RecordFailure(message, SubmitFailed(message))
    case Ruled(v) =>
      if IsFinal(answer) then RecordVerdict(v) else RecordFailure(v.resultCode, Answered(ResponseFor(v)))
  }

  function TaskStep(store: Store, t: Task, answer: ChainAnswer, clock: nat): (turn: Turn)
    ensures turn.task.key == t.key
  {
    match t.phase
    case Check =>
      var cached := CachedResponse(store, t.key);
      Turn(store, Task(t.key, if cached.Some? then Replied(Replayed(cached.value)) else Begin))
    case Begin =>
      var claim := BeginStep(store, t.key, clock);
      Turn(claim.store, Task(t.key, if claim.claimed then Call else Replied(InFlight)))
    case Call => Turn(store, Task(t.key, AfterCall(answer)))
    case RecordFailure(code, reply) => Turn(RecordFailureStep(store, t.key, code), Task(t.key, DropKey(reply)))
    case DropKey(reply) => Turn(DropPendingStep(store, t.key), Task(t.key, Replied(reply)))
    case RecordVerdict(v) =>
      Turn(RecordVerdictStep(store, t.key, v.hash, StateFor(v), v.resultCode), Task(t.key, FinishKey(v)))
    case FinishKey(v) =>
      Turn(FinishKeyStep(store, t.key, ResponseFor(v)), Task(t.key, Replied(Answered(ResponseFor(v)))))
    case Replied(_) => Turn(store, t)
  }

  /** A submit served with nothing else happening meanwhile takes at most five pieces. */
  function Alone(store: Store, t: Task, answer: ChainAnswer, clock: nat, pieces: nat): Turn
    decreases pieces
  {
    if pieces == 0 || t.phase.Replied? then Turn(store, t)
    else
      var turn := TaskStep(store, t, answer, clock);
      Alone(turn.store, turn.task, answer, clock, pieces - 1)
  }

  lemma AloneUnfolds(store: Store, t: Task, answer: ChainAnswer, clock: nat, pieces: nat)
    requires !t.phase.Replied?
    ensures var turn := TaskStep(store, t, answer, clock);
            Alone(store, t, answer, clock, pieces + 1) == Alone(turn.store, turn.task, answer, clock, pieces)
  {
  }

  /** What the submission row says once the network has ruled: success only where it succeeded. */
  predicate Records(row: SubmissionRow, v: Verdict)
  {
    && row.txHash == Some(v.hash) && row.resultCode == Some(v.resultCode)
    && row.state == if v.successful then Success else if v.resultCode == "PENDING" then Submitted else Failed
  }

  /** A key given back after a failure: gone, with the failure on its submission row and the old hash kept. */
  predicate GivenBack(before: Store, after: Store, key: Key, code: string)
  {
    && after.keys == before.keys
    && after.submissions.Keys == before.submissions.Keys + {key}
    && (forall other :: other in before.submissions && other != key ==> after.submissions[other] == before.submissions[other])
    && after.submissions[key].state == Failed && after.submissions[key].resultCode == Some(code)
    && after.submissions[key].txHash == if key in before.submissions then before.submissions[key].txHash else None
  }

  lemma NewKeyCalls(store: Store, key: Key, answer: ChainAnswer, clock: nat)
    requires key !in store.keys
    ensures Alone(store, Task(key, Check), answer, clock, 5)
         == Alone(BeginStep(store, key, clock).store, Task(key, AfterCall(answer)), answer, clock, 2)
  {
    var begun := BeginStep(store, key, clock).store;
    AloneUnfolds(store, Task(key, Check), answer, clock, 4);
    AloneUnfolds(store, Task(key, Begin), answer, clock, 3);
    AloneUnfolds(begun, Task(key, Call), answer, clock, 2);
  }

  lemma FailureAlone(store: Store, key: Key, code: string, reply: Reply, answer: ChainAnswer, clock: nat)
    ensures Alone(store, Task(key, RecordFailure(code, reply)), answer, clock, 2)
         == Turn(DropPendingStep(RecordFailureStep(store, key, code), key), Task(key, Replied(reply)))
  {
    AloneUnfolds(store, Task(key, RecordFailure(code, reply)), answer, clock, 1);
    AloneUnfolds(RecordFailureStep(store, key, code), Task(key, DropKey(reply)), answer, clock, 0);
  }

  lemma VerdictAlone(store: Store, key: Key, v: Verdict, answer: ChainAnswer, clock: nat)
    ensures Alone(store, Task(key, RecordVerdict(v)), answer, clock, 2)
         == Turn(FinishKeyStep(RecordVerdictStep(store, key, v.hash, StateFor(v), v.resultCode), key, ResponseFor(v)),
                 Task(key, Replied(Answered(ResponseFor(v)))))
  {
    AloneUnfolds(store, Task(key, RecordVerdict(v)), answer, clock, 1);
    AloneUnfolds(RecordVerdictStep(store, key, v.hash, StateFor(v), v.resultCode), Task(key, FinishKey(v)), answer, clock, 0);
  }

  lemma FailureGivesBack(store: Store, key: Key, clock: nat, code: string)
    requires key !in store.keys
    ensures GivenBack(store, DropPendingStep(RecordFailureStep(BeginStep(store, key, clock).store, key, code), key), key, code)
  {
  }

  /**
   * A submit with nothing else happening: a finished key replays its answer and a pending one
   * is refused, both leaving the tables alone; a new key is submitted, and ends given back
   * after a gateway error or a bad sequence number, or done with the verdict in both tables.
   */
  lemma SubmitAnswers(store: Store, key: Key, answer: ChainAnswer, clock: nat)
    ensures var turn := Alone(store, Task(key, Check), answer, clock, 5);
            if key in store.keys then
              turn == Turn(store, Task(key, Replied(if store.keys[key].done.Some? then Replayed(store.keys[key].done.value) else InFlight)))
            else
              match answer
              case GatewayError(message) =>
                turn.task == Task(key, Replied(SubmitFailed(message))) && GivenBack(store, turn.store, key, message)
              case Ruled(v) =>
                && turn.task == Task(key, Replied(Answered(Response(v.hash, v.successful, v.resultCode))))
                && if !v.successful && v.resultCode == "tx_bad_seq" then GivenBack(store, turn.store, key, v.resultCode)
                   else
                     && turn.store.keys
                        == store.keys[key := KeyRow(Some(Response(v.hash, v.successful, v.resultCode)), clock + 24 * 60 * 60)]
                     && key in turn.store.submissions && Records(turn.store.submissions[key], v)
                     && turn.store.submissions == store.submissions[key := turn.store.submissions[key]]
  {
    if key in store.keys {
      AloneUnfolds(store, Task(key, Check), answer, clock, 4);
      AloneUnfolds(store, Task(key, Begin), answer, clock, 3);
    } else {
      var begun := BeginStep(store, key, clock).store;
      NewKeyCalls(store, key, answer, clock);
      match AfterCall(answer)
      case RecordFailure(code, reply) =>
        FailureAlone(begun, key, code, reply, answer, clock);
        FailureGivesBack(store, key, clock, code);
      case RecordVerdict(v) => VerdictAlone(begun, key, v, answer, clock);
    }
  }

  class TxService {
    const repo: TxRepository

    constructor (repo: TxRepository)
      ensures this.repo == repo
    {
      this.repo := repo;
    }

    /** `answer` is what the gateway would say to this envelope, if it is asked at all. */
    method Submit(key: Key, answer: ChainAnswer, clock: nat) returns (reply: Reply, asked: bool)
      modifies repo
      ensures Turn(repo.Snapshot(), Task(key, Replied(reply))) == Alone(old(repo.Snapshot()), Task(key, Check), answer, clock, 5)
      ensures asked <==> key !in old(repo.keys)
    {
      var start := repo.Snapshot();
      AloneUnfolds(start, Task(key, Check), answer, clock, 4);
      var cached := repo.GetIdempotentResponse(key);
      if cached.Some? {
        return Replayed(cached.value), false;
      }
      AloneUnfolds(start, Task(key, Begin), answer, clock, 3);
      var claimed := repo.BeginSubmission(key, clock);
      if !claimed {
        return InFlight, false;
      }
      asked := true;
      AloneUnfolds(repo.Snapshot(), Task(key, Call), answer, clock, 2);
      AloneUnfolds(repo.Snapshot(), Task(key, AfterCall(answer)), answer, clock, 1);
      match answer {
        case GatewayError(message) =>
          AloneUnfolds(RecordFailureStep(repo.Snapshot(), key, message), Task(key, DropKey(SubmitFailed(message))), answer, clock, 0);
          repo.ReleaseSubmission(key, message);
          reply := SubmitFailed(message);
        case Ruled(Verdict(hash, successful, code)) =>
          var response := Response(hash, successful, code);
          if !successful && code == BAD_SEQ {
            AloneUnfolds(RecordFailureStep(repo.Snapshot(), key, code), Task(key, DropKey(Answered(response))), answer, clock, 0);
            repo.ReleaseSubmission(key, code);
          } else {
            var state := Failed;
            if successful {
              state := Success;
            } else if code == "PENDING" {
              state := Submitted;
            }
            AloneUnfolds(RecordVerdictStep(repo.Snapshot(), key, hash, state, code), Task(key, FinishKey(answer.verdict)), answer, clock, 0);
            repo.CompleteSubmission(key, hash, state, code, response);
          }
          reply := Answered(response);
      }
    }
  }
}
