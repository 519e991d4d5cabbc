/**
 * The submit service's two tables, `idempotency_keys` and `submissions`, one SQL statement
 * at a time: a crash can fall between any two of them.
 */
module TxStore {
  import opened Options

  type Key = string

  const KEY_LIFETIME: nat := 24 * 60 * 60

  /** What a caller gets back, and what a finished key replays. */
  datatype Response = Response(hash: string, successful: bool, resultCode: string)

  /** `done` is None while the key is pending. */
  datatype KeyRow = KeyRow(done: Option<Response>, expiresAt: nat)

  datatype SubmissionState = Pending | Submitted | Success | Failed

  datatype SubmissionRow = SubmissionRow(txHash: Option<string>, state: SubmissionState, resultCode: Option<string>)

  datatype Store = Store(keys: map<Key, KeyRow>, submissions: map<Key, SubmissionRow>)

  datatype Claim = Claim(store: Store, claimed: bool)

  // ---- Statements as steps -----------------------------------------------

  function CachedResponse(store: Store, key: Key): Option<Response>
  {
    if key in store.keys then store.keys[key].done else None
  }

  /** Both inserts of a begin, in one transaction: the key decides, the submission row is overwritten. */
  function BeginStep(store: Store, key: Key, clock: nat): Claim
  {
    if key in store.keys then Claim(store, false)
    else
      var row := if key in store.submissions
                 then store.submissions[key].(state := Pending, resultCode := None)
                 else SubmissionRow(None, Pending, None);
      Claim(Store(store.keys[key := KeyRow(None, clock + KEY_LIFETIME)], store.submissions[key := row]), true)
  }

  function RecordVerdictStep(store: Store, key: Key, hash: string, state: SubmissionState, code: string): Store
  {
    if key !in store.submissions then store
    else store.(submissions := store.submissions[key := SubmissionRow(Some(hash), state, Some(code))])
  }

  function FinishKeyStep(store: Store, key: Key, response: Response): Store
  {
    if key !in store.keys then store
    else store.(keys := store.keys[key := store.keys[key].(done := Some(response))])
  }

  function RecordFailureStep(store: Store, key: Key, code: string): Store
  {
    if key !in store.submissions then store
    else store.(submissions := store.submissions[key := store.submissions[key].(state := Failed, resultCode := Some(code))])
  }

  predicate IsPending(store: Store, key: Key)
  {
    key in store.keys && store.keys[key].done == None
  }

  function DropPendingStep(store: Store, key: Key): Store
  {
    if IsPending(store, key) then store.(keys := store.keys - {key}) else store
  }

  /** The keys a reaper run at `before` deletes. */
  function Stale(store: Store, before: nat): set<Key>
  {
    set key | key in store.keys && store.keys[key].done == None && store.keys[key].expiresAt < before
  }

  function ReapStep(store: Store, before: nat): Store
  {
    store.(keys := store.keys - Stale(store, before))
  }

  // ---- The repository over mutable tables --------------------------------

  class TxRepository {
    var keys: map<Key, KeyRow>
    var submissions: map<Key, SubmissionRow>

    constructor ()
      ensures Snapshot() == Store(map[], map[])
    {
      keys := map[];
      submissions := map[];
    }

    ghost function Snapshot(): Store
      reads this
    {
      Store(keys, submissions)
    }

    method GetIdempotentResponse(key: Key) returns (response: Option<Response>)
      ensures response == CachedResponse(Snapshot(), key)
    {
      if key !in keys { return None; }
      return keys[key].done;
    }

    method BeginSubmission(key: Key, clock: nat) returns (claimed: bool)
      modifies this
      ensures Claim(Snapshot(), claimed) == BeginStep(old(Snapshot()), key, clock)
    {
      if key in keys { return false; } // the primary key refuses the insert and the transaction rolls back
      keys := keys[key := KeyRow(None, clock + KEY_LIFETIME)];
      if key in submissions {
        var row := submissions[key];
        row := row.(state := Pending);
        row := row.(resultCode := None);
        submissions := submissions[key := row];
      } else {
        submissions := submissions[key := SubmissionRow(None, Pending, None)];
      }
      return true;
    }

    method CompleteSubmission(key: Key, hash: string, state: SubmissionState, code: string, response: Response)
      modifies this
      ensures Snapshot() == FinishKeyStep(RecordVerdictStep(old(Snapshot()), key, hash, state, code), key, response)
    {
      if key in submissions {
        submissions := submissions[key := SubmissionRow(Some(hash), state, Some(code))];
      }
      if key in keys {
        keys := keys[key := keys[key].(done := Some(response))];
      }
    }

    method ReleaseSubmission(key: Key, code: string)
      modifies this
      ensures Snapshot() == DropPendingStep(RecordFailureStep(old(Snapshot()), key, code), key)
    {
      if key in submissions {
        var row := submissions[key];
        submissions := submissions[key := row.(state := Failed, resultCode := Some(code))];
      }
      if key in keys && keys[key].done == None {
        keys := keys - {key};
      }
    }

    method ReapExpiredPendingKeys(before: nat) returns (removed: nat)
      modifies this`keys
      ensures Snapshot() == ReapStep(old(Snapshot()), before)
      ensures removed == |old(keys)| - |keys|
      ensures forall key :: key in old(keys) && key !in keys ==> old(keys)[key].done == None
    {
      var stale := set key | key in keys && keys[key].done == None && keys[key].expiresAt < before;
      var kept := keys - stale;
      assert kept.Keys == keys.Keys - stale;
      removed := |stale|;
      keys := kept;
    }
  }
}
