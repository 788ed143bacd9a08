/** Executions and the in-memory store with its idempotency index (app/runtime/store.py). */
module ExecutionStore {
  import opened Common

  datatype ExecutionStatus = ExecPending | ExecRunning | ExecSucceeded | ExecFailed | ExecRejected

  datatype Execution = Execution(
    id: string,
    provider: string,
    workflow: string,
    status: ExecutionStatus,
    attempts: nat,
    key: Option<string>,
    data: int,
    error: Option<string>)

  /** An idempotency key counts only when it is present and non-empty. */
  predicate Keyed(key: Option<string>) {
    key.Some? && key.value != ""
  }

  datatype StoreState = StoreState(items: map<string, Execution>, index: map<string, string>)

  /** The index points at the execution saved last under a key. */
  function Saved(s: StoreState, e: Execution): StoreState {
    StoreState(s.items[e.id := e], if Keyed(e.key) then s.index[e.key.value := e.id] else s.index)
  }

  function Lookup(s: StoreState, key: string): Option<Execution> {
    if key in s.index && s.index[key] != "" && s.index[key] in s.items then Some(s.items[s.index[key]]) else None
  }

  /** The success a keyed request is answered with, if there is one. */
  function EarlierSuccess(s: StoreState, key: Option<string>): Option<Execution> {
    if Keyed(key) && Lookup(s, key.value).Some? && Lookup(s, key.value).value.status == ExecSucceeded
    then Lookup(s, key.value) else None
  }

  /**
   With what a request ends: the earlier success, a refusal without a call, a success within
   the budget, or a failure that used it up.
   */
  predicate EndsWith(s: StoreState, key: Option<string>, id: string, maxRetries: nat, r: Execution) {
    if EarlierSuccess(s, key).Some? then EarlierSuccess(s, key) == Some(r)
    else
      && r.id == id && r.key == key && r.attempts <= maxRetries + 1
      && (r.attempts == 0 ==> r.status in {ExecRejected, ExecFailed})
      && (r.attempts > 0 ==> r.status == ExecSucceeded || (r.status == ExecFailed && r.attempts == maxRetries + 1))
  }

  class InMemoryExecutionStore {
    var items: map<string, Execution>
    var idempotency: map<string, string>

    function State(): StoreState
      reads this
    {
      StoreState(items, idempotency)
    }

    constructor ()
      ensures State() == StoreState(map[], map[])
    {
      items, idempotency := map[], map[];
    }

    method Save(e: Execution)
      modifies this
      ensures State() == Saved(old(State()), e)
      ensures items == old(items)[e.id := e]
      ensures idempotency ==
        if e.key.Some? && e.key.value != "" then old(idempotency)[e.key.value := e.id] else old(idempotency)
    {
      items := items[e.id := e];
      if e.key.Some? && e.key.value != "" {
        idempotency := idempotency[e.key.value := e.id];
      }
    }

    method Get(id: string) returns (r: Option<Execution>)
      ensures r == if id in items then Some(items[id]) else None
    {
      if id in items {
        return Some(items[id]);
      }
      return None;
    }

    method ByIdempotencyKey(key: string) returns (r: Option<Execution>)
      ensures r == Lookup(State(), key)
      ensures r.Some? <==> key in idempotency && idempotency[key] != "" && idempotency[key] in items
      ensures r.Some? ==> r.value == items[idempotency[key]]
    {
      if key in idempotency && idempotency[key] != "" {
        r := Get(idempotency[key]);
      } else {
        r := None;
      }
    }
  }

  /** A request is answered from the store exactly when its non-empty key leads to a stored success. */
  lemma EarlierSuccessMeaning(s: StoreState, key: Option<string>)
    ensures EarlierSuccess(s, key).Some? <==>
      (&& key.Some? && key.value != "" && key.value in s.index && s.index[key.value] != ""
       && s.index[key.value] in s.items && s.items[s.index[key.value]].status == ExecSucceeded)
    ensures EarlierSuccess(s, key).Some? ==> EarlierSuccess(s, key).value == s.items[s.index[key.value]]
  {
  }

  /** After a save under a key, a lookup of that key answers with what was saved. */
  lemma SaveThenLookup(s: StoreState, e: Execution, key: string)
    requires e.id != ""
    ensures Lookup(Saved(s, e), key) ==
      if e.key == Some(key) && key != "" then Some(e)
      else if key in s.index && s.index[key] == e.id then Some(e)
      else Lookup(s, key)
  {
  }
}
