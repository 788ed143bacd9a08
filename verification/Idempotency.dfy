/**
 Any number of concurrent requests through the runtime, interleaved between awaits: the lock
 table, the store and the adapter calls. Admission and the adapter decide freely.
 */
module Idempotency {
  import opened Common
  import opened ExecutionStore

  /** Where a request stands; from Looking to Finished a keyed request holds its key's lock. */
  datatype Phase =
    | Queued
    | Looking
    | Admitting
    | Ready
    | Calling
    | Finished(result: Execution)
    | Returned(result: Execution)
  {
    predicate Holding() {
      Looking? || Admitting? || Ready? || Calling? || Finished?
    }

    predicate Active() {
      Admitting? || Ready? || Calling?
    }

    predicate Done() {
      Finished? || Returned?
    }
  }

  datatype Proc = Proc(key: Option<string>, id: string, maxRetries: nat, attempts: nat, phase: Phase)

  /** An adapter call: who made it, and under which idempotency key. */
  datatype Made = Made(pid: nat, key: Option<string>)

  /** One outcome reported to the circuit breaker. */
  datatype Charge = Charge(pid: nat, ok: bool)

  datatype State = State(procs: map<nat, Proc>, locks: map<string, nat>, store: StoreState,
                         calls: seq<Made>, charges: seq<Charge>)

  /** An action that saves carries the record it saves. */
  datatype Action =
    | Arrive(pid: nat, key: Option<string>, id: string, maxRetries: nat)
    | Acquire(pid: nat)
    | Look(pid: nat)
    | Refuse(pid: nat, e: Execution)
    | Admit(pid: nat, e: Execution)
    | Call(pid: nat)
    | Retry(pid: nat)
    | GiveUp(pid: nat, e: Execution)
    | Succeed(pid: nat, e: Execution)
    | Release(pid: nat)

  const Init := State(map[], map[], StoreState(map[], map[]), [], [])

  /** A record of this request, as far as it has got. */
  predicate Records(e: Execution, p: Proc) {
    e.id == p.id && e.key == p.key && e.attempts == p.attempts
  }

  function Move(s: State, pid: nat, phase: Phase): State
    requires pid in s.procs
  {
    s.(procs := s.procs[pid := s.procs[pid].(phase := phase)])
  }

  /** Saves a record of the request and moves on. */
  function SaveAndMove(s: State, pid: nat, e: Execution, phase: Phase): State
    requires pid in s.procs
  {
    Move(s, pid, phase).(store := Saved(s.store, e))
  }

  /** The request calls the adapter once more. */
  function Attempt(s: State, pid: nat): State
    requires pid in s.procs
  {
    var p := s.procs[pid];
    s.(procs := s.procs[pid := p.(phase := Calling, attempts := p.attempts + 1)], calls := s.calls + [Made(pid, p.key)])
  }

  /** The last save of a request that reached the adapter; the breaker is told once. */
  function Conclude(s: State, pid: nat, e: Execution, ok: bool): State
    requires pid in s.procs
  {
    SaveAndMove(s, pid, e, Finished(e)).(charges := s.charges + [Charge(pid, ok)])
  }

  predicate Enabled(s: State, a: Action) {
    match a
    case Arrive(pid, key, id, _) =>
      pid !in s.procs && id != "" && forall p :: p in s.procs ==> s.procs[p].id != id
    case Acquire(pid) =>
      pid in s.procs && s.procs[pid].phase == Queued &&
      (Keyed(s.procs[pid].key) ==> s.procs[pid].key.value !in s.locks)
    case Look(pid) => pid in s.procs && s.procs[pid].phase == Looking
    case Refuse(pid, e) =>
      pid in s.procs && s.procs[pid].phase == Admitting && Records(e, s.procs[pid]) && e.status in {ExecRejected, ExecFailed}
    case Admit(pid, e) =>
      pid in s.procs && s.procs[pid].phase == Admitting && Records(e, s.procs[pid]) && e.status == ExecRunning
    case Call(pid) => pid in s.procs && s.procs[pid].phase == Ready
    case Retry(pid) =>
      pid in s.procs && s.procs[pid].phase == Calling && s.procs[pid].attempts <= s.procs[pid].maxRetries
    case GiveUp(pid, e) =>
      pid in s.procs && s.procs[pid].phase == Calling && s.procs[pid].attempts > s.procs[pid].maxRetries &&
      Records(e, s.procs[pid]) && e.status == ExecFailed
    case Succeed(pid, e) =>
      pid in s.procs && s.procs[pid].phase == Calling && Records(e, s.procs[pid]) && e.status == ExecSucceeded
    case Release(pid) => pid in s.procs && s.procs[pid].phase.Finished?
  }

  /** One atomic segment of one request; an action that is not enabled does nothing. */
  function Step(s: State, a: Action): State {
    if !Enabled(s, a) then s
    else
      match a
      case Arrive(pid, key, id, maxRetries) => s.(procs := s.procs[pid := Proc(key, id, maxRetries, 0, Queued)])
      case Acquire(pid) =>
        var next := Move(s, pid, Looking);
        if Keyed(s.procs[pid].key) then next.(locks := s.locks[s.procs[pid].key.value := pid]) else next
      case Look(pid) =>
        var key := s.procs[pid].key;
        var earlier := if Keyed(key) then Lookup(s.store, key.value) else None;
        if earlier.Some? && earlier.value.status == ExecSucceeded then Move(s, pid, Finished(earlier.value))
        else Move(s, pid, Admitting)
      case Refuse(pid, e) => SaveAndMove(s, pid, e, Finished(e))
      case Admit(pid, e) => SaveAndMove(s, pid, e, Ready)
      case Call(pid) => Attempt(s, pid)
      case Retry(pid) => Move(s, pid, Ready)
      case GiveUp(pid, e) => Conclude(s, pid, e, false)
      case Succeed(pid, e) => Conclude(s, pid, e, true)
      case Release(pid) =>
        var next := Move(s, pid, Returned(s.procs[pid].phase.result));
        if Keyed(s.procs[pid].key) then next.(locks := s.locks - {s.procs[pid].key.value}) else next
  }

  function Run(s: State, actions: seq<Action>): State {
    if actions == [] then s
    else Step(Run(s, actions[..|actions| - 1]), actions[|actions| - 1])
  }

  // ---- what every interleaving keeps ----------------------------------------------------

  /** A lock is held by exactly the keyed request that is between lookup and return. */
  predicate LocksHeld(s: State) {
    && (forall k :: k in s.locks ==>
          s.locks[k] in s.procs && s.procs[s.locks[k]].key == Some(k) && k != "" && s.procs[s.locks[k]].phase.Holding())
    && (forall p :: p in s.procs && Keyed(s.procs[p].key) && s.procs[p].phase.Holding() ==>
          s.procs[p].key.value in s.locks && s.locks[s.procs[p].key.value] == p)
  }

  predicate DistinctIds(s: State) {
    && (forall p :: p in s.procs ==> s.procs[p].id != "")
    && (forall p, q :: p in s.procs && q in s.procs && s.procs[p].id == s.procs[q].id ==> p == q)
  }

  /** The request with execution id `id`. */
  predicate Owns(s: State, p: nat, id: string) {
    p in s.procs && s.procs[p].id == id
  }

  predicate Success(s: State, id: string) {
    id in s.store.items && s.store.items[id].status == ExecSucceeded && Keyed(s.store.items[id].key)
  }

  /** Each stored record belongs to a request with its key, and only a finished one has succeeded. */
  ghost predicate StoreOwned(s: State) {
    && (forall id :: id in s.store.items ==> s.store.items[id].id == id && exists p :: Owns(s, p, id))
    && (forall p :: p in s.procs && s.procs[p].id in s.store.items ==>
          s.store.items[s.procs[p].id].key == s.procs[p].key &&
          (Success(s, s.procs[p].id) ==> s.procs[p].phase.Done()))
    && (forall k :: k in s.store.index ==>
          s.store.index[k] in s.store.items && s.store.items[s.store.index[k]].key == Some(k))
  }

  /** A success under a key is what the index answers with, and nobody is active under that key. */
  ghost predicate SuccessIndexed(s: State) {
    forall id {:trigger Success(s, id)} :: Success(s, id) ==> SuccessRules(s, id)
  }

  predicate SuccessRules(s: State, id: string)
    requires Success(s, id)
  {
    var k := s.store.items[id].key.value;
    && k in s.store.index && s.store.index[k] == id
    && forall q :: q in s.procs && s.procs[q].key == Some(k) ==> !s.procs[q].phase.Active()
  }

  ghost predicate Inv(s: State) {
    LocksHeld(s) && DistinctIds(s) && StoreOwned(s) && SuccessIndexed(s)
  }

  /** No success is stored under this request's key. */
  ghost predicate NoSuccessUnder(s: State, key: Option<string>) {
    forall id {:trigger Success(s, id)} :: Success(s, id) ==> s.store.items[id].key != key
  }

  lemma OwnersStay(s: State, t: State)
    requires t.store == s.store && StoreOwned(s)
    requires forall p :: p in s.procs ==>
      p in t.procs && t.procs[p].id == s.procs[p].id && t.procs[p].key == s.procs[p].key &&
      (s.procs[p].phase.Done() ==> t.procs[p].phase.Done())
    requires forall p :: p in t.procs && p !in s.procs ==> t.procs[p].id !in s.store.items
    ensures StoreOwned(t)
  {
    forall id | id in t.store.items
      ensures exists p :: Owns(t, p, id)
    {
      var p :| Owns(s, p, id);
      assert Owns(t, p, id);
    }
    forall p | p in t.procs && t.procs[p].id in t.store.items
      ensures Success(t, t.procs[p].id) ==> t.procs[p].phase.Done()
    {
      assert Success(t, t.procs[p].id) == Success(s, t.procs[p].id);
    }
  }

  lemma MoveLocks(s: State, pid: nat, phase: Phase)
    requires LocksHeld(s) && pid in s.procs && s.procs[pid].phase.Holding() && phase.Holding()
    ensures LocksHeld(Move(s, pid, phase))
  {
  }

  /** Moving a request between phases that hold the lock; only a key without success may become active. */
  lemma MoveKeeps(s: State, pid: nat, phase: Phase)
    requires Inv(s) && pid in s.procs && s.procs[pid].phase.Holding() && phase.Holding()
    requires s.procs[pid].phase.Done() ==> phase.Done()
    requires phase.Active() && Keyed(s.procs[pid].key) ==> NoSuccessUnder(s, s.procs[pid].key)
    ensures Inv(Move(s, pid, phase))
  {
    hide LocksHeld, StoreOwned;
    var t := Move(s, pid, phase);
    MoveLocks(s, pid, phase);
    OwnersStay(s, t);
    forall id | Success(t, id)
      ensures SuccessRules(t, id)
    {
      assert Success(s, id) && SuccessRules(s, id);
    }
  }

  /** An active request saves a record of its own; a success must be its last. */
  lemma SaveKeeps(s: State, pid: nat, e: Execution, phase: Phase)
    requires Inv(s) && pid in s.procs && s.procs[pid].phase.Active() && phase.Holding()
    requires e.id == s.procs[pid].id && e.key == s.procs[pid].key
    requires e.status == ExecSucceeded ==> phase.Done()
    ensures Inv(SaveAndMove(s, pid, e, phase))
  {
    var t := SaveAndMove(s, pid, e, phase);
    assert StoreOwned(t) by {
      SaveKeepsOwners(s, pid, e, phase);
    }
    forall id | Success(t, id)
      ensures SuccessRules(t, id)
    {
      SaveKeepsSuccess(s, pid, e, phase, id);
    }
  }

  lemma SaveKeepsOwners(s: State, pid: nat, e: Execution, phase: Phase)
    requires Inv(s) && pid in s.procs && s.procs[pid].phase.Active()
    requires e.id == s.procs[pid].id && e.key == s.procs[pid].key
    requires e.status == ExecSucceeded ==> phase.Done()
    ensures StoreOwned(SaveAndMove(s, pid, e, phase))
  {
    var t := SaveAndMove(s, pid, e, phase);
    forall id | id in t.store.items
      ensures t.store.items[id].id == id && exists p :: Owns(t, p, id)
    {
      if id == e.id {
        assert Owns(t, pid, id);
      } else {
        var p :| Owns(s, p, id);
        assert Owns(t, p, id);
      }
    }
    forall p | p in t.procs && t.procs[p].id in t.store.items
      ensures t.store.items[t.procs[p].id].key == t.procs[p].key
      ensures Success(t, t.procs[p].id) ==> t.procs[p].phase.Done()
    {
      if p != pid {
        assert s.procs[p].id != e.id;
        assert Success(t, t.procs[p].id) == Success(s, t.procs[p].id);
      }
    }
  }

  lemma SaveKeepsSuccess(s: State, pid: nat, e: Execution, phase: Phase, id: string)
    requires Inv(s) && pid in s.procs && s.procs[pid].phase.Active() && phase.Holding()
    requires e.id == s.procs[pid].id && e.key == s.procs[pid].key
    requires e.status == ExecSucceeded ==> phase.Done()
    requires Success(SaveAndMove(s, pid, e, phase), id)
    ensures SuccessRules(SaveAndMove(s, pid, e, phase), id)
  {
    var t := SaveAndMove(s, pid, e, phase);
    var k := t.store.items[id].key.value;
    if id == e.id {
      forall q | q in t.procs && t.procs[q].key == Some(k)
        ensures !t.procs[q].phase.Active()
      {
        if q != pid && s.procs[q].phase.Active() {
          assert false;
        }
      }
    } else {
      assert Success(s, id) && SuccessRules(s, id);
      assert s.procs[pid].key != Some(k);
    }
  }

  lemma SuccessStays(s: State, t: State)
    requires t.store == s.store && SuccessIndexed(s)
    requires forall q :: q in t.procs && t.procs[q].phase.Active() ==>
      q in s.procs && s.procs[q].phase.Active() && s.procs[q].key == t.procs[q].key
    ensures SuccessIndexed(t)
  {
    forall id | Success(t, id)
      ensures SuccessRules(t, id)
    {
      assert Success(s, id) && SuccessRules(s, id);
    }
  }

  lemma AcquireLocks(s: State, pid: nat)
    requires LocksHeld(s) && Enabled(s, Acquire(pid))
    ensures LocksHeld(Step(s, Acquire(pid)))
  {
  }

  /** Taking or giving back a lock moves the request and touches nothing else. */
  lemma LockOnly(s: State, a: Action)
    requires Enabled(s, a) && (a.Acquire? || a.Release?)
    ensures var t := Step(s, a);
      && t.store == s.store && a.pid in s.procs && t.procs.Keys == s.procs.Keys
      && (forall p :: p in s.procs && p != a.pid ==> t.procs[p] == s.procs[p])
      && t.procs[a.pid] == s.procs[a.pid].(phase := if a.Acquire? then Looking else Returned(s.procs[a.pid].phase.result))
  {
  }

  lemma AcquireKeeps(s: State, pid: nat)
    requires Inv(s) && Enabled(s, Acquire(pid))
    ensures Inv(Step(s, Acquire(pid)))
  {
    AcquireLocks(s, pid);
    LockOnly(s, Acquire(pid));
    hide LocksHeld, SuccessIndexed, StoreOwned, Step;
    OwnersStay(s, Step(s, Acquire(pid)));
    SuccessStays(s, Step(s, Acquire(pid)));
  }

  lemma ReleaseLocks(s: State, pid: nat)
    requires LocksHeld(s) && Enabled(s, Release(pid))
    ensures LocksHeld(Step(s, Release(pid)))
  {
    var t := Step(s, Release(pid));
    var key := s.procs[pid].key;
    forall p | p in t.procs && Keyed(t.procs[p].key) && t.procs[p].phase.Holding()
      ensures t.procs[p].key.value in t.locks && t.locks[t.procs[p].key.value] == p
    {
      assert p != pid && s.locks[s.procs[p].key.value] == p;
      if Keyed(key) {
        assert s.locks[key.value] == pid;
      }
    }
  }

  lemma ReleaseKeeps(s: State, pid: nat)
    requires Inv(s) && Enabled(s, Release(pid))
    ensures Inv(Step(s, Release(pid)))
  {
    ReleaseLocks(s, pid);
    LockOnly(s, Release(pid));
    hide LocksHeld, SuccessIndexed, StoreOwned, Step;
    OwnersStay(s, Step(s, Release(pid)));
    SuccessStays(s, Step(s, Release(pid)));
  }

  lemma ArriveLocks(s: State, pid: nat, key: Option<string>, id: string, maxRetries: nat)
    requires LocksHeld(s) && Enabled(s, Arrive(pid, key, id, maxRetries))
    ensures LocksHeld(Step(s, Arrive(pid, key, id, maxRetries)))
  {
  }

  lemma FreshIdIsUnsaved(s: State, id: string)
    requires StoreOwned(s) && forall p :: p in s.procs ==> s.procs[p].id != id
    ensures id !in s.store.items
  {
    assert id in s.store.items ==> exists p :: Owns(s, p, id);
  }

  lemma ArriveKeeps(s: State, pid: nat, key: Option<string>, id: string, maxRetries: nat)
    requires Inv(s) && Enabled(s, Arrive(pid, key, id, maxRetries))
    ensures Inv(Step(s, Arrive(pid, key, id, maxRetries)))
  {
    hide LocksHeld, SuccessIndexed, StoreOwned;
    ArriveLocks(s, pid, key, id, maxRetries);
    FreshIdIsUnsaved(s, id);
    OwnersStay(s, Step(s, Arrive(pid, key, id, maxRetries)));
    SuccessStays(s, Step(s, Arrive(pid, key, id, maxRetries)));
  }

  /** A lookup that does not find a success under the key proves that there is none. */
  lemma LookupFindsSuccess(s: State, key: string, id: string)
    requires Inv(s) && Success(s, id) && s.store.items[id].key == Some(key)
    ensures Lookup(s.store, key) == Some(s.store.items[id])
  {
    assert SuccessRules(s, id);
    var p :| Owns(s, p, id);
  }

  lemma LookKeeps(s: State, pid: nat)
    requires Inv(s) && Enabled(s, Look(pid))
    ensures Inv(Step(s, Look(pid)))
  {
    hide Inv, Lookup;
    var key := s.procs[pid].key;
    if Keyed(key) && Lookup(s.store, key.value).Some? && Lookup(s.store, key.value).value.status == ExecSucceeded {
      MoveKeeps(s, pid, Finished(Lookup(s.store, key.value).value));
    } else {
      if Keyed(key) {
        forall id | Success(s, id)
          ensures s.store.items[id].key != key
        {
          if s.store.items[id].key == key {
            LookupFindsSuccess(s, key.value, id);
          }
        }
      }
      MoveKeeps(s, pid, Admitting);
    }
  }

  lemma ActiveKeeps(s: State, pid: nat, phase: Phase)
    requires Inv(s) && pid in s.procs && s.procs[pid].phase.Active() && phase.Active()
    ensures Inv(Move(s, pid, phase))
  {
    forall id | Success(s, id)
      ensures s.store.items[id].key != s.procs[pid].key || !Keyed(s.procs[pid].key)
    {
      assert SuccessRules(s, id);
    }
    MoveKeeps(s, pid, phase);
  }

  lemma StepKeeps(s: State, a: Action)
    requires Inv(s)
    ensures Inv(Step(s, a))
  {
    if Enabled(s, a) {
      match a
      case Arrive(pid, key, id, maxRetries) => ArriveKeeps(s, pid, key, id, maxRetries);
      case Acquire(pid) => AcquireKeeps(s, pid);
      case Look(pid) => LookKeeps(s, pid);
      case Refuse(pid, e) => SaveKeeps(s, pid, e, Finished(e));
      case Admit(pid, e) => SaveKeeps(s, pid, e, Ready);
      case Call(pid) =>
        ActiveKeeps(s, pid, Calling);
        CountsDoNotMatter(Move(s, pid, Calling), Step(s, a));
      case Retry(pid) => ActiveKeeps(s, pid, Ready);
      case GiveUp(pid, e) => ConcludeKeeps(s, pid, e, false);
      case Succeed(pid, e) => ConcludeKeeps(s, pid, e, true);
      case Release(pid) => ReleaseKeeps(s, pid);
    }
  }

  lemma ConcludeKeeps(s: State, pid: nat, e: Execution, ok: bool)
    requires Inv(s) && pid in s.procs && s.procs[pid].phase == Calling && Records(e, s.procs[pid])
    ensures Inv(Conclude(s, pid, e, ok))
  {
    SaveKeeps(s, pid, e, Finished(e));
    CountsDoNotMatter(SaveAndMove(s, pid, e, Finished(e)), Conclude(s, pid, e, ok));
  }

  /** Attempts, calls and charges are only counted. */
  lemma CountsDoNotMatter(s: State, t: State)
    requires Inv(s) && t.store == s.store && t.locks == s.locks && t.procs.Keys == s.procs.Keys
    requires forall p :: p in s.procs ==>
      t.procs[p].id == s.procs[p].id && t.procs[p].key == s.procs[p].key && t.procs[p].phase == s.procs[p].phase
    ensures Inv(t)
  {
    OwnersStay(s, t);
    SuccessStays(s, t);
  }

  lemma {:induction false} RunKeeps(s: State, actions: seq<Action>)
    requires Inv(s)
    ensures Inv(Run(s, actions))
  {
    if actions != [] {
      RunKeeps(s, actions[..|actions| - 1]);
      StepKeeps(Run(s, actions[..|actions| - 1]), actions[|actions| - 1]);
    }
  }

  // ---- the theorems ---------------------------------------------------------------------

  /** In every interleaving at most one execution has ever succeeded under a key. */
  lemma AtMostOneSuccess(actions: seq<Action>, i: string, j: string)
    requires var s := Run(Init, actions); Success(s, i) && Success(s, j) && s.store.items[i].key == s.store.items[j].key
    ensures i == j
  {
    var s := Run(Init, actions);
    RunKeeps(Init, actions);
    assert SuccessRules(s, i) && SuccessRules(s, j);
  }

  function CallsFor(calls: seq<Made>, key: Option<string>): nat {
    if calls == [] then 0
    else CallsFor(calls[..|calls| - 1], key) + if calls[|calls| - 1].key == key then 1 else 0
  }

  /** Nothing about `e` has changed since `s`, and whoever finished since then was given `e`. */
  ghost predicate Replayed(s: State, t: State, e: Execution) {
    && e.id in t.store.items && t.store.items[e.id] == e
    && CallsFor(t.calls, e.key) == CallsFor(s.calls, e.key)
    && forall p :: p in t.procs && t.procs[p].key == e.key && t.procs[p].phase.Done() ==>
         (p in s.procs && s.procs[p].phase.Done()) || t.procs[p].phase.result == e
  }

  /** A save by an active request of another key leaves `e` stored. */
  lemma SuccessIsNotOverwritten(t: State, e: Execution, a: Action)
    requires Inv(t) && Success(t, e.id) && t.store.items[e.id] == e
    ensures e.id in Step(t, a).store.items && Step(t, a).store.items[e.id] == e
  {
    SaverIsActive(t, a);
    hide Step, Enabled, LocksHeld, DistinctIds, SuccessIndexed;
    if Step(t, a).store != t.store {
      assert t.procs[a.pid].id != e.id;
    }
  }

  /** Only an active request writes the store, and it writes its own record. */
  lemma SaverIsActive(t: State, a: Action)
    ensures var u := Step(t, a);
      u.store != t.store ==>
        !a.Arrive? && a.pid in t.procs && t.procs[a.pid].phase.Active() &&
        exists x: Execution :: x.id == t.procs[a.pid].id && u.store == Saved(t.store, x)
  {
  }

  /** Only an active request calls the adapter, and the call carries its key. */
  lemma CallerIsActive(t: State, a: Action)
    ensures var u := Step(t, a);
      u.calls == t.calls ||
      (!a.Arrive? && a.pid in t.procs && t.procs[a.pid].phase.Active() && u.calls == t.calls + [Made(a.pid, t.procs[a.pid].key)])
  {
  }

  lemma NoCallUnderSuccess(t: State, e: Execution, a: Action)
    requires Inv(t) && Success(t, e.id) && t.store.items[e.id] == e
    ensures CallsFor(Step(t, a).calls, e.key) == CallsFor(t.calls, e.key)
  {
    SuccessLeavesNobodyActive(t, e);
    CallerIsActive(t, a);
    hide Inv, Success, Step;
    var calls := Step(t, a).calls;
    assert calls == t.calls || calls[..|calls| - 1] == t.calls;
  }

  /** A request only moves by its own actions. */
  lemma OthersUnmoved(t: State, a: Action, p: nat)
    requires a.Arrive? || a.pid != p
    requires p in Step(t, a).procs && Step(t, a).procs[p].phase.Done()
    ensures p in t.procs && Step(t, a).procs[p] == t.procs[p]
  {
  }

  lemma OwnKeyStays(t: State, a: Action)
    requires !a.Arrive? && a.pid in Step(t, a).procs
    ensures a.pid in t.procs && t.procs[a.pid].key == Step(t, a).procs[a.pid].key
  {
  }

  /** The only way to finish under a key that has succeeded is to be handed the success. */
  lemma FinishedWithSuccess(t: State, u: State, e: Execution, a: Action, p: nat)
    requires Inv(t) && Success(t, e.id) && t.store.items[e.id] == e && u == Step(t, a)
    requires p in u.procs && u.procs[p].key == e.key && u.procs[p].phase.Done()
    ensures p in t.procs && t.procs[p].key == e.key
    ensures t.procs[p].phase.Done() ==> t.procs[p].phase.result == u.procs[p].phase.result
    ensures !t.procs[p].phase.Done() ==> u.procs[p].phase.result == e
  {
    SuccessLeavesNobodyActive(t, e);
    hide Inv, Success, Step, Lookup;
    if a.Arrive? || a.pid != p {
      OthersUnmoved(t, a, p);
    } else {
      OwnKeyStays(t, a);
      if a.Look? && Enabled(t, a) {
        LookupFindsSuccess(t, e.key.value, e.id);
        LookAnswers(t, p, e);
      } else {
        OwnMoves(t, a);
      }
    }
  }

  lemma LookAnswers(t: State, pid: nat, e: Execution)
    requires Enabled(t, Look(pid)) && t.procs[pid].key == e.key && Keyed(e.key) && e.status == ExecSucceeded
    requires Lookup(t.store, e.key.value) == Some(e)
    ensures Step(t, Look(pid)).procs[pid] == t.procs[pid].(phase := Finished(e))
  {
  }

  /** Apart from looking up, a request that is not active finishes nothing new. */
  lemma OwnMoves(t: State, a: Action)
    requires !a.Arrive? && a.pid in t.procs && !t.procs[a.pid].phase.Active() && !(a.Look? && Enabled(t, a))
    ensures var p, u := t.procs[a.pid], Step(t, a);
      a.pid in u.procs && u.procs[a.pid].key == p.key && (u.procs[a.pid].phase.Done() <==> p.phase.Done()) &&
      (p.phase.Done() ==> u.procs[a.pid].phase.result == p.phase.result)
  {
  }

  lemma SuccessLeavesNobodyActive(t: State, e: Execution)
    requires Inv(t) && Success(t, e.id) && t.store.items[e.id] == e
    ensures Keyed(e.key) && e.status == ExecSucceeded
    ensures forall q :: q in t.procs && t.procs[q].key == e.key ==> !t.procs[q].phase.Active()
  {
    assert SuccessRules(t, e.id);
  }

  lemma ReplayedStep(s: State, t: State, e: Execution, a: Action)
    requires Inv(t) && e.status == ExecSucceeded && Keyed(e.key) && Replayed(s, t, e)
    ensures Replayed(s, Step(t, a), e)
  {
    hide Inv, Step;
    assert Success(t, e.id);
    SuccessIsNotOverwritten(t, e, a);
    NoCallUnderSuccess(t, e, a);
    var u := Step(t, a);
    forall p | p in u.procs && u.procs[p].key == e.key && u.procs[p].phase.Done()
      ensures (p in s.procs && s.procs[p].phase.Done()) || u.procs[p].phase.result == e
    {
      FinishedWithSuccess(t, u, e, a, p);
    }
  }

  /**
   Once an execution has succeeded under a key, then for good: it stays stored unchanged, the
   adapter is not called again for that key, and every request that finishes later gets it back.
   */
  lemma {:induction false} SuccessIsFinal(s: State, later: seq<Action>, e: Execution)
    requires Inv(s) && Success(s, e.id) && s.store.items[e.id] == e
    ensures Replayed(s, Run(s, later), e)
  {
    if later != [] {
      var n := |later| - 1;
      SuccessIsFinal(s, later[..n], e);
      RunKeeps(s, later[..n]);
      ReplayedStep(s, Run(s, later[..n]), e, later[n]);
    }
  }

  lemma SuccessIsFinalInEveryRun(actions: seq<Action>, later: seq<Action>, id: string)
    requires Success(Run(Init, actions), id)
    ensures Replayed(Run(Init, actions), Run(Run(Init, actions), later), Run(Init, actions).store.items[id])
  {
    RunKeeps(Init, actions);
    SuccessIsFinal(Run(Init, actions), later, Run(Init, actions).store.items[id]);
  }

  // ---- retry accounting in every interleaving -------------------------------------------

  function CallsBy(calls: seq<Made>, pid: nat): nat {
    if calls == [] then 0
    else CallsBy(calls[..|calls| - 1], pid) + if calls[|calls| - 1].pid == pid then 1 else 0
  }

  /** What the breaker was told on behalf of a request, in order. */
  function ChargesOf(charges: seq<Charge>, pid: nat): seq<bool> {
    if charges == [] then []
    else
      var last := charges[|charges| - 1];
      ChargesOf(charges[..|charges| - 1], pid) + if last.pid == pid then [last.ok] else []
  }

  /** A finished request either never called and charged nothing, or used its calls and charged one outcome. */
  predicate Settled(p: Proc, result: Execution, charges: seq<bool>) {
    (&& p.attempts == 0 && charges == []
     && if result.id == p.id then result.attempts == 0 && result.status in {ExecRejected, ExecFailed}
        else result.status == ExecSucceeded) ||
    (&& 1 <= p.attempts <= p.maxRetries + 1 && Records(result, p)
     && ((result.status == ExecSucceeded && charges == [true]) ||
         (result.status == ExecFailed && p.attempts == p.maxRetries + 1 && charges == [false])))
  }

  predicate Fair(p: Proc, calls: nat, charges: seq<bool>) {
    calls == p.attempts &&
    match p.phase
    case Queued => p.attempts == 0 && charges == []
    case Looking => p.attempts == 0 && charges == []
    case Admitting => p.attempts == 0 && charges == []
    case Ready => p.attempts <= p.maxRetries && charges == []
    case Calling => 1 <= p.attempts <= p.maxRetries + 1 && charges == []
    case Finished(result) => Settled(p, result, charges)
    case Returned(result) => Settled(p, result, charges)
  }

  predicate Accounted(s: State, pid: nat) {
    if pid in s.procs then Fair(s.procs[pid], CallsBy(s.calls, pid), ChargesOf(s.charges, pid))
    else CallsBy(s.calls, pid) == 0 && ChargesOf(s.charges, pid) == []
  }

  /** The request a lookup answers with is not the one that asks. */
  lemma AnswerIsAnothers(s: State, pid: nat, key: string)
    requires Inv(s) && Enabled(s, Look(pid)) && Lookup(s.store, key).Some?
    requires Lookup(s.store, key).value.status == ExecSucceeded && s.procs[pid].key == Some(key) && key != ""
    ensures Lookup(s.store, key).value.id != s.procs[pid].id
  {
    var id := s.store.index[key];
    assert Success(s, id);
  }

  lemma StepCalls(s: State, a: Action)
    ensures Enabled(s, a) && a.Call? ==> a.pid in s.procs && Step(s, a).calls == s.calls + [Made(a.pid, s.procs[a.pid].key)]
    ensures !(Enabled(s, a) && a.Call?) ==> Step(s, a).calls == s.calls
  {
    hide Lookup, Saved;
  }

  lemma StepCharges(s: State, a: Action)
    ensures Step(s, a).charges ==
      if Enabled(s, a) && (a.GiveUp? || a.Succeed?) then s.charges + [Charge(a.pid, a.Succeed?)] else s.charges
  {
    hide Lookup, Saved;
  }

  /** A step counts at most one call and one charge, for the request that acts. */
  lemma StepCounts(s: State, a: Action, pid: nat)
    ensures var u := Step(s, a);
      && CallsBy(u.calls, pid) == CallsBy(s.calls, pid) + (if Enabled(s, a) && a.Call? && a.pid == pid then 1 else 0)
      && ChargesOf(u.charges, pid) == ChargesOf(s.charges, pid) +
           if Enabled(s, a) && (a.GiveUp? || a.Succeed?) && a.pid == pid then [a.Succeed?] else []
  {
    StepCalls(s, a);
    StepCharges(s, a);
    hide Step, Enabled;
    var u := Step(s, a);
    if Enabled(s, a) && a.Call? {
      assert u.calls[..|s.calls|] == s.calls;
    } else if Enabled(s, a) && (a.GiveUp? || a.Succeed?) {
      assert u.charges[..|s.charges|] == s.charges;
    }
  }

  lemma BystanderUnmoved(s: State, a: Action, pid: nat)
    requires a.pid != pid
    ensures pid in Step(s, a).procs <==> pid in s.procs
    ensures pid in s.procs ==> Step(s, a).procs[pid] == s.procs[pid]
  {
    hide Lookup, Saved;
  }

  lemma LookAccounts(s: State, pid: nat)
    requires Inv(s) && Accounted(s, pid) && Enabled(s, Look(pid))
    ensures Accounted(Step(s, Look(pid)), pid)
  {
    hide Inv, Lookup, CallsBy, ChargesOf;
    var key := s.procs[pid].key;
    if Keyed(key) && Lookup(s.store, key.value).Some? && Lookup(s.store, key.value).value.status == ExecSucceeded {
      AnswerIsAnothers(s, pid, key.value);
    }
  }

  /** Where a request stands after an action of its own. */
  lemma ActorMoves(s: State, a: Action)
    requires Enabled(s, a) && !a.Look? && !a.Arrive?
    ensures a.pid in s.procs && a.pid in Step(s, a).procs
    ensures var p, q := s.procs[a.pid], Step(s, a).procs[a.pid];
      match a
      case Acquire(_) => p.phase == Queued && q == p.(phase := Looking)
      case Refuse(_, e) =>
        p.phase == Admitting && Records(e, p) && e.status in {ExecRejected, ExecFailed} && q == p.(phase := Finished(e))
      case Admit(_, _) => p.phase == Admitting && q == p.(phase := Ready)
      case Call(_) => p.phase == Ready && q == p.(phase := Calling, attempts := p.attempts + 1)
      case Retry(_) => p.phase == Calling && p.attempts <= p.maxRetries && q == p.(phase := Ready)
      case GiveUp(_, e) =>
        p.phase == Calling && p.attempts > p.maxRetries && Records(e, p) && e.status == ExecFailed &&
        q == p.(phase := Finished(e))
      case Succeed(_, e) =>
        p.phase == Calling && Records(e, p) && e.status == ExecSucceeded && q == p.(phase := Finished(e))
      case Release(_) => p.phase.Finished? && q == p.(phase := Returned(p.phase.result))
      case _ => true
  {
    hide Lookup, Saved;
  }

  lemma ArriveAccounts(s: State, a: Action)
    requires Accounted(s, a.pid) && Enabled(s, a) && a.Arrive?
    ensures Accounted(Step(s, a), a.pid)
  {
    hide CallsBy, ChargesOf;
  }

  lemma ActorAccounts(s: State, a: Action)
    requires Accounted(s, a.pid) && Enabled(s, a) && !a.Look? && !a.Arrive?
    ensures Accounted(Step(s, a), a.pid)
  {
    hide Step, Enabled, CallsBy, ChargesOf;
    StepCounts(s, a, a.pid);
    ActorMoves(s, a);
    assert ChargesOf(s.charges, a.pid) + [] == ChargesOf(s.charges, a.pid);
  }

  lemma StepAccounts(s: State, a: Action, pid: nat)
    requires Inv(s) && Accounted(s, pid)
    ensures Accounted(Step(s, a), pid)
  {
    hide Inv, Step, Fair, CallsBy, ChargesOf;
    if !Enabled(s, a) {
      NothingHappens(s, a);
    } else if a.pid != pid {
      StepCounts(s, a, pid);
      BystanderUnmoved(s, a, pid);
      assert ChargesOf(s.charges, pid) + [] == ChargesOf(s.charges, pid);
    } else if a.Arrive? {
      ArriveAccounts(s, a);
    } else if a.Look? {
      LookAccounts(s, pid);
    } else {
      ActorAccounts(s, a);
    }
  }

  lemma NothingHappens(s: State, a: Action)
    requires !Enabled(s, a)
    ensures Step(s, a) == s
  {
  }

  lemma {:induction false} RunAccounts(actions: seq<Action>, pid: nat)
    ensures Accounted(Run(Init, actions), pid)
  {
    if actions != [] {
      var n := |actions| - 1;
      RunAccounts(actions[..n], pid);
      RunKeeps(Init, actions[..n]);
      StepAccounts(Run(Init, actions[..n]), actions[n], pid);
    }
  }

  /**
   In every interleaving a request that is through made at most max_retries + 1 calls. One that
   called the adapter charged the breaker exactly one outcome, its own, a failure only after all
   attempts; one that did not call charged nothing.
   */
  lemma FinishedIsAccounted(actions: seq<Action>, pid: nat)
    requires pid in Run(Init, actions).procs && Run(Init, actions).procs[pid].phase.Done()
    ensures var s := Run(Init, actions);
      var p, calls, charges := s.procs[pid], CallsBy(s.calls, pid), ChargesOf(s.charges, pid);
      var result := p.phase.result;
      && calls <= p.maxRetries + 1
      && (calls == 0 ==> charges == [])
      && (calls > 0 ==> result.id == p.id && result.attempts == calls && charges == [result.status == ExecSucceeded])
      && (calls > 0 && result.status != ExecSucceeded ==> result.status == ExecFailed && calls == p.maxRetries + 1)
      && (result.id == p.id ==> result.attempts == calls)
      && (calls == 0 && result.id == p.id ==> result.status == ExecRejected || result.status == ExecFailed)
      && (result.id != p.id ==> calls == 0 && result.status == ExecSucceeded)
  {
    RunAccounts(actions, pid);
  }

  // ---- one request alone ----------------------------------------------------------------

  lemma {:induction false} RunAppend(s: State, a: seq<Action>, b: seq<Action>)
    ensures Run(s, a + b) == Run(Run(s, a), b)
  {
    if b == [] {
      assert a + b == a;
    } else {
      var n := |b| - 1;
      assert (a + b)[..|a + b| - 1] == a + b[..n];
      RunAppend(s, a, b[..n]);
    }
  }

  function RetryActions(pid: nat, n: nat): seq<Action> {
    if n == 0 then [] else RetryActions(pid, n - 1) + [Call(pid), Retry(pid)]
  }

  /** From admission to the outcome r, with r.attempts calls. */
  function AdapterActions(pid: nat, r: Execution): seq<Action>
    requires r.attempts >= 1
  {
    [Admit(pid, r.(status := ExecRunning, attempts := 0))] + RetryActions(pid, r.attempts - 1) +
    [Call(pid), if r.status == ExecSucceeded then Succeed(pid, r) else GiveUp(pid, r)]
  }

  /** One request that nobody interrupts: answered from the store, refused, or run to the outcome r. */
  function LoneActions(pid: nat, key: Option<string>, id: string, maxRetries: nat, r: Execution, replayed: bool): seq<Action> {
    [Arrive(pid, key, id, maxRetries), Acquire(pid), Look(pid)] +
    (if replayed then [] else if r.attempts == 0 then [Refuse(pid, r)] else AdapterActions(pid, r)) +
    [Release(pid)]
  }

  /** Only this request has moved since s, and it has got to p, with this store and so many calls. */
  predicate At(s: State, t: State, pid: nat, p: Proc, store: StoreState, calls: nat) {
    && t.procs == s.procs[pid := p] && t.store == store
    && t.locks == (if Keyed(p.key) && p.phase.Holding() then s.locks[p.key.value := pid] else s.locks)
    && CallsBy(t.calls, pid) == CallsBy(s.calls, pid) + calls
  }

  lemma ThreeSteps(s: State, a: Action, b: Action, c: Action)
    ensures Run(s, [a, b, c]) == Step(Step(Step(s, a), b), c)
  {
    assert [a, b, c][..2] == [a, b] && [a, b][..1] == [a] && [a][..0] == [];
    assert Run(s, [a, b]) == Step(Run(s, [a]), b);
  }

  lemma TwoSteps(s: State, a: Action, b: Action)
    ensures Run(s, [a, b]) == Step(Step(s, a), b)
  {
    assert [a, b][..1] == [a] && [a][..0] == [];
    assert Run(s, [a]) == Step(s, a);
  }

  lemma OneStep(s: State, a: Action)
    ensures Run(s, [a]) == Step(s, a)
  {
    assert [a][..0] == [];
  }

  lemma ArriveStage(s: State, pid: nat, p: Proc)
    requires Enabled(s, Arrive(pid, p.key, p.id, p.maxRetries)) && p.phase == Queued && p.attempts == 0
    ensures At(s, Step(s, Arrive(pid, p.key, p.id, p.maxRetries)), pid, p, s.store, 0)
  {
  }

  lemma AcquireStage(s: State, t: State, pid: nat, p: Proc)
    requires At(s, t, pid, p, s.store, 0) && p.phase == Queued && (Keyed(p.key) ==> p.key.value !in s.locks)
    ensures At(s, Step(t, Acquire(pid)), pid, p.(phase := Looking), s.store, 0)
  {
  }

  lemma LookStage(s: State, t: State, pid: nat, p: Proc)
    requires At(s, t, pid, p, s.store, 0) && p.phase == Looking
    ensures At(s, Step(t, Look(pid)), pid, p.(phase := if EarlierSuccess(s.store, p.key).Some?
                                                       then Finished(EarlierSuccess(s.store, p.key).value)
                                                       else Admitting), s.store, 0)
  {
    hide Lookup;
  }

  lemma EntryStage(s: State, pid: nat, p: Proc)
    requires Enabled(s, Arrive(pid, p.key, p.id, p.maxRetries)) && (Keyed(p.key) ==> p.key.value !in s.locks)
    requires p.phase == Queued && p.attempts == 0
    ensures var t := Run(s, [Arrive(pid, p.key, p.id, p.maxRetries), Acquire(pid), Look(pid)]);
      At(s, t, pid, p.(phase := if EarlierSuccess(s.store, p.key).Some?
                                then Finished(EarlierSuccess(s.store, p.key).value) else Admitting), s.store, 0)
  {
    hide Lookup, Step, At;
    ThreeSteps(s, Arrive(pid, p.key, p.id, p.maxRetries), Acquire(pid), Look(pid));
    var t := Step(s, Arrive(pid, p.key, p.id, p.maxRetries));
    ArriveStage(s, pid, p);
    AcquireStage(s, t, pid, p);
    LookStage(s, Step(t, Acquire(pid)), pid, p.(phase := Looking));
  }

  lemma SaveStage(s: State, t: State, pid: nat, p: Proc, store: StoreState, a: Action)
    requires At(s, t, pid, p, store, 0) && p.phase == Admitting && a.pid == pid
    requires (a.Refuse? && a.e.status in {ExecRejected, ExecFailed}) || (a.Admit? && a.e.status == ExecRunning)
    requires Records(a.e, p)
    ensures At(s, Step(t, a), pid, p.(phase := if a.Refuse? then Finished(a.e) else Ready), Saved(store, a.e), 0)
  {
    hide Saved;
  }

  lemma CallStage(s: State, t: State, pid: nat, p: Proc, store: StoreState, calls: nat)
    requires At(s, t, pid, p, store, calls) && p.phase == Ready
    ensures At(s, Step(t, Call(pid)), pid, p.(phase := Calling, attempts := p.attempts + 1), store, calls + 1)
  {
    StepCounts(t, Call(pid), pid);
  }

  lemma RetryStage(s: State, t: State, pid: nat, p: Proc, store: StoreState, calls: nat)
    requires At(s, t, pid, p, store, calls) && p.phase == Calling && p.attempts <= p.maxRetries
    ensures At(s, Step(t, Retry(pid)), pid, p.(phase := Ready), store, calls)
  {
  }

  lemma ConcludeStage(s: State, t: State, pid: nat, p: Proc, store: StoreState, calls: nat, a: Action)
    requires At(s, t, pid, p, store, calls) && p.phase == Calling && a.pid == pid
    requires (a.GiveUp? && a.e.status == ExecFailed && p.attempts > p.maxRetries) ||
             (a.Succeed? && a.e.status == ExecSucceeded)
    requires Records(a.e, p)
    ensures At(s, Step(t, a), pid, p.(phase := Finished(a.e)), Saved(store, a.e), calls)
  {
    hide Saved;
  }

  lemma ReleaseStage(s: State, t: State, pid: nat, p: Proc, store: StoreState, calls: nat)
    requires At(s, t, pid, p, store, calls) && p.phase.Finished? && (Keyed(p.key) ==> p.key.value !in s.locks)
    ensures At(s, Step(t, Release(pid)), pid, p.(phase := Returned(p.phase.result)), store, calls)
  {
    var next := Step(t, Release(pid));
    assert next.locks == s.locks;
  }

  lemma {:induction false} RetriesStage(s: State, t: State, pid: nat, p: Proc, store: StoreState, n: nat)
    requires At(s, t, pid, p, store, 0) && p.phase == Ready && p.attempts == 0 && n <= p.maxRetries
    ensures At(s, Run(t, RetryActions(pid, n)), pid, p.(attempts := n), store, n)
  {
    hide At, Step;
    if n > 0 {
      RetriesStage(s, t, pid, p, store, n - 1);
      var u := Run(t, RetryActions(pid, n - 1));
      RunAppend(t, RetryActions(pid, n - 1), [Call(pid), Retry(pid)]);
      TwoSteps(u, Call(pid), Retry(pid));
      CallStage(s, u, pid, p.(attempts := n - 1), store, n - 1);
      RetryStage(s, Step(u, Call(pid)), pid, p.(phase := Calling, attempts := n), store, n);
      assert p.(phase := Calling, attempts := n).(phase := Ready) == p.(attempts := n);
    } else {
      assert p.(attempts := 0) == p;
    }
  }

  lemma AdapterStage(s: State, t: State, pid: nat, p: Proc, r: Execution)
    requires At(s, t, pid, p, s.store, 0) && p.phase == Admitting && p.attempts == 0
    requires r.id == p.id && r.key == p.key && 1 <= r.attempts <= p.maxRetries + 1
    requires r.status == ExecSucceeded || (r.status == ExecFailed && r.attempts == p.maxRetries + 1)
    ensures At(s, Run(t, AdapterActions(pid, r)), pid, p.(phase := Finished(r), attempts := r.attempts),
               Saved(s.store, r), r.attempts)
  {
    hide At, Step, RetryActions;
    var start, n := r.(status := ExecRunning, attempts := 0), r.attempts - 1;
    var store := Saved(s.store, start);
    var last := if r.status == ExecSucceeded then Succeed(pid, r) else GiveUp(pid, r);
    assert AdapterActions(pid, r) == [Admit(pid, start)] + (RetryActions(pid, n) + [Call(pid), last]);
    RunAppend(t, [Admit(pid, start)], RetryActions(pid, n) + [Call(pid), last]);
    OneStep(t, Admit(pid, start));
    var t1 := Step(t, Admit(pid, start));
    SaveStage(s, t, pid, p, s.store, Admit(pid, start));
    RunAppend(t1, RetryActions(pid, n), [Call(pid), last]);
    RetriesStage(s, t1, pid, p.(phase := Ready), store, n);
    var t2 := Run(t1, RetryActions(pid, n));
    TwoSteps(t2, Call(pid), last);
    CallStage(s, t2, pid, p.(phase := Ready, attempts := n), store, n);
    ConcludeStage(s, Step(t2, Call(pid)), pid, p.(phase := Calling, attempts := n + 1), store, n + 1, last);
    assert Saved(store, r) == Saved(s.store, r);
  }

  /**
   A request that nobody interrupts is a run of this machine: it leaves the store and the calls
   that ExecuteLocked leaves, and every other request and lock as it was.
   */
  lemma ExecuteLockedIsARun(s: State, pid: nat, p: Proc, r: Execution)
    requires Enabled(s, Arrive(pid, p.key, p.id, p.maxRetries)) && (Keyed(p.key) ==> p.key.value !in s.locks)
    requires p.phase == Queued && p.attempts == 0 && EndsWith(s.store, p.key, p.id, p.maxRetries, r)
    ensures var replayed := EarlierSuccess(s.store, p.key).Some?;
      var n := if replayed then 0 else r.attempts;
      At(s, Run(s, LoneActions(pid, p.key, p.id, p.maxRetries, r, replayed)), pid,
         p.(phase := Returned(r), attempts := n), if replayed then s.store else Saved(s.store, r), n)
  {
    hide At, Step, Lookup;
    var entry := [Arrive(pid, p.key, p.id, p.maxRetries), Acquire(pid), Look(pid)];
    var replayed := EarlierSuccess(s.store, p.key).Some?;
    var work := if replayed then [] else if r.attempts == 0 then [Refuse(pid, r)] else AdapterActions(pid, r);
    EntryStage(s, pid, p);
    var t := Run(s, entry);
    RunAppend(s, entry + work, [Release(pid)]);
    RunAppend(s, entry, work);
    var u := Run(t, work);
    OneStep(u, Release(pid));
    if replayed {
      ReleaseStage(s, t, pid, p.(phase := Finished(r)), s.store, 0);
    } else if r.attempts == 0 {
      OneStep(t, Refuse(pid, r));
      SaveStage(s, t, pid, p.(phase := Admitting), s.store, Refuse(pid, r));
      ReleaseStage(s, u, pid, p.(phase := Finished(r)), Saved(s.store, r), 0);
    } else {
      AdapterStage(s, t, pid, p.(phase := Admitting), r);
      ReleaseStage(s, u, pid, p.(phase := Finished(r), attempts := r.attempts), Saved(s.store, r), r.attempts);
    }
  }
}
