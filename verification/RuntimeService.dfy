/**
 One request through the integration runtime (app/runtime/service.py): idempotency lookup,
 admission, the retry loop with exponential backoff, and what is charged to the breaker.
 */
module RuntimeService {
  import opened Common
  import opened ExecutionStore
  import RL = RateLimit
  import CB = CircuitBreaker

  datatype Request = Request(provider: string, workflow: string, key: Option<string>, maxRetries: nat)

  /** What one adapter call does; an unsuccessful result may carry an error text. */
  datatype CallResult =
    | Success(data: int)
    | Unsuccessful(message: Option<string>)
    | TimedOut
    | Raised(name: string)

  type Adapter = nat -> CallResult

  function ErrorText(r: CallResult): string
    requires !r.Success?
  {
    match r
    case Unsuccessful(m) => if m.Some? && m.value != "" then m.value else "Integration failed"
    case TimedOut => "Integration execution timed out"
    case Raised(name) => "Integration adapter failed: " + name
  }

  /** Total backoff after `n` failed attempts that were each followed by a sleep. */
  function Slept(base: real, n: nat): real {
    if n == 0 then 0.0 else Slept(base, n - 1) + base * Pow2(n - 1) as real
  }

  lemma SleptNext(base: real, n: nat)
    ensures Slept(base, n + 1) == Slept(base, n) + base * Pow2(n) as real
  {
  }

  lemma SleptStarts(base: real, id: string)
    ensures Slept(base, 0) == 0.0 && CallsUpTo(id, 0) == []
  {
  }

  lemma CallsNext(id: string, n: nat)
    ensures CallsUpTo(id, n + 1) == CallsUpTo(id, n) + [(id, n + 1)]
  {
  }

  /** The sleeps add up to base * (2^n - 1). */
  lemma {:induction false} SleptIsGeometric(base: real, n: nat)
    ensures Slept(base, n) == base * (Pow2(n) - 1) as real
  {
    if n > 0 {
      SleptIsGeometric(base, n - 1);
      var p := Pow2(n - 1) as real;
      assert (Pow2(n) - 1) as real == (p - 1.0) + p;
      assert base * ((p - 1.0) + p) == base * (p - 1.0) + base * p;
    }
  }

  /** Attempt n is the first success within the budget. */
  predicate FirstSuccess(a: Adapter, maxRetries: nat, n: nat) {
    1 <= n <= maxRetries + 1 && a(n).Success? && forall j :: 1 <= j < n ==> !a(j).Success?
  }

  predicate AllFail(a: Adapter, maxRetries: nat) {
    forall j :: 1 <= j <= maxRetries + 1 ==> !a(j).Success?
  }

  /** How a request that reached the adapter ends: at its first success, or with its last failure. */
  predicate Finished(request: Request, adapter: Adapter, r: Execution) {
    if r.status == ExecSucceeded then
      FirstSuccess(adapter, request.maxRetries, r.attempts) && r.data == adapter(r.attempts).data && r.error == None
    else
      r.status == ExecFailed && AllFail(adapter, request.maxRetries) && r.attempts == request.maxRetries + 1 &&
      r.error == Some(ErrorText(adapter(request.maxRetries + 1)))
  }

  /** The error text of an exhausted execution is that of its last attempt. */
  lemma ErrorTexts(request: Request, adapter: Adapter, r: Execution)
    requires Finished(request, adapter, r) && r.status != ExecSucceeded
    ensures match adapter(request.maxRetries + 1)
      case Unsuccessful(None) => r.error == Some("Integration failed")
      case Unsuccessful(Some(m)) => r.error == Some(if m == "" then "Integration failed" else m)
      case TimedOut => r.error == Some("Integration execution timed out")
      case Raised(name) => r.error == Some("Integration adapter failed: " + name)
      case Success(_) => false
  {
  }

  /** The calls of one execution: attempt by attempt, all of them its own. */
  lemma CallsSpelledOut(id: string, n: nat)
    ensures |CallsUpTo(id, n)| == n && forall i :: 0 <= i < n ==> CallsUpTo(id, n)[i] == (id, i + 1)
  {
  }

  /**
   Limiter and breaker are shared by exactly the requests of one provider and workflow, as long
   as provider names contain no colon.
   */
  lemma KeysIdentify(provider: string, workflow: string, provider': string, workflow': string)
    requires ':' !in provider && ':' !in provider'
    ensures provider + ":" + workflow == provider' + ":" + workflow' <==> provider == provider' && workflow == workflow'
  {
    var a, b := provider + ":" + workflow, provider' + ":" + workflow';
    if a == b {
      FirstColon(provider, workflow);
      FirstColon(provider', workflow');
      assert |provider| == |provider'|;
      assert provider == a[..|provider|] && provider' == b[..|provider|];
      assert workflow == a[|provider| + 1..] && workflow' == b[|provider| + 1..];
    }
  }

  /** The colon after a provider without colons is the first one. */
  lemma FirstColon(provider: string, workflow: string)
    requires ':' !in provider
    ensures var a := provider + ":" + workflow;
      a[|provider|] == ':' && forall i :: 0 <= i < |provider| ==> a[i] != ':'
  {
  }

  /** With a colon in a provider name two different pairs can share a key. */
  lemma KeysCanCollide()
    ensures "a:b" + ":" + "c" == "a" + ":" + "b:c"
  {
  }

  /** Two workflows of one provider never touch each other's histories. */
  lemma WorkflowsAreSeparate<T>(was: map<string, seq<T>>, now: map<string, seq<T>>, provider: string,
                                workflow: string, other: string, added: seq<T>)
    requires workflow != other && Grew(was, now, provider + ":" + workflow, added)
    ensures HistoryOf(now, provider + ":" + other) == HistoryOf(was, provider + ":" + other)
  {
    var a, b := provider + ":" + workflow, provider + ":" + other;
    assert a[|provider| + 1..] == workflow && b[|provider| + 1..] == other;
  }

  lemma SaveTwice(s: StoreState, first: Execution, second: Execution)
    requires first.id == second.id && first.key == second.key
    ensures Saved(Saved(s, first), second) == Saved(s, second)
  {
  }

  /** A clock that never runs backwards. */
  class Clock {
    var now: real

    constructor ()
    {
      now := 0.0;
    }

    method Read() returns (t: real)
      modifies this
      ensures t == now && now >= old(now)
    {
      var elapsed: real := *;
      if elapsed > 0.0 {
        now := now + elapsed;
      }
      t := now;
    }
  }

  /** Who was called for which attempt, and how long the runtime has slept in all. */
  class World {
    var calls: seq<(string, nat)>
    var slept: real

    constructor ()
      ensures calls == [] && slept == 0.0
    {
      calls, slept := [], 0.0;
    }
  }

  /** The calls 1..n of one execution. */
  function CallsUpTo(id: string, n: nat): seq<(string, nat)> {
    seq(n, i requires 0 <= i => (id, i + 1))
  }

  class IntegrationRuntime {
    const registry: set<string>
    const normalise: string -> string
    const base: real
    const store: InMemoryExecutionStore
    const limiter: RL.SlidingWindowRateLimiter
    const breaker: CB.Breaker
    const clock: Clock
    const world: World

    constructor (registry: set<string>, normalise: string -> string, base: real, store: InMemoryExecutionStore,
                 limiter: RL.SlidingWindowRateLimiter, breaker: CB.Breaker, clock: Clock, world: World)
      ensures this.registry == registry && this.normalise == normalise && this.base == base
      ensures this.store == store && this.limiter == limiter && this.breaker == breaker
      ensures this.clock == clock && this.world == world
    {
      this.registry, this.normalise, this.base := registry, normalise, base;
      this.store, this.limiter, this.breaker, this.clock, this.world := store, limiter, breaker, clock, world;
    }

    ghost predicate Valid()
      reads limiter, breaker, clock
    {
      limiter.Valid() && breaker.Valid() && limiter.clock <= clock.now
    }

    method Call(id: string, attempt: nat, adapter: Adapter) returns (r: CallResult)
      modifies world
      ensures r == adapter(attempt)
      ensures world.calls == old(world.calls) + [(id, attempt)] && world.slept == old(world.slept)
    {
      world.calls := world.calls + [(id, attempt)];
      r := adapter(attempt);
    }

    method Sleep(seconds: real)
      modifies world, clock
      ensures world.calls == old(world.calls) && world.slept == old(world.slept) + seconds
      ensures clock.now >= old(clock.now)
    {
      world.slept := world.slept + seconds;
      var woken := clock.Read();
    }

    /** The attempts: calls, sleeps and the error left behind, until a success or the last failure. */
    method Attempts(request: Request, start: Execution, adapter: Adapter) returns (execution: Execution)
      modifies world, clock
      ensures clock.now >= old(clock.now)
      ensures execution.status == ExecSucceeded ==>
        FirstSuccess(adapter, request.maxRetries, execution.attempts) &&
        execution == start.(status := ExecSucceeded, attempts := execution.attempts,
                            data := adapter(execution.attempts).data, error := None) &&
        world.slept == old(world.slept) + Slept(base, execution.attempts - 1)
      ensures execution.status != ExecSucceeded ==>
        AllFail(adapter, request.maxRetries) &&
        execution == start.(status := ExecFailed, attempts := request.maxRetries + 1,
                            error := Some(ErrorText(adapter(request.maxRetries + 1)))) &&
        world.slept == old(world.slept) + Slept(base, request.maxRetries)
      ensures world.calls == old(world.calls) + CallsUpTo(start.id, execution.attempts)
    {
      hide Slept, Pow2, CallsUpTo, ErrorText;
      SleptStarts(base, start.id);
      assert world.calls + [] == world.calls;
      execution := start;
      for attempt := 1 to request.maxRetries + 2
        invariant forall j :: 1 <= j < attempt ==> !adapter(j).Success?
        invariant attempt == 1 ==> execution == start && world.slept == old(world.slept) && world.calls == old(world.calls)
        invariant attempt > 1 ==> execution == start.(attempts := attempt - 1, error := Some(ErrorText(adapter(attempt - 1))))
        invariant clock.now >= old(clock.now)
        invariant world.calls == old(world.calls) + CallsUpTo(start.id, attempt - 1)
        invariant world.slept == old(world.slept) +
          Slept(base, if attempt - 1 <= request.maxRetries then attempt - 1 else request.maxRetries)
      {
        execution := execution.(attempts := attempt);
        var result := Call(start.id, attempt, adapter);
        CallsNext(start.id, attempt - 1);
        if result.Success? {
          execution := execution.(status := ExecSucceeded, data := result.data, error := None);
          return;
        }
        execution := execution.(error := Some(ErrorText(result)));
        if attempt <= request.maxRetries {
          SleptNext(base, attempt - 1);
          Sleep(base * Pow2(attempt - 1) as real);
        }
      }
      execution := execution.(status := ExecFailed);
    }

    /** Asks the limiter, then the breaker; the breaker is not asked when the limiter refuses. */
    method Admit(key: string) returns (limited: bool, open: bool, ghost t1: real, ghost t2: real)
      requires Valid()
      modifies limiter, breaker, clock
      ensures Valid() && clock.now >= t2 >= t1 >= old(clock.now)
      ensures limited <==> RL.Count(old(limiter.History(key)), t1 - limiter.window, t1) >= limiter.limit
      ensures Grew(old(limiter.admitted), limiter.admitted, key, if limited then [] else [t1])
      ensures limited ==> !open
      ensures !limited ==> open == !CB.Passes(CB.Replay(old(breaker.History(key)), breaker.settings), t2, breaker.settings)
      ensures Grew(old(breaker.history), breaker.history, key, if limited then [] else [CB.Asked(t2)])
    {
      hide RL.Count, Grew, CB.Replay, CB.Passes, RL.SlidingWindowRateLimiter.Valid, CB.Breaker.Valid;
      var now := clock.Read();
      t1, t2 := now, now;
      var allowed := limiter.Allow(key, now);
      if !allowed {
        GrewNothing(breaker.history, key);
        return true, false, t1, t2;
      }
      var later := clock.Read();
      t2 := later;
      var passed := breaker.Allow(key, later);
      return false, !passed, t1, t2;
    }

    /** The stored success for a key, if there is one. */
    function StoredSuccess(request: Request): Option<Execution>
      reads store
    {
      EarlierSuccess(store.State(), request.key)
    }

    /** Saves the running record, makes the attempts, charges the breaker once and saves the outcome. */
    method RunAdapter(request: Request, start: Execution, adapter: Adapter) returns (r: Execution, ghost t3: real)
      requires Valid() && start.status == ExecRunning && start.attempts == 0 && start.key == request.key
      modifies store, breaker, clock, world
      ensures Valid() && store.State() == Saved(old(store.State()), r)
      ensures r == start.(status := r.status, attempts := r.attempts, data := r.data, error := r.error)
      ensures Finished(request, adapter, r)
      ensures Grew(old(breaker.history), breaker.history, KeyOf(request),
        [if r.status == ExecSucceeded then CB.Succeeded else CB.Failed(t3)])
      ensures world.calls == old(world.calls) + CallsUpTo(start.id, r.attempts)
      ensures world.slept == old(world.slept) + Slept(base, r.attempts - 1)
    {
      hide CB.Replay, Slept, Grew, RL.SlidingWindowRateLimiter.Valid, CB.Breaker.Valid, FirstSuccess, AllFail;
      ghost var entry := store.State();
      store.Save(start);
      r := Attempts(request, start, adapter);
      t3 := 0.0;
      if r.status == ExecSucceeded {
        breaker.Success(KeyOf(request));
      } else {
        var now := clock.Read();
        t3 := now;
        breaker.Failure(KeyOf(request), now);
      }
      SaveTwice(entry, start, r);
      store.Save(r);
    }

    /** A request that found no stored success: admission, then the adapter. */
    method ExecuteFresh(request: Request, id: string, adapter: Adapter)
      returns (r: Execution, ghost t1: real, ghost t2: real, ghost t3: real)
      requires Valid()
      modifies store, limiter, breaker, clock, world
      ensures Valid() && store.State() == Saved(old(store.State()), r)
      ensures r.id == id && r.provider == request.provider && r.workflow == request.workflow && r.key == request.key
      ensures Settled(request, adapter, r, old(limiter.History(KeyOf(request))), old(breaker.History(KeyOf(request))), t1, t2)
      ensures Grew(old(limiter.admitted), limiter.admitted, KeyOf(request), if RateLimited(r) then [] else [t1])
      ensures Grew(old(breaker.history), breaker.history, KeyOf(request), Charges(r, t2, t3))
      ensures world.calls == old(world.calls) + CallsUpTo(id, r.attempts)
      ensures world.slept == old(world.slept) + Slept(base, if r.attempts == 0 then 0 else r.attempts - 1)
    {
      hide CB.Replay, RL.Count, Grew, AllFail, RL.SlidingWindowRateLimiter.Valid, CB.Breaker.Valid;
      t3 := 0.0;
      var key := KeyOf(request);
      var execution := Execution(id, request.provider, request.workflow, ExecPending, 0, request.key, 0, None);
      var limited, open;
      limited, open, t1, t2 := Admit(key);
      if limited {
        r := execution.(status := ExecRejected, error := Some("Rate limit exceeded"));
        store.Save(r);
        return;
      }
      if open {
        r := execution.(status := ExecRejected, error := Some("Circuit breaker is open"));
        store.Save(r);
        return;
      }
      if normalise(request.provider) !in registry {
        r := execution.(status := ExecFailed, error := Some("'Unknown connector: " + request.provider + "'"));
        store.Save(r);
        return;
      }
      ghost var was, asked := old(breaker.history), breaker.history;
      execution := execution.(status := ExecRunning);
      r, t3 := RunAdapter(request, execution, adapter);
      GrewTwice(was, asked, breaker.history, key, [CB.Asked(t2)],
                   [if r.status == ExecSucceeded then CB.Succeeded else CB.Failed(t3)]);
      assert Finished(request, adapter, r) && r.attempts >= 1;
      assert Charges(r, t2, t3) == [CB.Asked(t2)] + [if r.status == ExecSucceeded then CB.Succeeded else CB.Failed(t3)];
    }

    /**
     One request from lookup to final save, `id` being the fresh execution id. The ghost
     results say when the limiter and the breaker were asked, and when a failure was charged.
     */
    method ExecuteLocked(request: Request, id: string, adapter: Adapter)
      returns (r: Execution, ghost t1: real, ghost t2: real, ghost t3: real)
      requires Valid()
      modifies store, limiter, breaker, clock, world
      ensures Valid() && EndsWith(old(store.State()), request.key, id, request.maxRetries, r)
      ensures forall k :: k != request.provider + ":" + request.workflow ==>
        HistoryOf(limiter.admitted, k) == HistoryOf(old(limiter.admitted), k) &&
        HistoryOf(breaker.history, k) == HistoryOf(old(breaker.history), k)
      ensures old(StoredSuccess(request)).Some? ==>
        (r == old(StoredSuccess(request)).value && store.State() == old(store.State()) &&
         limiter.admitted == old(limiter.admitted) && breaker.history == old(breaker.history) &&
         world.calls == old(world.calls) && world.slept == old(world.slept))
      ensures old(StoredSuccess(request)).None? ==>
        (store.State() == Saved(old(store.State()), r) &&
         r.id == id && r.provider == request.provider && r.workflow == request.workflow && r.key == request.key &&
         Settled(request, adapter, r, old(limiter.History(KeyOf(request))), old(breaker.History(KeyOf(request))), t1, t2) &&
         Grew(old(limiter.admitted), limiter.admitted, KeyOf(request), if RateLimited(r) then [] else [t1]) &&
         Grew(old(breaker.history), breaker.history, KeyOf(request), Charges(r, t2, t3)) &&
         world.calls == old(world.calls) + CallsUpTo(id, r.attempts) &&
         world.slept == old(world.slept) + Slept(base, if r.attempts == 0 then 0 else r.attempts - 1))
      ensures old(StoredSuccess(request)).None? ==>
        var admitted := old(HistoryOf(limiter.admitted, request.provider + ":" + request.workflow));
        && (RateLimited(r) <==> RL.Count(admitted, t1 - limiter.window, t1) >= limiter.limit)
        && HistoryOf(limiter.admitted, request.provider + ":" + request.workflow) ==
             admitted + if RateLimited(r) then [] else [t1]
      ensures old(StoredSuccess(request)).None? ==>
        var events := old(HistoryOf(breaker.history, request.provider + ":" + request.workflow));
        && (r.status == ExecRejected <==>
              RateLimited(r) || !CB.Passes(CB.Replay(events, breaker.settings), t2, breaker.settings))
        && HistoryOf(breaker.history, request.provider + ":" + request.workflow) == events + Charges(r, t2, t3)
    {
      hide Settled, Charges, Slept, CallsUpTo, Saved, RateLimited, Valid;
      t1, t2, t3 := 0.0, 0.0, 0.0;
      if request.key.Some? && request.key.value != "" {
        var earlier := store.ByIdempotencyKey(request.key.value);
        if earlier.Some? && earlier.value.status == ExecSucceeded {
          return earlier.value, t1, t2, t3;
        }
      }
      ghost var admissions, events := limiter.History(KeyOf(request)), breaker.History(KeyOf(request));
      r, t1, t2, t3 := ExecuteFresh(request, id, adapter);
      SettledEnds(request, adapter, r, admissions, events, t1, t2);
      SettledMeans(request, adapter, r, admissions, events, t1, t2, t3);
    }

    lemma SettledEnds(request: Request, adapter: Adapter, r: Execution, admissions: seq<real>, events: seq<CB.Event>,
                      t1: real, t2: real)
      requires Settled(request, adapter, r, admissions, events, t1, t2)
      ensures r.attempts <= request.maxRetries + 1
      ensures r.attempts == 0 ==> r.status in {ExecRejected, ExecFailed}
      ensures r.attempts > 0 ==>
        r.status == ExecSucceeded || (r.status == ExecFailed && r.attempts == request.maxRetries + 1)
    {
      hide RL.Count, CB.Replay, CB.Passes;
    }

    /** What the outcome predicate of a request without a stored success says, case by case. */
    lemma SettledMeans(request: Request, adapter: Adapter, r: Execution, admissions: seq<real>, events: seq<CB.Event>,
                       t1: real, t2: real, t3: real)
      requires Settled(request, adapter, r, admissions, events, t1, t2)
      ensures var limited := RL.Count(admissions, t1 - limiter.window, t1) >= limiter.limit;
        var open := !CB.Passes(CB.Replay(events, breaker.settings), t2, breaker.settings);
        && (limited ==>
              && r.status == ExecRejected && r.error == Some("Rate limit exceeded") && r.attempts == 0
              && Charges(r, t2, t3) == [])
        && (!limited && open ==>
              && r.status == ExecRejected && r.error == Some("Circuit breaker is open") && r.attempts == 0
              && Charges(r, t2, t3) == [CB.Asked(t2)])
        && (!limited && !open && normalise(request.provider) !in registry ==>
              r.status == ExecFailed && r.attempts == 0)
        && (!limited && !open && normalise(request.provider) in registry ==>
              r.status == ExecSucceeded || r.status == ExecFailed)
        && (!limited && !open && r.status == ExecSucceeded ==>
              && 1 <= r.attempts <= request.maxRetries + 1 && r.error == None
              && adapter(r.attempts) == Success(r.data)
              && (forall j :: 1 <= j < r.attempts ==> !adapter(j).Success?)
              && Charges(r, t2, t3) == [CB.Asked(t2), CB.Succeeded])
        && (!limited && !open && r.status == ExecFailed && normalise(request.provider) in registry ==>
              && r.attempts == request.maxRetries + 1
              && (forall j :: 1 <= j <= request.maxRetries + 1 ==> !adapter(j).Success?)
              && Charges(r, t2, t3) == [CB.Asked(t2), CB.Failed(t3)])
        && (RateLimited(r) <==> limited)
        && (r.status == ExecRejected <==> limited || open)
    {
      hide RL.Count, CB.Replay, CB.Passes, ErrorText;
    }

    function KeyOf(request: Request): string {
      request.provider + ":" + request.workflow
    }

    predicate RateLimited(r: Execution) {
      r.status == ExecRejected && r.error == Some("Rate limit exceeded")
    }

    /** What the breaker is told: nothing, a question, or a question and one outcome. */
    function Charges(r: Execution, t2: real, t3: real): seq<CB.Event> {
      if RateLimited(r) then []
      else if r.attempts == 0 then [CB.Asked(t2)]
      else [CB.Asked(t2), if r.status == ExecSucceeded then CB.Succeeded else CB.Failed(t3)]
    }

    /** Which way a request without a stored success ends, and with what record. */
    predicate Settled(request: Request, adapter: Adapter, r: Execution, admissions: seq<real>, events: seq<CB.Event>,
                      t1: real, t2: real)
    {
      if RL.Count(admissions, t1 - limiter.window, t1) >= limiter.limit then
        r.status == ExecRejected && r.error == Some("Rate limit exceeded") && r.attempts == 0
      else if !CB.Passes(CB.Replay(events, breaker.settings), t2, breaker.settings) then
        r.status == ExecRejected && r.error == Some("Circuit breaker is open") && r.attempts == 0
      else if normalise(request.provider) !in registry then
        r.status == ExecFailed && r.attempts == 0
      else Finished(request, adapter, r)
    }
  }
}
