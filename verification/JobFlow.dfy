/**
 Any number of workers on one queue, interleaved at dequeue, handler return, backoff sleep
 and re-enqueue, while producers keep enqueueing.
 */
module JobFlow {
  import opened Common
  import opened JobQueue

  /** A job in a worker's hands: being handled, or waiting out its backoff with the charge made. */
  datatype Flight = Flight(job: Job, sleeping: bool)

  datatype State = State(main: seq<Job>, flying: seq<Flight>, dead: seq<Job>, succeeded: seq<Job>, taken: seq<Job>)

  /** Flights are named by their position, so any worker may be the one that acts. */
  datatype Action = Enqueue(job: Job) | Take | Succeed(i: nat) | Fail(i: nat) | Wake(i: nat)

  datatype Config = Config(name: string, maxRetries: int)

  function Step(s: State, a: Action, c: Config): State {
    match a
    case Enqueue(job) => s.(main := s.main + [job])
    case Take =>
      if s.main == [] then s
      else s.(main := s.main[1..], flying := s.flying + [Flight(s.main[0], false)], taken := s.taken + [s.main[0]])
    case Succeed(i) =>
      if i < |s.flying| && !s.flying[i].sleeping
      then s.(flying := Without(s.flying, i), succeeded := s.succeeded + [s.flying[i].job]) else s
    case Fail(i) =>
      if i < |s.flying| && !s.flying[i].sleeping then
        var job := Charged(s.flying[i].job, c.name, c.maxRetries);
        if job.attempts <= c.maxRetries then s.(flying := Without(s.flying, i) + [Flight(job, true)])
        else s.(flying := Without(s.flying, i), dead := s.dead + [job])
      else s
    case Wake(i) =>
      if i < |s.flying| && s.flying[i].sleeping
      then s.(flying := Without(s.flying, i), main := s.main + [s.flying[i].job]) else s
  }

  function Run(s: State, actions: seq<Action>, c: Config): State {
    if actions == [] then s else Step(Run(s, actions[..|actions| - 1], c), actions[|actions| - 1], c)
  }

  // ---- conservation ---------------------------------------------------------------------

  function Copies(jobs: seq<Job>, id: string): nat {
    if jobs == [] then 0 else Copies(jobs[..|jobs| - 1], id) + if jobs[|jobs| - 1].id == id then 1 else 0
  }

  function FlyingCopies(flights: seq<Flight>, id: string): nat {
    if flights == [] then 0
    else FlyingCopies(flights[..|flights| - 1], id) + if flights[|flights| - 1].job.id == id then 1 else 0
  }

  /** How many jobs with this id are in the system, wherever they are. */
  function Everywhere(s: State, id: string): nat {
    Copies(s.main, id) + FlyingCopies(s.flying, id) + Copies(s.dead, id) + Copies(s.succeeded, id)
  }

  lemma {:induction false} CopiesAppend(a: seq<Job>, b: seq<Job>, id: string)
    ensures Copies(a + b, id) == Copies(a, id) + Copies(b, id)
  {
    if b == [] {
      assert a + b == a;
    } else {
      var n := |b| - 1;
      assert (a + b)[..|a + b| - 1] == a + b[..n];
      CopiesAppend(a, b[..n], id);
    }
  }

  lemma {:induction false} FlyingCopiesAppend(a: seq<Flight>, b: seq<Flight>, id: string)
    ensures FlyingCopies(a + b, id) == FlyingCopies(a, id) + FlyingCopies(b, id)
  {
    if b == [] {
      assert a + b == a;
    } else {
      var n := |b| - 1;
      assert (a + b)[..|a + b| - 1] == a + b[..n];
      FlyingCopiesAppend(a, b[..n], id);
    }
  }

  lemma FlyingCopiesWithout(flights: seq<Flight>, i: nat, id: string)
    requires i < |flights|
    ensures FlyingCopies(flights, id) == FlyingCopies(Without(flights, i), id) + if flights[i].job.id == id then 1 else 0
  {
    assert flights == flights[..i] + ([flights[i]] + flights[i + 1..]);
    FlyingCopiesAppend(flights[..i], [flights[i]] + flights[i + 1..], id);
    FlyingCopiesAppend([flights[i]], flights[i + 1..], id);
    FlyingCopiesAppend(flights[..i], flights[i + 1..], id);
    assert FlyingCopies([flights[i]], id) == if flights[i].job.id == id then 1 else 0;
  }

  function Arrivals(actions: seq<Action>, id: string): nat {
    if actions == [] then 0
    else
      var last := actions[|actions| - 1];
      Arrivals(actions[..|actions| - 1], id) + if last.Enqueue? && last.job.id == id then 1 else 0
  }

  lemma CopiesOne(job: Job, id: string)
    ensures Copies([job], id) == if job.id == id then 1 else 0
    ensures forall sleeping :: FlyingCopies([Flight(job, sleeping)], id) == if job.id == id then 1 else 0
  {
  }

  lemma StepConserves(s: State, a: Action, c: Config, id: string)
    ensures Everywhere(Step(s, a, c), id) == Everywhere(s, id) + if a.Enqueue? && a.job.id == id then 1 else 0
  {
    match a
    case Enqueue(job) =>
      CopiesAppend(s.main, [job], id);
      CopiesOne(job, id);
    case Take =>
      if s.main != [] {
        assert s.main == [s.main[0]] + s.main[1..];
        CopiesAppend([s.main[0]], s.main[1..], id);
        CopiesOne(s.main[0], id);
        FlyingCopiesAppend(s.flying, [Flight(s.main[0], false)], id);
      }
    case Succeed(i) =>
      if i < |s.flying| && !s.flying[i].sleeping {
        FlyingCopiesWithout(s.flying, i, id);
        CopiesAppend(s.succeeded, [s.flying[i].job], id);
        CopiesOne(s.flying[i].job, id);
      }
    case Fail(i) =>
      if i < |s.flying| && !s.flying[i].sleeping {
        var job := Charged(s.flying[i].job, c.name, c.maxRetries);
        FlyingCopiesWithout(s.flying, i, id);
        FlyingCopiesAppend(Without(s.flying, i), [Flight(job, true)], id);
        CopiesAppend(s.dead, [job], id);
        CopiesOne(job, id);
      }
    case Wake(i) =>
      if i < |s.flying| && s.flying[i].sleeping {
        FlyingCopiesWithout(s.flying, i, id);
        CopiesAppend(s.main, [s.flying[i].job], id);
        CopiesOne(s.flying[i].job, id);
      }
  }

  /** No interleaving loses or duplicates a job: every id is present as often as before plus its arrivals. */
  lemma {:induction false} JobsAreConserved(s: State, actions: seq<Action>, c: Config, id: string)
    ensures Everywhere(Run(s, actions, c), id) == Everywhere(s, id) + Arrivals(actions, id)
  {
    if actions != [] {
      JobsAreConserved(s, actions[..|actions| - 1], c, id);
      StepConserves(Run(s, actions[..|actions| - 1], c), actions[|actions| - 1], c, id);
    }
  }

  // ---- bounded work ---------------------------------------------------------------------

  /** How often the job of a flight can still be taken from the queue. */
  function FlightWork(f: Flight, maxRetries: int): nat {
    if f.sleeping then Work(f.job, maxRetries) else Work(f.job, maxRetries) - 1
  }

  function FlyingWork(flights: seq<Flight>, maxRetries: int): nat {
    if flights == [] then 0
    else FlyingWork(flights[..|flights| - 1], maxRetries) + FlightWork(flights[|flights| - 1], maxRetries)
  }

  lemma {:induction false} FlyingWorkAppend(a: seq<Flight>, b: seq<Flight>, maxRetries: int)
    ensures FlyingWork(a + b, maxRetries) == FlyingWork(a, maxRetries) + FlyingWork(b, maxRetries)
  {
    if b == [] {
      assert a + b == a;
    } else {
      var n := |b| - 1;
      assert (a + b)[..|a + b| - 1] == a + b[..n];
      FlyingWorkAppend(a, b[..n], maxRetries);
    }
  }

  lemma FlyingWorkWithout(flights: seq<Flight>, i: nat, maxRetries: int)
    requires i < |flights|
    ensures FlyingWork(flights, maxRetries) == FlyingWork(Without(flights, i), maxRetries) + FlightWork(flights[i], maxRetries)
  {
    assert flights == flights[..i] + ([flights[i]] + flights[i + 1..]);
    FlyingWorkAppend(flights[..i], [flights[i]] + flights[i + 1..], maxRetries);
    FlyingWorkAppend([flights[i]], flights[i + 1..], maxRetries);
    FlyingWorkAppend(flights[..i], flights[i + 1..], maxRetries);
    assert FlyingWork([flights[i]], maxRetries) == FlightWork(flights[i], maxRetries);
  }

  /** Takes made so far plus takes still possible. */
  function Effort(s: State, c: Config): nat {
    |s.taken| + TotalWork(s.main, c.maxRetries) + FlyingWork(s.flying, c.maxRetries)
  }

  lemma StepKeepsEffort(s: State, a: Action, c: Config)
    ensures Effort(Step(s, a, c), c) <= Effort(s, c) + if a.Enqueue? then Work(a.job, c.maxRetries) else 0
  {
    var m := c.maxRetries;
    match a
    case Enqueue(job) => TotalWorkAppend(s.main, [job], m);
    case Take =>
      if s.main != [] {
        assert s.main == [s.main[0]] + s.main[1..];
        TotalWorkAppend([s.main[0]], s.main[1..], m);
        FlyingWorkAppend(s.flying, [Flight(s.main[0], false)], m);
        assert FlyingWork([Flight(s.main[0], false)], m) == Work(s.main[0], m) - 1;
        assert TotalWork([s.main[0]], m) == Work(s.main[0], m);
      }
    case Succeed(i) =>
      if i < |s.flying| && !s.flying[i].sleeping {
        FlyingWorkWithout(s.flying, i, m);
      }
    case Fail(i) =>
      if i < |s.flying| && !s.flying[i].sleeping {
        var job := Charged(s.flying[i].job, c.name, m);
        FlyingWorkWithout(s.flying, i, m);
        FlyingWorkAppend(Without(s.flying, i), [Flight(job, true)], m);
        assert FlyingWork([Flight(job, true)], m) == Work(job, m);
      }
    case Wake(i) =>
      if i < |s.flying| && s.flying[i].sleeping {
        FlyingWorkWithout(s.flying, i, m);
        TotalWorkAppend(s.main, [s.flying[i].job], m);
        assert TotalWork([s.flying[i].job], m) == Work(s.flying[i].job, m);
      }
  }

  function ArrivingWork(actions: seq<Action>, c: Config): nat {
    if actions == [] then 0
    else
      var last := actions[|actions| - 1];
      ArrivingWork(actions[..|actions| - 1], c) + if last.Enqueue? then Work(last.job, c.maxRetries) else 0
  }

  /**
   Over every interleaving the number of times jobs are taken is bounded by the work present
   plus the work that arrived: max(1, max_retries - attempts + 1) per job.
   */
  lemma {:induction false} TakesAreBounded(s: State, actions: seq<Action>, c: Config)
    ensures Effort(Run(s, actions, c), c) <= Effort(s, c) + ArrivingWork(actions, c)
    ensures |Run(s, actions, c).taken| <= Effort(s, c) + ArrivingWork(actions, c)
  {
    if actions != [] {
      TakesAreBounded(s, actions[..|actions| - 1], c);
      StepKeepsEffort(Run(s, actions[..|actions| - 1], c), actions[|actions| - 1], c);
    }
  }

  predicate AllExhausted(jobs: seq<Job>, maxRetries: int) {
    forall i :: 0 <= i < |jobs| ==> jobs[i].attempts > maxRetries
  }

  /** A job only becomes a dead letter after more failures than there are retries. */
  lemma {:induction false} DeadMeansExhausted(s: State, actions: seq<Action>, c: Config)
    requires AllExhausted(s.dead, c.maxRetries)
    ensures AllExhausted(Run(s, actions, c).dead, c.maxRetries)
  {
    if actions != [] {
      DeadMeansExhausted(s, actions[..|actions| - 1], c);
    }
  }

  // ---- bounded overtaking ---------------------------------------------------------------

  /** What one step adds behind the queue; taking only moves the boundary. */
  lemma StepIsFifo(m: State, a: Action, c: Config) returns (added: seq<Job>)
    ensures var t := Step(m, a, c); t.taken + t.main == m.taken + m.main + added && m.taken <= t.taken
  {
    var t := Step(m, a, c);
    match a
    case Enqueue(job) =>
      added := [job];
      assert m.taken + (m.main + [job]) == m.taken + m.main + [job];
    case Take =>
      added := [];
      if m.main != [] {
        assert m.taken + m.main == m.taken + [m.main[0]] + m.main[1..];
      }
    case Wake(i) =>
      added := if i < |m.flying| && m.flying[i].sleeping then [m.flying[i].job] else [];
      assert m.taken + (m.main + added) == m.taken + m.main + added;
    case Succeed(i) => added := [];
    case Fail(i) => added := [];
  }

  /** Taking is first in, first out: only what was enqueued later can be behind the rest. */
  lemma {:induction false} FirstInFirstOut(s: State, actions: seq<Action>, c: Config) returns (later: seq<Job>)
    ensures var t := Run(s, actions, c); t.taken + t.main == s.taken + s.main + later && s.taken <= t.taken
  {
    if actions == [] {
      later := [];
    } else {
      var n := |actions| - 1;
      var before := FirstInFirstOut(s, actions[..n], c);
      var added := StepIsFifo(Run(s, actions[..n], c), actions[n], c);
      later := before + added;
      assert s.taken + s.main + before + added == s.taken + s.main + later;
    }
  }

  function Takes(actions: seq<Action>): nat {
    if actions == [] then 0
    else Takes(actions[..|actions| - 1]) + if actions[|actions| - 1].Take? then 1 else 0
  }

  /** Every dequeue takes a job as long as one of the first is still there. */
  lemma {:induction false} TakesSucceed(s: State, actions: seq<Action>, c: Config)
    ensures var t := Run(s, actions, c);
      |t.taken| >= |s.taken| + |s.main| || |t.taken| >= |s.taken| + Takes(actions)
  {
    if actions != [] {
      var n := |actions| - 1;
      var t := Run(s, actions[..n], c);
      TakesSucceed(s, actions[..n], c);
      var later := FirstInFirstOut(s, actions[..n], c);
      assert t.main == [] ==> |t.taken| == |s.taken| + |s.main| + |later|;
    }
  }

  /** The job at position p is the (p+1)-th one taken: p + 1 dequeues reach it, poison messages or not. */
  lemma PositionDecidesTurn(s: State, actions: seq<Action>, c: Config, p: nat)
    requires p < |s.main| && p < Takes(actions)
    ensures var t := Run(s, actions, c);
      |t.taken| > |s.taken| + p && t.taken[|s.taken| + p] == s.main[p]
  {
    var t := Run(s, actions, c);
    TakesSucceed(s, actions, c);
    var later := FirstInFirstOut(s, actions, c);
    var k := |s.taken| + p;
    assert (t.taken + t.main)[k] == t.taken[k];
    assert (s.taken + s.main + later)[k] == s.main[p];
  }

  // ---- one worker is a special case -----------------------------------------------------

  /** What a lone worker does with the front job: take it, and succeed, or fail and come back after the sleep. */
  function LoneTurn(ok: bool): seq<Action> {
    if ok then [Take, Succeed(0)] else [Take, Fail(0), Wake(0)]
  }

  function LoneTurns(outcomes: seq<bool>): (actions: seq<Action>)
    ensures forall i :: 0 <= i < |actions| ==> !actions[i].Enqueue?
  {
    if outcomes == [] then [] else LoneTurns(outcomes[..|outcomes| - 1]) + LoneTurn(outcomes[|outcomes| - 1])
  }

  /** The job the next call of ProcessOne handles, if there is one. */
  function Front(q: Queues): seq<Job> {
    if q.main == [] then [] else [q.main[0]]
  }

  /** The jobs that consecutive calls of ProcessOne handle. */
  function Handled(q: Queues, outcomes: seq<bool>, c: Config): seq<Job> {
    if outcomes == [] then []
    else
      var n := |outcomes| - 1;
      Handled(q, outcomes[..n], c) + Front(Many(q, outcomes[..n], c.name, c.maxRetries))
  }

  /** Those among them whose handler returned. */
  function Finished(q: Queues, outcomes: seq<bool>, c: Config): seq<Job> {
    if outcomes == [] then []
    else
      var n := |outcomes| - 1;
      Finished(q, outcomes[..n], c) + if outcomes[n] then Front(Many(q, outcomes[..n], c.name, c.maxRetries)) else []
  }

  /** One call of ProcessOne by a single worker is a run of the flow. */
  lemma ProcessOneIsARun(s: State, ok: bool, c: Config)
    requires s.flying == []
    ensures var now := Queues(s.main, s.dead);
      var q := One(now, ok, c.name, c.maxRetries);
      Run(s, LoneTurn(ok), c) ==
        State(q.main, [], q.dead, s.succeeded + (if ok then Front(now) else []), s.taken + Front(now))
  {
    var taken := Step(s, Take, c);
    assert Run(s, [], c) == s;
    assert [Take][..0] == [];
    assert Run(s, [Take], c) == taken;
    if ok {
      assert LoneTurn(ok)[..1] == [Take];
    } else {
      assert [Take, Fail(0)][..1] == [Take];
      assert Run(s, [Take, Fail(0)], c) == Step(taken, Fail(0), c);
      assert LoneTurn(ok)[..2] == [Take, Fail(0)];
    }
  }

  lemma {:induction false} RunAppend(s: State, a: seq<Action>, b: seq<Action>, c: Config)
    ensures Run(s, a + b, c) == Run(Run(s, a, c), b, c)
    ensures Takes(a + b) == Takes(a) + Takes(b)
  {
    if b == [] {
      assert a + b == a;
    } else {
      var n := |b| - 1;
      assert (a + b)[..|a + b| - 1] == a + b[..n];
      RunAppend(s, a, b[..n], c);
    }
  }

  /** Any number of calls, whatever the handlers do, is a run of the flow: every theorem above covers it. */
  lemma {:induction false} CallsAreARun(s: State, outcomes: seq<bool>, c: Config)
    requires s.flying == []
    ensures var now := Queues(s.main, s.dead);
      var q := Many(now, outcomes, c.name, c.maxRetries);
      Run(s, LoneTurns(outcomes), c) ==
        State(q.main, [], q.dead, s.succeeded + Finished(now, outcomes, c), s.taken + Handled(now, outcomes, c))
    ensures Takes(LoneTurns(outcomes)) == |outcomes|
  {
    hide Step, One, LoneTurn, Front;
    if outcomes != [] {
      var n := |outcomes| - 1;
      var now := Queues(s.main, s.dead);
      var mid := Run(s, LoneTurns(outcomes[..n]), c);
      CallsAreARun(s, outcomes[..n], c);
      RunAppend(s, LoneTurns(outcomes[..n]), LoneTurn(outcomes[n]), c);
      ProcessOneIsARun(mid, outcomes[n], c);
      TakesOfTurn(outcomes[n]);
      var front := Front(Many(now, outcomes[..n], c.name, c.maxRetries));
      AppendInTurn(s.taken, Handled(now, outcomes[..n], c), front);
      AppendInTurn(s.succeeded, Finished(now, outcomes[..n], c), if outcomes[n] then front else []);
    } else {
      assert s.taken + [] == s.taken && s.succeeded + [] == s.succeeded;
    }
  }

  lemma AppendInTurn(a: seq<Job>, b: seq<Job>, c: seq<Job>)
    ensures a + b + c == a + (b + c)
  {
  }

  lemma TakesOfTurn(ok: bool)
    ensures Takes(LoneTurn(ok)) == 1
  {
    assert LoneTurn(ok)[..1] == [Take] && [Take][..0] == [];
    assert Takes([Take]) == 1;
    if !ok {
      assert LoneTurn(ok)[..2] == [Take, Fail(0)] && [Take, Fail(0)][..1] == [Take];
      assert Takes([Take, Fail(0)]) == 1;
    }
  }

  /** A single worker first handles the job at position p in its (p+1)-th call, whatever happens to the ones before. */
  lemma FirstHandledInTurn(q: Queues, outcomes: seq<bool>, c: Config, p: nat)
    requires p < |q.main| && p < |outcomes|
    ensures |Handled(q, outcomes, c)| > p && Handled(q, outcomes, c)[p] == q.main[p]
  {
    var s := State(q.main, [], q.dead, [], []);
    CallsAreARun(s, outcomes, c);
    PositionDecidesTurn(s, LoneTurns(outcomes), c, p);
  }

  /** Whatever happens in a single worker's calls, each job is queued, dead or finished as often as it was there. */
  lemma CallsConserveJobs(q: Queues, outcomes: seq<bool>, c: Config, id: string)
    ensures var end := Many(q, outcomes, c.name, c.maxRetries);
      Copies(end.main, id) + Copies(end.dead, id) + Copies(Finished(q, outcomes, c), id) ==
        Copies(q.main, id) + Copies(q.dead, id)
  {
    hide Many, Finished, Handled, LoneTurns, Run;
    var s := State(q.main, [], q.dead, [], []);
    CallsAreARun(s, outcomes, c);
    assert FlyingCopies([], id) == Copies([], id) == 0;
    assert [] + Finished(q, outcomes, c) == Finished(q, outcomes, c);
    JobsAreConserved(s, LoneTurns(outcomes), c, id);
    NoArrivals(LoneTurns(outcomes), id);
  }

  lemma {:induction false} NoArrivals(actions: seq<Action>, id: string)
    requires forall i :: 0 <= i < |actions| ==> !actions[i].Enqueue?
    ensures Arrivals(actions, id) == 0
  {
    if actions != [] {
      NoArrivals(actions[..|actions| - 1], id);
    }
  }
}
