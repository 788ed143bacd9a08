/**
 The job queue and worker (app/queue/base.py, app/queue/worker.py): FIFO per queue, retry
 with backoff at the back of the queue, dead-letter once the retries are used up.
 */
module JobQueue {
  import opened Common

  datatype Job = Job(id: string, queue: string, payload: int, attempts: nat)

  class InMemoryJobQueue {
    var queues: map<string, seq<Job>>

    constructor ()
      ensures queues == map[]
    {
      queues := map[];
    }

    function Items(name: string): seq<Job>
      reads this
    {
      if name in queues then queues[name] else []
    }

    method Enqueue(job: Job) returns (id: string)
      modifies this
      ensures id == job.id
      ensures Items(job.queue) == old(Items(job.queue)) + [job]
      ensures forall other :: other != job.queue ==> Items(other) == old(Items(other))
    {
      queues := queues[job.queue := Items(job.queue) + [job]];
      id := job.id;
    }

    method Dequeue(name: string) returns (job: Option<Job>)
      modifies this
      ensures job == if old(Items(name)) == [] then None else Some(old(Items(name))[0])
      ensures Items(name) == if old(Items(name)) == [] then [] else old(Items(name))[1..]
      ensures forall other :: other != name ==> Items(other) == old(Items(other))
    {
      var items := Items(name);
      queues := queues[name := items];
      if items == [] {
        return None;
      }
      job := Some(items[0]);
      queues := queues[name := items[1..]];
    }
  }

  function DeadLetter(name: string): (dead: string)
    ensures dead != name
  {
    assert |name + ":dead-letter"| > |name|;
    name + ":dead-letter"
  }

  /** A failed job goes back to the main queue while retries are left, else to the dead letters. */
  function Charged(job: Job, name: string, maxRetries: int): Job {
    job.(attempts := job.attempts + 1,
         queue := if job.attempts + 1 <= maxRetries then name else DeadLetter(name))
  }

  /** The worker's queue and its dead letters. */
  datatype Queues = Queues(main: seq<Job>, dead: seq<Job>)

  /** What handling the front job does, given whether the handler returned. */
  function One(q: Queues, ok: bool, name: string, maxRetries: int): Queues {
    if q.main == [] then q
    else if ok then q.(main := q.main[1..])
    else
      var job := Charged(q.main[0], name, maxRetries);
      if job.attempts <= maxRetries then q.(main := q.main[1..] + [job])
      else Queues(q.main[1..], q.dead + [job])
  }

  class JobWorker {
    const queue: InMemoryJobQueue
    const name: string
    const maxRetries: int
    const base: real
    var slept: real

    constructor (queue: InMemoryJobQueue, name: string, maxRetries: int, base: real)
      ensures this.queue == queue && this.name == name && this.maxRetries == maxRetries && this.base == base
      ensures slept == 0.0
    {
      this.queue, this.name, this.maxRetries, this.base, slept := queue, name, maxRetries, base, 0.0;
    }

    function Own(): Queues
      reads queue
    {
      Queues(queue.Items(name), queue.Items(DeadLetter(name)))
    }

    /** `ok` says whether the handler returned or raised. */
    method Handle(job: Job, ok: bool)
      modifies this, queue
      ensures ok ==> Own() == old(Own()) && slept == old(slept)
      ensures !ok && job.attempts + 1 <= maxRetries ==>
        Own() == old(Own()).(main := old(Own()).main + [Charged(job, name, maxRetries)]) &&
        slept == old(slept) + base * Pow2(job.attempts) as real
      ensures !ok && job.attempts + 1 > maxRetries ==>
        Own() == old(Own()).(dead := old(Own()).dead + [Charged(job, name, maxRetries)]) && slept == old(slept)
      ensures forall other :: other != name && other != DeadLetter(name) ==> queue.Items(other) == old(queue.Items(other))
      ensures !ok && job.attempts + 1 <= maxRetries ==>
        && queue.Items(name) == old(queue.Items(name)) + [Job(job.id, name, job.payload, job.attempts + 1)]
        && queue.Items(name + ":dead-letter") == old(queue.Items(name + ":dead-letter"))
      ensures !ok && job.attempts + 1 > maxRetries ==>
        && queue.Items(name + ":dead-letter") ==
             old(queue.Items(name + ":dead-letter")) + [Job(job.id, name + ":dead-letter", job.payload, job.attempts + 1)]
        && queue.Items(name) == old(queue.Items(name))
    {
      if !ok {
        var failed := job.(attempts := job.attempts + 1);
        if failed.attempts <= maxRetries {
          slept := slept + base * Pow2(failed.attempts - 1) as real;
          failed := failed.(queue := name);
          var id := queue.Enqueue(failed);
        } else {
          failed := failed.(queue := DeadLetter(name));
          var id := queue.Enqueue(failed);
        }
      }
    }

    method ProcessOne(handler: Job -> bool) returns (processed: bool)
      modifies this, queue
      ensures processed <==> old(Own()).main != []
      ensures Own() == One(old(Own()), old(Own()).main != [] && handler(old(Own()).main[0]), name, maxRetries)
      ensures forall other :: other != name && other != DeadLetter(name) ==> queue.Items(other) == old(queue.Items(other))
      ensures old(queue.Items(name)) == [] ==> Own() == old(Own()) && slept == old(slept)
      ensures old(queue.Items(name)) != [] ==>
        var jobs, dead := old(queue.Items(name)), name + ":dead-letter";
        var failed := jobs[0].attempts + 1;
        if handler(jobs[0]) then
          queue.Items(name) == jobs[1..] && queue.Items(dead) == old(queue.Items(name + ":dead-letter")) && slept == old(slept)
        else if failed <= maxRetries then
          && queue.Items(name) == jobs[1..] + [Job(jobs[0].id, name, jobs[0].payload, failed)]
          && queue.Items(dead) == old(queue.Items(name + ":dead-letter"))
          && slept == old(slept) + base * Pow2(failed - 1) as real
        else
          && queue.Items(name) == jobs[1..] && slept == old(slept)
          && queue.Items(dead) == old(queue.Items(name + ":dead-letter")) + [Job(jobs[0].id, dead, jobs[0].payload, failed)]
    {
      var job := queue.Dequeue(name);
      if job.None? {
        return false;
      }
      Handle(job.value, handler(job.value));
      return true;
    }
  }

  // ---- drain: a single worker -----------------------------------------------------------

  /** How often a job can still be handled. */
  function Work(job: Job, maxRetries: int): nat {
    if maxRetries - job.attempts + 1 >= 1 then maxRetries - job.attempts + 1 else 1
  }

  function TotalWork(jobs: seq<Job>, maxRetries: int): nat {
    if jobs == [] then 0 else TotalWork(jobs[..|jobs| - 1], maxRetries) + Work(jobs[|jobs| - 1], maxRetries)
  }

  lemma {:induction false} TotalWorkAppend(a: seq<Job>, b: seq<Job>, maxRetries: int)
    ensures TotalWork(a + b, maxRetries) == TotalWork(a, maxRetries) + TotalWork(b, maxRetries)
  {
    if b == [] {
      assert a + b == a;
    } else {
      var n := |b| - 1;
      assert (a + b)[..|a + b| - 1] == a + b[..n];
      TotalWorkAppend(a, b[..n], maxRetries);
    }
  }

  /** Each call of the worker uses up at least one unit of work, whatever the handler does. */
  lemma OneUsesWork(q: Queues, ok: bool, name: string, maxRetries: int)
    requires q.main != []
    ensures TotalWork(One(q, ok, name, maxRetries).main, maxRetries) < TotalWork(q.main, maxRetries)
  {
    assert q.main == [q.main[0]] + q.main[1..];
    TotalWorkAppend([q.main[0]], q.main[1..], maxRetries);
    TotalWorkAppend(q.main[1..], [Charged(q.main[0], name, maxRetries)], maxRetries);
  }

  function Many(q: Queues, outcomes: seq<bool>, name: string, maxRetries: int): Queues {
    if outcomes == [] then q
    else One(Many(q, outcomes[..|outcomes| - 1], name, maxRetries), outcomes[|outcomes| - 1], name, maxRetries)
  }

  lemma {:induction false} WorkBoundsCalls(q: Queues, outcomes: seq<bool>, name: string, maxRetries: int)
    ensures var left := TotalWork(Many(q, outcomes, name, maxRetries).main, maxRetries);
      left == 0 || left + |outcomes| <= TotalWork(q.main, maxRetries)
  {
    if outcomes != [] {
      var before := Many(q, outcomes[..|outcomes| - 1], name, maxRetries);
      WorkBoundsCalls(q, outcomes[..|outcomes| - 1], name, maxRetries);
      if before.main != [] {
        OneUsesWork(before, outcomes[|outcomes| - 1], name, maxRetries);
      }
    }
  }

  /** However often handlers raise, the queue is empty after as many calls as there is work. */
  lemma QueueDrains(q: Queues, outcomes: seq<bool>, name: string, maxRetries: int)
    requires |outcomes| >= TotalWork(q.main, maxRetries)
    ensures Many(q, outcomes, name, maxRetries).main == []
  {
    WorkBoundsCalls(q, outcomes, name, maxRetries);
    var end := Many(q, outcomes, name, maxRetries).main;
    assert end != [] ==> TotalWork(end, maxRetries) >= 1;
  }

  /** A job alone in the queue whose handler always raises is handled exactly as often as its work says. */
  lemma {:induction false} WorkIsExact(job: Job, dead: seq<Job>, outcomes: seq<bool>, name: string, maxRetries: int)
    requires forall i :: 0 <= i < |outcomes| ==> !outcomes[i]
    ensures var q := Many(Queues([job], dead), outcomes, name, maxRetries);
      && (|outcomes| < Work(job, maxRetries) ==> |q.main| == 1 && q.main[0].attempts == job.attempts + |outcomes|)
      && (|outcomes| >= Work(job, maxRetries) ==> q.main == [])
  {
    if outcomes != [] {
      WorkIsExact(job, dead, outcomes[..|outcomes| - 1], name, maxRetries);
    }
  }

  /** That is once more than there are retries left, and once if there are none. */
  lemma WorkMeans(job: Job, maxRetries: int)
    ensures job.attempts <= maxRetries ==> Work(job, maxRetries) == maxRetries - job.attempts + 1
    ensures job.attempts > maxRetries ==> Work(job, maxRetries) == 1
  {
  }
}
