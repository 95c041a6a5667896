/**
  Knowledge ingestion jobs: the second lease protocol. Unlike judge jobs, a row
  whose lease ran out is taken over directly, without looking at its attempts.
 */
module IngestionJobs {
  import opened Prelude

  type JobId = nat
  type WorkerId = nat

  const MAX_INGESTION_ATTEMPTS := 3

  datatype Status = Queued | Running | Succeeded | Failed | Cancelled

  datatype Lease = Lease(owner: WorkerId, expiresAt: int)

  /** A job row; `overdue` counts the times it was taken over at or beyond the attempt limit. */
  datatype Job = Job(
    workspace: nat, sourceKey: string,
    status: Status, attempts: nat, availableAt: int, lease: Option<Lease>,
    sourceId: Option<nat>, error: Option<string>, overdue: nat)

  // --------------------------------------------------------- the transactions

  predicate LeaseRanOut(job: Job, now: int)
  {
    job.status == Running && job.lease.Some? && job.lease.value.expiresAt < now
  }

  predicate Takeable(job: Job, now: int)
  {
    (job.status == Queued && job.availableAt <= now) || LeaseRanOut(job, now)
  }

  function Take(job: Job, me: WorkerId, now: int, seconds: nat): Job
  {
    job.(status := Running,
         attempts := job.attempts + 1,
         lease := Some(Lease(me, now + seconds)),
         error := None,
         overdue := if job.status == Running && job.attempts >= MAX_INGESTION_ATTEMPTS then job.overdue + 1 else job.overdue)
  }

  predicate Owned(job: Job, me: WorkerId, now: int)
  {
    job.status == Running && job.lease.Some? && job.lease.value.owner == me && job.lease.value.expiresAt > now
  }

  function Renew(job: Job, me: WorkerId, now: int, seconds: nat): Job
  {
    if Owned(job, me, now) then job.(lease := Some(Lease(me, now + seconds))) else job
  }

  /** The index transaction stores the source and completes the job together, or does neither. */
  function Index(job: Job, me: WorkerId, now: int, source: nat): Option<Job>
  {
    if Owned(job, me, now) then Some(job.(status := Succeeded, sourceId := Some(source), lease := None, error := None)) else None
  }

  /** The worker's own success update, after the index transaction. */
  function Succeed(job: Job, me: WorkerId, now: int, source: nat): Job
  {
    if Owned(job, me, now) then job.(status := Succeeded, sourceId := Some(source), lease := None) else job
  }

  function Fail(job: Job, me: WorkerId, now: int, code: string, retryable: bool, delay: nat): Job
  {
    if !Owned(job, me, now) then job
    else if retryable && job.attempts < MAX_INGESTION_ATTEMPTS then
      job.(status := Queued, availableAt := now + delay, lease := None, error := Some(code))
    else
      job.(status := Failed, lease := None, error := Some(code))
  }

  predicate Open(job: Job) { job.status in {Queued, Running} }

  predicate Blocks(job: Job, now: int)
  {
    job.status == Running && job.lease.Some? && job.lease.value.expiresAt > now
  }

  /** Deleting a source cancels its open jobs. */
  function Cancel(job: Job): Job
  {
    if Open(job) then job.(status := Cancelled, lease := None) else job
  }

  // ----------------------------------------------------------------- the world

  datatype Phase =
    | Idle
    | Holding(job: JobId)
    | Indexed(job: JobId, source: nat)
    | Failing(job: JobId, code: string, retryable: bool)
    | Dead

  datatype World = World(now: int, jobs: map<JobId, Job>, workers: map<WorkerId, Phase>)

  datatype Event =
    | Tick(seconds: nat)
    | Enqueue(job: JobId, workspace: nat, sourceKey: string)
    | Start(worker: WorkerId)
    | Crash(worker: WorkerId)
    | Claim(worker: WorkerId, job: JobId, seconds: nat)
    | Heartbeat(worker: WorkerId, job: JobId, seconds: nat)
    | IndexSource(worker: WorkerId, source: nat)
    | Raise(worker: WorkerId, code: string, retryable: bool)
    | ReportSuccess(worker: WorkerId)
    | ReportFailure(worker: WorkerId, delay: nat)
    | GiveUp(worker: WorkerId)
    | DeleteSource(workspace: nat, sourceKey: string)

  predicate Busy(phase: Phase)
  {
    phase.Holding? || phase.Indexed? || phase.Failing?
  }

  ghost predicate Enabled(w: World, e: Event)
  {
    match e
    case Tick(_) => true
    case Enqueue(j, _, _) => j !in w.jobs
    case Start(me) => me !in w.workers
    case Crash(me) => me in w.workers
    // Rows other transactions hold are skipped, so any takeable row may be the one taken.
    case Claim(me, j, _) => me in w.workers && w.workers[me].Idle? && j in w.jobs && Takeable(w.jobs[j], w.now)
    case Heartbeat(me, j, _) => me in w.workers && !w.workers[me].Dead? && j in w.jobs
    case IndexSource(me, _) => me in w.workers && w.workers[me].Holding? && w.workers[me].job in w.jobs
    case Raise(me, _, _) => me in w.workers && w.workers[me].Holding?
    case ReportSuccess(me) => me in w.workers && w.workers[me].Indexed? && w.workers[me].job in w.jobs
    case ReportFailure(me, _) => me in w.workers && w.workers[me].Failing? && w.workers[me].job in w.jobs
    case GiveUp(me) => me in w.workers && Busy(w.workers[me])
    case DeleteSource(workspace, key) =>
      forall j :: j in w.jobs && w.jobs[j].workspace == workspace && w.jobs[j].sourceKey == key ==> !Blocks(w.jobs[j], w.now)
  }

  function Put(w: World, me: WorkerId, phase: Phase, j: JobId, job: Job): World
  {
    w.(workers := w.workers[me := phase], jobs := w.jobs[j := job])
  }

  function Next(w: World, e: Event): World
    requires Enabled(w, e)
  {
    match e
    case Tick(seconds) => w.(now := w.now + seconds)
    case Enqueue(j, workspace, key) =>
      w.(jobs := w.jobs[j := Job(workspace, key, Queued, 0, w.now, None, None, None, 0)])
    case Start(me) => w.(workers := w.workers[me := Idle])
    case Crash(me) => w.(workers := w.workers[me := Dead])
    case Claim(me, j, seconds) => Put(w, me, Holding(j), j, Take(w.jobs[j], me, w.now, seconds))
    case Heartbeat(me, j, seconds) => w.(jobs := w.jobs[j := Renew(w.jobs[j], me, w.now, seconds)])
    case IndexSource(me, source) =>
      var j := w.workers[me].job;
      var done := Index(w.jobs[j], me, w.now, source);
      if done.Some? then Put(w, me, Indexed(j, source), j, done.value)
      else w.(workers := w.workers[me := Failing(j, "knowledge_ingestion_error", true)])
    case Raise(me, code, retryable) => w.(workers := w.workers[me := Failing(w.workers[me].job, code, retryable)])
    case ReportSuccess(me) =>
      Put(w, me, Idle, w.workers[me].job, Succeed(w.jobs[w.workers[me].job], me, w.now, w.workers[me].source))
    case ReportFailure(me, delay) =>
      var p := w.workers[me];
      Put(w, me, Idle, p.job, Fail(w.jobs[p.job], me, w.now, p.code, p.retryable, delay))
    case GiveUp(me) => w.(workers := w.workers[me := Idle])
    case DeleteSource(workspace, key) =>
      w.(jobs := map j | j in w.jobs ::
           if w.jobs[j].workspace == workspace && w.jobs[j].sourceKey == key then Cancel(w.jobs[j]) else w.jobs[j])
  }

  // ------------------------------------------------------------- the invariant

  /** What the clients' schema demands of a row, and what the attempt limit really limits. */
  ghost predicate JobOk(job: Job)
  {
    && (job.status == Succeeded <==> job.sourceId.Some?)
    && (job.status == Failed ==> job.error.Some?)
    && (job.status == Running <==> job.lease.Some?)
    && (job.status == Queued ==> job.attempts < MAX_INGESTION_ATTEMPTS)
    && (job.status == Running ==> job.attempts > 0)
    && job.overdue == if job.attempts <= MAX_INGESTION_ATTEMPTS then 0 else job.attempts - MAX_INGESTION_ATTEMPTS
  }

  ghost predicate Inv(w: World)
  {
    && (forall j :: j in w.jobs ==> JobOk(w.jobs[j]))
    && (forall me :: me in w.workers && w.workers[me].Indexed? ==>
          w.workers[me].job in w.jobs && w.jobs[w.workers[me].job].status == Succeeded)
  }

  lemma NextKeepsInv(w: World, e: Event)
    requires Inv(w) && Enabled(w, e)
    ensures Inv(Next(w, e))
  {
    var after := Next(w, e);
    forall j | j in after.jobs ensures JobOk(after.jobs[j])
    {
      NextKeepsJob(w, e, j);
    }
    hide JobOk;
  }

  lemma NextKeepsJob(w: World, e: Event, j: JobId)
    requires Inv(w) && Enabled(w, e) && j in Next(w, e).jobs
    ensures JobOk(Next(w, e).jobs[j])
  {
    assert j in w.jobs ==> JobOk(w.jobs[j]);
  }

  ghost predicate Run(states: seq<World>, events: seq<Event>)
  {
    && |states| == |events| + 1
    && states[0].jobs == map[] && states[0].workers == map[]
    && forall i :: 0 <= i < |events| ==> Enabled(states[i], events[i]) && states[i + 1] == Next(states[i], events[i])
  }

  lemma {:induction false} RunKeepsInv(states: seq<World>, events: seq<Event>, i: nat)
    requires Run(states, events) && i < |states|
    ensures Inv(states[i])
  {
    hide Inv, Enabled, Next;
    if i == 0 {
      StartInv(states[0]);
    } else {
      RunKeepsInv(states, events, i - 1);
      NextKeepsInv(states[i - 1], events[i - 1]);
    }
  }

  lemma StartInv(w: World)
    requires w.jobs == map[] && w.workers == map[]
    ensures Inv(w)
  {
  }

  /** Every reachable row is one the clients accept: indexed content exactly on success, and a code on every failure. */
  lemma ReachableRow(states: seq<World>, events: seq<Event>, i: nat, j: JobId)
    requires Run(states, events) && i < |states| && j in states[i].jobs
    ensures var job := states[i].jobs[j];
      && (job.status == Succeeded <==> job.sourceId.Some?)
      && (job.status == Failed ==> job.error.Some?)
      && (job.status == Queued ==> job.attempts < MAX_INGESTION_ATTEMPTS)
      && (job.attempts > MAX_INGESTION_ATTEMPTS <==> job.overdue > 0)
      && job.attempts <= MAX_INGESTION_ATTEMPTS + job.overdue
  {
    RunKeepsInv(states, events, i);
  }

  // ------------------------------------------------------- one event, one row

  predicate Terminal(job: Job) { job.status in {Succeeded, Failed, Cancelled} }

  lemma {:induction false} TerminalStays(states: seq<World>, events: seq<Event>, i: nat, k: nat, j: JobId)
    requires Run(states, events) && i <= k < |states|
    requires j in states[i].jobs && Terminal(states[i].jobs[j])
    ensures j in states[k].jobs && states[k].jobs[j] == states[i].jobs[j]
    decreases k - i
  {
    hide Enabled, Next, Terminal;
    if i < k {
      TerminalStays(states, events, i, k - 1, j);
      TerminalNext(states[k - 1], events[k - 1], j);
    }
  }

  lemma TerminalNext(w: World, e: Event, j: JobId)
    requires Enabled(w, e) && j in w.jobs && Terminal(w.jobs[j])
    ensures j in Next(w, e).jobs && Next(w, e).jobs[j] == w.jobs[j]
  {
  }

  /** A running row's lease changes only by its unexpired holder, or once it has run out. */
  lemma LeavesRunning(w: World, e: Event, j: JobId)
    requires Inv(w) && Enabled(w, e) && j in w.jobs
    requires w.jobs[j].status == Running && Next(w, e).jobs[j] != w.jobs[j]
    ensures var lease := w.jobs[j].lease.value;
      || ((e.Heartbeat? || e.IndexSource? || e.ReportFailure?) && e.worker == lease.owner && lease.expiresAt > w.now)
      || ((e.Claim? || e.DeleteSource?) && lease.expiresAt <= w.now)
  {
    assert JobOk(w.jobs[j]);
  }

  /** A worker without the lease changes no row. */
  lemma StaleWorkerChangesNothing(w: World, e: Event)
    requires Enabled(w, e)
    requires e.Heartbeat? || e.IndexSource? || e.ReportSuccess? || e.ReportFailure?
    requires var j := if e.Heartbeat? then e.job else w.workers[e.worker].job;
             !Owned(w.jobs[j], e.worker, w.now)
    ensures Next(w, e).jobs == w.jobs
  {
  }

  /** Once lost, a lease stays lost until the worker takes the row again. */
  lemma LostLeaseStaysLost(w: World, e: Event, j: JobId, me: WorkerId)
    requires Inv(w) && Enabled(w, e) && j in w.jobs && !Owned(w.jobs[j], me, w.now)
    requires !(e.Claim? && e.worker == me && e.job == j)
    ensures !Owned(Next(w, e).jobs[j], me, Next(w, e).now)
  {
  }

  /** The index transaction has already completed the job, so the success report that follows never writes. */
  lemma ReportSuccessNeverWrites(w: World, e: Event)
    requires Inv(w) && Enabled(w, e) && e.ReportSuccess?
    ensures Next(w, e).jobs == w.jobs
  {
  }

  // ------------------------------------------------ the limit that is not kept

  /**
    A claim leaves a row beyond the limit exactly when it takes over a running row that has already
    used every attempt.
   */
  lemma ClaimExceedsLimit(w: World, e: Event)
    requires Inv(w) && Enabled(w, e) && e.Claim?
    ensures Next(w, e).jobs[e.job].attempts > MAX_INGESTION_ATTEMPTS
       <==> w.jobs[e.job].status == Running && w.jobs[e.job].attempts >= MAX_INGESTION_ATTEMPTS
  {
    assert JobOk(w.jobs[e.job]);
  }

  lemma RunGoesOn(states: seq<World>, events: seq<Event>, e: Event)
    requires Run(states, events) && Enabled(states[|events|], e)
    ensures Run(states + [Next(states[|events|], e)], events + [e])
  {
    hide Enabled, Next;
    var (s, es) := (states + [Next(states[|events|], e)], events + [e]);
    forall i | 0 <= i < |es| ensures Enabled(s[i], es[i]) && s[i + 1] == Next(s[i], es[i])
    {
      if i < |events| {
        assert s[i] == states[i] && s[i + 1] == states[i + 1] && es[i] == events[i];
      }
    }
  }

  /** Workers that die holding one job push its attempts to any number. */
  lemma {:induction false} AttemptsAreUnbounded(n: nat) returns (states: seq<World>, events: seq<Event>)
    requires n > 0
    ensures Run(states, events)
    ensures var w := states[|events|];
      && 0 in w.jobs && w.jobs[0].attempts == n
      && w.jobs[0].status == Running && w.jobs[0].lease == Some(Lease(n, w.now + 3))
      && forall k :: k in w.workers ==> k <= n
  {
    if n == 1 {
      states, events := [World(0, map[], map[])], [];
      RunGoesOn(states, events, Enqueue(0, 0, "k"));
      states, events := states + [Next(states[0], Enqueue(0, 0, "k"))], [Enqueue(0, 0, "k")];
    } else {
      states, events := AttemptsAreUnbounded(n - 1);
      RunGoesOn(states, events, Tick(4));
      states, events := states + [Next(states[|events|], Tick(4))], events + [Tick(4)];
    }
    hide Run;
    assert Takeable(states[|events|].jobs[0], states[|events|].now);
    var start := Start(n);
    RunGoesOn(states, events, start);
    states, events := states + [Next(states[|events|], start)], events + [start];
    var claim := Claim(n, 0, 3);
    RunGoesOn(states, events, claim);
    states, events := states + [Next(states[|events|], claim)], events + [claim];
  }

  // --------------------------------------------------- the worker's own methods

  /** The shared table; each method is one transaction. */
  class JobTable {
    var now: int
    var jobs: map<JobId, Job>

    constructor ()
      ensures jobs == map[]
    {
      now, jobs := 0, map[];
    }

    /** Every row keeps its invariant. */
    ghost predicate Ok()
      reads this
    {
      forall j :: j in jobs ==> JobOk(jobs[j])
    }

    method TakeJob(me: WorkerId, j: JobId, seconds: nat) returns (taken: bool)
      requires j in jobs
      modifies this`jobs
      ensures taken <==> Takeable(old(jobs)[j], now)
      ensures jobs == if taken then old(jobs)[j := Take(old(jobs)[j], me, now, seconds)] else old(jobs)
      ensures old(Ok()) ==> Ok()
    {
      var job := jobs[j];
      taken := (job.status == Queued && job.availableAt <= now) || LeaseRanOut(job, now);
      if !taken { return; }
      var overdue := job.overdue;
      if job.status == Running {
        if job.attempts >= MAX_INGESTION_ATTEMPTS { overdue := overdue + 1; }
        job := job.(status := Queued, lease := None, error := Some("lease_expired"));
      }
      jobs := jobs[j := job.(status := Running, attempts := job.attempts + 1, lease := Some(Lease(me, now + seconds)),
                             error := None, overdue := overdue)];
    }

    method Heartbeat(me: WorkerId, j: JobId, seconds: nat) returns (renewed: bool)
      requires j in jobs
      modifies this`jobs
      ensures renewed <==> Owned(old(jobs)[j], me, now)
      ensures jobs == old(jobs)[j := Renew(old(jobs)[j], me, now, seconds)]
      ensures old(Ok()) ==> Ok()
    {
      renewed := Owned(jobs[j], me, now);
      if renewed { jobs := jobs[j := jobs[j].(lease := Some(Lease(me, now + seconds)))]; }
    }

    method FailJob(me: WorkerId, j: JobId, code: string, retryable: bool, delay: nat) returns (recorded: bool)
      requires j in jobs
      modifies this`jobs
      ensures recorded <==> Owned(old(jobs)[j], me, now)
      ensures jobs == old(jobs)[j := Fail(old(jobs)[j], me, now, code, retryable, delay)]
      ensures old(Ok()) ==> Ok()
    {
      var job := jobs[j];
      recorded := Owned(job, me, now);
      if !recorded { return; }
      if retryable && job.attempts < MAX_INGESTION_ATTEMPTS {
        jobs := jobs[j := job.(status := Queued, availableAt := now + delay, lease := None, error := Some(code))];
      } else {
        jobs := jobs[j := job.(status := Failed, lease := None, error := Some(code))];
      }
    }

    method SucceedJob(me: WorkerId, j: JobId, source: nat) returns (recorded: bool)
      requires j in jobs
      modifies this`jobs
      ensures recorded <==> Owned(old(jobs)[j], me, now)
      ensures jobs == old(jobs)[j := Succeed(old(jobs)[j], me, now, source)]
      ensures old(Ok()) ==> Ok()
    {
      recorded := Owned(jobs[j], me, now);
      if recorded { jobs := jobs[j := jobs[j].(status := Succeeded, sourceId := Some(source), lease := None)]; }
    }

    /** Refused while any job of the source is held under a live lease. */
    method CancelSource(workspace: nat, key: string) returns (cancelled: bool)
      modifies this`jobs
      ensures cancelled <==> forall j :: j in old(jobs) && old(jobs)[j].workspace == workspace && old(jobs)[j].sourceKey == key
                               ==> !Blocks(old(jobs)[j], now)
      ensures jobs.Keys == old(jobs).Keys
      ensures forall j :: j in jobs ==>
        jobs[j] == if cancelled && old(jobs)[j].workspace == workspace && old(jobs)[j].sourceKey == key
                   then Cancel(old(jobs)[j]) else old(jobs)[j]
      ensures old(Ok()) ==> Ok()
    {
      var pending := map j | j in jobs && jobs[j].workspace == workspace && jobs[j].sourceKey == key && Open(jobs[j]) :: jobs[j];
      if exists j :: j in pending && Blocks(pending[j], now) { return false; }
      cancelled := true;
      jobs := jobs + map j | j in pending :: pending[j].(status := Cancelled, lease := None);
    }
  }
}
