/**
  Evaluation judge jobs: many workers claim, renew, score, fail and lose the same
  job rows. Each transaction is one event; a run is any sequence of events of any
  number of workers, with crashes, late saves and clock advances in between.
 */
module JudgeJobs {
  import opened Prelude

  type JobId = nat
  type WorkerId = nat
  type CaseNo = int

  const MAX_JUDGE_ATTEMPTS := 3

  // -------------------------------------------------------------------- rows

  /** The provider, model and prompt version that score a job; a job keeps the first it was claimed with. */
  datatype Judge = Judge(provider: string, model: string, promptVersion: string)

  datatype Status = Queued | Running | Succeeded | Failed

  datatype Lease = Lease(owner: WorkerId, expiresAt: int)

  /** A score row; `judge` and `charged` record which configuration wrote it. */
  datatype Score = Score(judge: Judge, charged: bool, milli: nat)

  datatype Charge = Charge(provider: string, model: string, micros: nat)

  /** A job row with its score and ledger rows, and the number of times it was ever claimed. */
  datatype Job = Job(
    workspace: nat, cases: set<CaseNo>, createdAt: int,
    status: Status, attempts: nat, availableAt: int, lease: Option<Lease>,
    judge: Option<Judge>, error: Option<string>,
    scores: map<CaseNo, Score>, ledger: map<CaseNo, Charge>, claims: nat)

  datatype Config = Config(judge: Judge, allowed: set<nat>, priced: bool, leaseSeconds: nat)

  // --------------------------------------------------------- the transactions

  /** The first update of a claim: a lease that ran out costs the job an attempt. */
  predicate LeaseRanOut(job: Job, config: Config, now: int)
  {
    && job.status == Running
    && job.lease.Some? && job.lease.value.expiresAt < now
    && job.workspace in config.allowed
    && job.judge == Some(config.judge)
  }

  function Expire(job: Job, now: int): Job
  {
    job.(status := if job.attempts + 1 >= MAX_JUDGE_ATTEMPTS then Failed else Queued,
         attempts := job.attempts + 1,
         availableAt := now,
         lease := None,
         error := Some("lease_expired"))
  }

  function ExpireAll(jobs: map<JobId, Job>, config: Config, now: int): map<JobId, Job>
  {
    map j | j in jobs :: if LeaseRanOut(jobs[j], config, now) then Expire(jobs[j], now) else jobs[j]
  }

  predicate Eligible(job: Job, config: Config, now: int)
  {
    && job.status == Queued
    && job.availableAt <= now
    && job.workspace in config.allowed
    && (job.judge.None? || job.judge == Some(config.judge))
  }

  predicate Before(jobs: map<JobId, Job>, j: JobId, k: JobId)
    requires j in jobs && k in jobs
  {
    || jobs[j].availableAt < jobs[k].availableAt
    || (jobs[j].availableAt == jobs[k].availableAt && jobs[j].createdAt < jobs[k].createdAt)
    || (jobs[j].availableAt == jobs[k].availableAt && jobs[j].createdAt == jobs[k].createdAt && j <= k)
  }

  lemma BeforeTransitive(jobs: map<JobId, Job>, i: JobId, j: JobId, k: JobId)
    requires i in jobs && j in jobs && k in jobs
    requires !Before(jobs, j, i) && Before(jobs, j, k)
    ensures Before(jobs, i, k)
  {
  }

  /** The row taken is the first eligible one by availability, age and id; rows other transactions hold are skipped. */
  ghost predicate FirstEligible(jobs: map<JobId, Job>, config: Config, now: int, locked: set<JobId>, j: JobId)
  {
    && j in jobs && j !in locked && Eligible(jobs[j], config, now)
    && forall k :: k in jobs && k !in locked && Eligible(jobs[k], config, now) ==> Before(jobs, j, k)
  }

  function Take(job: Job, worker: WorkerId, config: Config, now: int): Job
  {
    job.(status := Running,
         lease := Some(Lease(worker, now + config.leaseSeconds)),
         judge := if job.judge.None? then Some(config.judge) else job.judge,
         error := None,
         claims := job.claims + 1)
  }

  /** The guard of every later write: the row is running under this worker's unexpired lease. */
  predicate Owned(job: Job, worker: WorkerId, now: int)
  {
    && job.status == Running
    && job.lease.Some? && job.lease.value.owner == worker && job.lease.value.expiresAt > now
  }

  function Renew(job: Job, worker: WorkerId, config: Config, now: int): Job
  {
    if Owned(job, worker, now) then job.(lease := Some(Lease(worker, now + config.leaseSeconds))) else job
  }

  /** Both inserts do nothing on a row that exists; the count afterwards decides between done and queued again. */
  function SaveCase(job: Job, worker: WorkerId, config: Config, now: int, c: CaseNo, milli: nat, micros: nat): Job
  {
    if !Owned(job, worker, now) then job
    else
      var scores := if c in job.scores then job.scores else job.scores[c := Score(config.judge, config.priced, milli)];
      var ledger := if !config.priced || c in job.ledger then job.ledger
                    else job.ledger[c := Charge(config.judge.provider, config.judge.model, micros)];
      var done := |scores| == |job.cases|;
      job.(scores := scores, ledger := ledger, lease := None,
           status := if done then Succeeded else Queued,
           error := if done then None else job.error,
           availableAt := if done then job.availableAt else now)
  }

  function Fail(job: Job, worker: WorkerId, now: int, code: string, retryable: bool, delay: nat): Job
  {
    if !Owned(job, worker, now) then job
    else if retryable && job.attempts + 1 < MAX_JUDGE_ATTEMPTS then
      job.(status := Queued, attempts := job.attempts + 1, availableAt := now + delay, lease := None, error := Some(code))
    else
      job.(status := Failed, attempts := job.attempts + 1, lease := None, error := Some(code))
  }

  /** Marks a fully scored job; None when the counts disagree. */
  function FinishIfComplete(job: Job, worker: WorkerId, now: int): Option<Job>
  {
    if !Owned(job, worker, now) then Some(job)
    else if |job.scores| != |job.cases| then None
    else Some(job.(status := Succeeded, lease := None, error := None))
  }

  ghost predicate NextCase(job: Job, c: CaseNo)
  {
    c in job.cases && c !in job.scores && forall d :: d in job.cases && d !in job.scores ==> c <= d
  }

  // ----------------------------------------------------------------- the world

  /** What a worker is doing; it handles one job at a time. */
  datatype Phase =
    | Idle
    | Holding(job: JobId)
    | Scoring(job: JobId, c: CaseNo)
    | Finishing(job: JobId)
    | Failing(job: JobId, code: string, retryable: bool)
    | Dead

  datatype Worker = Worker(config: Config, phase: Phase)

  datatype World = World(now: int, jobs: map<JobId, Job>, workers: map<WorkerId, Worker>)

  datatype Event =
    | Tick(seconds: nat)
    | Create(job: JobId, workspace: nat, cases: set<CaseNo>)
    | Start(worker: WorkerId, config: Config)
    | Crash(worker: WorkerId)
    | Claim(worker: WorkerId, locked: set<JobId>, pick: Option<JobId>)
    | Heartbeat(worker: WorkerId, job: JobId)
    | Pick(worker: WorkerId, next: Option<CaseNo>)
    | Save(worker: WorkerId, milli: nat, micros: nat)
    | Finish(worker: WorkerId)
    | Raise(worker: WorkerId, code: string, retryable: bool)
    | Report(worker: WorkerId, delay: nat)
    | GiveUp(worker: WorkerId)

  predicate Busy(phase: Phase)
  {
    phase.Holding? || phase.Scoring? || phase.Finishing? || phase.Failing?
  }

  function JobOf(phase: Phase): JobId
    requires Busy(phase)
  {
    match phase
    case Holding(j) => j
    case Scoring(j, _) => j
    case Finishing(j) => j
    case Failing(j, _, _) => j
  }

  ghost predicate Enabled(w: World, e: Event)
  {
    match e
    case Tick(_) => true
    case Create(j, _, cases) => j !in w.jobs && cases != {}
    case Start(me, _) => me !in w.workers
    case Heartbeat(me, j) => me in w.workers && !w.workers[me].phase.Dead? && j in w.jobs
    case Claim(me, locked, pick) =>
      && me in w.workers && w.workers[me].phase.Idle?
      && var config := w.workers[me].config;
         var jobs := ExpireAll(w.jobs, config, w.now);
         if pick.Some? then FirstEligible(jobs, config, w.now, locked, pick.value)
         else forall k :: k in jobs && k !in locked ==> !Eligible(jobs[k], config, w.now)
    case Pick(me, next) =>
      && me in w.workers && w.workers[me].phase.Holding? && w.workers[me].phase.job in w.jobs
      && var job := w.jobs[w.workers[me].phase.job];
         if next.Some? then NextCase(job, next.value) else job.cases <= job.scores.Keys
    case Save(me, _, _) => me in w.workers && w.workers[me].phase.Scoring? && w.workers[me].phase.job in w.jobs
    case Finish(me) => me in w.workers && w.workers[me].phase.Finishing? && w.workers[me].phase.job in w.jobs
    case Report(me, _) => me in w.workers && w.workers[me].phase.Failing? && w.workers[me].phase.job in w.jobs
    case Raise(me, _, _) => me in w.workers && Busy(w.workers[me].phase)
    case GiveUp(me) => me in w.workers && Busy(w.workers[me].phase)
    case Crash(me) => me in w.workers
  }

  function WithPhase(w: World, me: WorkerId, phase: Phase): World
    requires me in w.workers
  {
    w.(workers := w.workers[me := w.workers[me].(phase := phase)])
  }

  function WithJob(w: World, j: JobId, job: Job): World
  {
    w.(jobs := w.jobs[j := job])
  }

  /** The world after an event. */
  function Next(w: World, e: Event): World
    requires Enabled(w, e)
  {
    match e
    case Tick(seconds) => w.(now := w.now + seconds)
    case Create(j, workspace, cases) =>
      WithJob(w, j, Job(workspace, cases, w.now, Queued, 0, w.now, None, None, None, map[], map[], 0))
    case Start(me, config) => w.(workers := w.workers[me := Worker(config, Idle)])
    case Crash(me) => WithPhase(w, me, Dead)
    case Claim(me, _, pick) =>
      var config := w.workers[me].config;
      var expired := w.(jobs := ExpireAll(w.jobs, config, w.now));
      if pick.None? then expired
      else WithPhase(WithJob(expired, pick.value, Take(expired.jobs[pick.value], me, config, w.now)), me, Holding(pick.value))
    case Heartbeat(me, j) => WithJob(w, j, Renew(w.jobs[j], me, w.workers[me].config, w.now))
    case Pick(me, next) =>
      var j := w.workers[me].phase.job;
      WithPhase(w, me, if next.Some? then Scoring(j, next.value) else Finishing(j))
    case Save(me, milli, micros) =>
      var (j, c) := (w.workers[me].phase.job, w.workers[me].phase.c);
      WithPhase(WithJob(w, j, SaveCase(w.jobs[j], me, w.workers[me].config, w.now, c, milli, micros)), me, Idle)
    case Finish(me) =>
      var j := w.workers[me].phase.job;
      var done := FinishIfComplete(w.jobs[j], me, w.now);
      if done.None? then WithPhase(w, me, Failing(j, "judge_case_set_incomplete", false))
      else WithPhase(WithJob(w, j, done.value), me, Idle)
    case Raise(me, code, retryable) => WithPhase(w, me, Failing(JobOf(w.workers[me].phase), code, retryable))
    case Report(me, delay) =>
      var phase := w.workers[me].phase;
      WithPhase(WithJob(w, phase.job, Fail(w.jobs[phase.job], me, w.now, phase.code, phase.retryable, delay)), me, Idle)
    case GiveUp(me) => WithPhase(w, me, Idle)
  }

  // ------------------------------------------------------------- the invariant

  /** Cases are scored in case order, each by the pinned judge, and charged in the same write. */
  ghost predicate ScoresOk(job: Job)
  {
    && job.scores.Keys <= job.cases
    && (forall c, d :: c in job.cases && d in job.scores && c < d ==> c in job.scores)
    && (forall c :: c in job.scores ==> job.judge == Some(job.scores[c].judge))
    && (forall c :: c in job.ledger <==> c in job.scores && job.scores[c].charged)
    && (forall c :: c in job.ledger ==> job.judge.Some? && job.ledger[c].provider == job.judge.value.provider
                                        && job.ledger[c].model == job.judge.value.model)
  }

  /** Every claim was spent on a new score, on an attempt, or is the one still running. */
  ghost predicate ClaimsSpent(job: Job)
  {
    job.claims == |job.scores| + job.attempts + (if job.status == Running then 1 else 0)
  }

  ghost predicate StatusOk(job: Job)
  {
    && job.cases != {}
    && (job.status == Running <==> job.lease.Some?)
    && (job.status == Running ==> job.judge.Some?)
    && (job.status in {Queued, Running} ==> job.attempts < MAX_JUDGE_ATTEMPTS)
    && (job.status == Succeeded ==> job.attempts < MAX_JUDGE_ATTEMPTS)
    && (job.status == Failed ==> 1 <= job.attempts <= MAX_JUDGE_ATTEMPTS && job.error.Some?)
    && (job.status == Succeeded <==> job.scores.Keys == job.cases)
  }

  ghost predicate JobOk(job: Job)
  {
    ScoresOk(job) && ClaimsSpent(job) && StatusOk(job)
  }

  /**
    The lease holder of a running job is a worker of the pinned judge, and a case it has picked there
    is still the next one.
   */
  ghost predicate HolderOk(workers: map<WorkerId, Worker>, j: JobId, job: Job)
  {
    job.lease.Some? ==>
      && job.lease.value.owner in workers
      && var holder := workers[job.lease.value.owner];
         && job.judge == Some(holder.config.judge)
         && holder.phase != Finishing(j)
         && (holder.phase.Scoring? && holder.phase.job == j ==> NextCase(job, holder.phase.c))
  }

  ghost predicate Inv(w: World)
  {
    forall j :: j in w.jobs ==> JobOk(w.jobs[j]) && HolderOk(w.workers, j, w.jobs[j])
  }

  // ---------------------------------------------- each transaction keeps a row

  lemma ExpireOk(job: Job, now: int)
    requires JobOk(job) && job.status == Running
    ensures JobOk(Expire(job, now))
  {
  }

  lemma TakeOk(job: Job, me: WorkerId, config: Config, now: int)
    requires JobOk(job) && Eligible(job, config, now)
    ensures JobOk(Take(job, me, config, now))
    ensures Take(job, me, config, now).judge == Some(config.judge)
  {
    assert job.judge.None? ==> forall c :: c !in job.scores && c !in job.ledger;
  }

  lemma FailOk(job: Job, me: WorkerId, now: int, code: string, retryable: bool, delay: nat)
    requires JobOk(job)
    ensures JobOk(Fail(job, me, now, code, retryable, delay))
  {
  }

  lemma SubsetSizes<T>(a: set<T>, b: set<T>)
    requires a <= b
    ensures |a| <= |b| && (|a| == |b| <==> a == b)
  {
    assert b == a + (b - a);
  }

  lemma SaveCaseOk(job: Job, me: WorkerId, config: Config, now: int, c: CaseNo, milli: nat, micros: nat)
    requires JobOk(job)
    requires Owned(job, me, now) ==> job.judge == Some(config.judge) && NextCase(job, c)
    ensures JobOk(SaveCase(job, me, config, now, c, milli, micros))
    ensures Owned(job, me, now) ==> c !in job.scores && c in SaveCase(job, me, config, now, c, milli, micros).scores
  {
    if Owned(job, me, now) {
      SaveKeepsScores(job, me, config, now, c, milli, micros);
      SaveKeepsStatus(job, me, config, now, c, milli, micros);
      hide ScoresOk, ClaimsSpent, StatusOk, NextCase;
    }
  }

  lemma SaveKeepsScores(job: Job, me: WorkerId, config: Config, now: int, c: CaseNo, milli: nat, micros: nat)
    requires ScoresOk(job) && Owned(job, me, now) && job.judge == Some(config.judge) && NextCase(job, c)
    ensures ScoresOk(SaveCase(job, me, config, now, c, milli, micros))
    ensures c !in job.scores && c in SaveCase(job, me, config, now, c, milli, micros).scores
  {
    var after := SaveCase(job, me, config, now, c, milli, micros);
    assert c !in job.scores && c in job.cases;
    SavedScoresOk(job, config, c, milli, micros, after.scores, after.ledger);
    SameScoresOk(job.(scores := after.scores, ledger := after.ledger), after);
    hide ScoresOk, NextCase;
  }

  lemma SaveKeepsStatus(job: Job, me: WorkerId, config: Config, now: int, c: CaseNo, milli: nat, micros: nat)
    requires ClaimsSpent(job) && StatusOk(job) && Owned(job, me, now) && c !in job.scores
    requires ScoresOk(SaveCase(job, me, config, now, c, milli, micros))
    ensures var after := SaveCase(job, me, config, now, c, milli, micros); ClaimsSpent(after) && StatusOk(after)
  {
    var after := SaveCase(job, me, config, now, c, milli, micros);
    assert after.scores.Keys <= after.cases;
    hide ScoresOk;
    assert |after.scores| == |job.scores| + 1;
    CountsOk(after.cases, after.scores);
  }

  lemma SameScoresOk(a: Job, b: Job)
    requires ScoresOk(a) && b.cases == a.cases && b.scores == a.scores && b.ledger == a.ledger && b.judge == a.judge
    ensures ScoresOk(b)
  {
  }

  lemma CountsOk(cases: set<CaseNo>, scores: map<CaseNo, Score>)
    requires scores.Keys <= cases
    ensures |scores| == |cases| <==> scores.Keys == cases
  {
    SubsetSizes(scores.Keys, cases);
    assert |scores.Keys| == |scores|;
  }

  lemma SavedScoresOk(job: Job, config: Config, c: CaseNo, milli: nat, micros: nat,
                      scores: map<CaseNo, Score>, ledger: map<CaseNo, Charge>)
    requires ScoresOk(job) && job.judge == Some(config.judge) && NextCase(job, c)
    requires scores == job.scores[c := Score(config.judge, config.priced, milli)]
    requires ledger == if !config.priced || c in job.ledger then job.ledger
                       else job.ledger[c := Charge(config.judge.provider, config.judge.model, micros)]
    ensures ScoresOk(job.(scores := scores, ledger := ledger))
  {
  }

  /** A job with a live lease still has a case to score, so no lease holder ever finds nothing to do. */
  lemma SomethingLeft(job: Job)
    requires JobOk(job) && job.status == Running
    ensures !(job.cases <= job.scores.Keys) && |job.scores| < |job.cases|
  {
    SubsetSizes(job.scores.Keys, job.cases);
    assert |job.scores.Keys| == |job.scores|;
  }

  // ------------------------------------------------------- every step, every run

  /** Changing what a worker does keeps a row if the new phase makes no claim about its picked case. */
  lemma PhaseOk(workers: map<WorkerId, Worker>, me: WorkerId, phase: Phase, j: JobId, job: Job)
    requires me in workers && HolderOk(workers, j, job)
    requires !phase.Scoring? && !phase.Finishing?
    ensures HolderOk(workers[me := workers[me].(phase := phase)], j, job)
  {
  }

  lemma ClaimKeepsInv(w: World, me: WorkerId, locked: set<JobId>, pick: Option<JobId>)
    requires Inv(w) && Enabled(w, Claim(me, locked, pick))
    ensures Inv(Next(w, Claim(me, locked, pick)))
  {
    hide JobOk, NextCase;
    var after := Next(w, Claim(me, locked, pick));
    var config := w.workers[me].config;
    forall j | j in after.jobs ensures JobOk(after.jobs[j]) && HolderOk(after.workers, j, after.jobs[j])
    {
      assert JobOk(w.jobs[j]) && HolderOk(w.workers, j, w.jobs[j]);
      if LeaseRanOut(w.jobs[j], config, w.now) { ExpireOk(w.jobs[j], w.now); }
      if pick == Some(j) { TakeOk(ExpireAll(w.jobs, config, w.now)[j], me, config, w.now); }
    }
  }

  lemma PickKeepsInv(w: World, me: WorkerId, next: Option<CaseNo>)
    requires Inv(w) && Enabled(w, Pick(me, next))
    ensures Inv(Next(w, Pick(me, next)))
  {
    hide JobOk, NextCase;
    var after := Next(w, Pick(me, next));
    forall j | j in after.jobs ensures JobOk(after.jobs[j]) && HolderOk(after.workers, j, after.jobs[j])
    {
      assert JobOk(w.jobs[j]) && HolderOk(w.workers, j, w.jobs[j]);
      if w.jobs[j].lease.Some? && next.None? && w.workers[me].phase.job == j {
        LeaseMeansRunning(w.jobs[j]);
        SomethingLeft(w.jobs[j]);
      }
    }
  }

  lemma LeaseMeansRunning(job: Job)
    requires JobOk(job)
    ensures job.lease.Some? <==> job.status == Running
  {
  }

  lemma SaveKeepsInv(w: World, me: WorkerId, milli: nat, micros: nat)
    requires Inv(w) && Enabled(w, Save(me, milli, micros))
    ensures Inv(Next(w, Save(me, milli, micros)))
  {
    hide JobOk, NextCase;
    var after := Next(w, Save(me, milli, micros));
    var phase := w.workers[me].phase;
    SaveCaseOk(w.jobs[phase.job], me, w.workers[me].config, w.now, phase.c, milli, micros);
  }

  lemma ReportKeepsInv(w: World, me: WorkerId, delay: nat)
    requires Inv(w) && Enabled(w, Report(me, delay))
    ensures Inv(Next(w, Report(me, delay)))
  {
    hide JobOk, NextCase;
    var phase := w.workers[me].phase;
    FailOk(w.jobs[phase.job], me, w.now, phase.code, phase.retryable, delay);
  }

  lemma HeartbeatKeepsInv(w: World, me: WorkerId, j: JobId)
    requires Inv(w) && Enabled(w, Heartbeat(me, j))
    ensures Inv(Next(w, Heartbeat(me, j)))
  {
    hide JobOk, NextCase, Renew;
    RenewOk(w.jobs[j], me, w.workers[me].config, w.now);
    assert JobOk(w.jobs[j]) && HolderOk(w.workers, j, w.jobs[j]);
  }

  lemma RenewOk(job: Job, me: WorkerId, config: Config, now: int)
    requires JobOk(job)
    ensures var after := Renew(job, me, config, now);
      && JobOk(after) && after == job.(lease := after.lease)
      && (after.lease.Some? <==> job.lease.Some?)
      && (after.lease.Some? ==> after.lease.value.owner == job.lease.value.owner)
      && forall c :: NextCase(after, c) <==> NextCase(job, c)
  {
  }

  /**
    Nobody finishes a job without scoring its last case: a worker that found no case left no longer
    holds the lease.
   */
  lemma FinishingIsStale(w: World, me: WorkerId)
    requires Inv(w) && Enabled(w, Finish(me))
    ensures var j := w.workers[me].phase.job;
      !Owned(w.jobs[j], me, w.now) && FinishIfComplete(w.jobs[j], me, w.now) == Some(w.jobs[j])
  {
    assert HolderOk(w.workers, w.workers[me].phase.job, w.jobs[w.workers[me].phase.job]);
  }

  lemma FinishKeepsInv(w: World, me: WorkerId)
    requires Inv(w) && Enabled(w, Finish(me))
    ensures Inv(Next(w, Finish(me)))
  {
    hide JobOk, NextCase;
    FinishingIsStale(w, me);
  }

  lemma CreateKeepsInv(w: World, j: JobId, workspace: nat, cases: set<CaseNo>)
    requires Inv(w) && Enabled(w, Create(j, workspace, cases))
    ensures Inv(Next(w, Create(j, workspace, cases)))
  {
    hide NextCase, JobOk;
    NewJobOk(Next(w, Create(j, workspace, cases)).jobs[j]);
  }

  lemma NewJobOk(job: Job)
    requires job.cases != {} && job.status == Queued && job.attempts == 0 && job.lease.None? && job.claims == 0
    requires job.scores == map[] && job.ledger == map[]
    ensures JobOk(job)
  {
  }

  lemma NextKeepsInv(w: World, e: Event)
    requires Inv(w) && Enabled(w, e)
    ensures Inv(Next(w, e))
  {
    match e
    case Create(j, workspace, cases) => CreateKeepsInv(w, j, workspace, cases);
    case Claim(me, locked, pick) => ClaimKeepsInv(w, me, locked, pick);
    case Heartbeat(me, j) => HeartbeatKeepsInv(w, me, j);
    case Pick(me, next) => PickKeepsInv(w, me, next);
    case Save(me, milli, micros) => SaveKeepsInv(w, me, milli, micros);
    case Finish(me) => FinishKeepsInv(w, me);
    case Report(me, delay) => ReportKeepsInv(w, me, delay);
    case Tick(_) | Start(_, _) | Crash(_) | Raise(_, _, _) | GiveUp(_) => QuietKeepsInv(w, e);
  }

  lemma QuietKeepsInv(w: World, e: Event)
    requires Inv(w) && Enabled(w, e)
    requires e.Tick? || e.Start? || e.Crash? || e.Raise? || e.GiveUp?
    ensures Inv(Next(w, e))
  {
    hide JobOk, NextCase;
  }

  /** The states a run passes through. */
  ghost predicate Run(states: seq<World>, events: seq<Event>)
  {
    && |states| == |events| + 1
    && states[0].jobs == map[] && states[0].workers == map[]
    && forall i :: 0 <= i < |events| ==> Enabled(states[i], events[i]) && states[i + 1] == Next(states[i], events[i])
  }

  lemma {:induction false} RunKeepsInv(states: seq<World>, events: seq<Event>, i: nat)
    requires Run(states, events) && i < |states|
    ensures Inv(states[i])
  {
    if i > 0 {
      RunKeepsInv(states, events, i - 1);
      NextKeepsInv(states[i - 1], events[i - 1]);
    }
  }

  /**
    In every reachable state a job has been claimed at most two times more than it has cases, and as
    often as it has scores and attempts.
   */
  lemma ClaimsBounded(states: seq<World>, events: seq<Event>, i: nat, j: JobId)
    requires Run(states, events) && i < |states| && j in states[i].jobs
    ensures var job := states[i].jobs[j];
      && job.claims == |job.scores| + job.attempts + (if job.status == Running then 1 else 0)
      && job.claims <= |job.cases| + (MAX_JUDGE_ATTEMPTS - 1)
      && |job.scores| <= |job.cases|
      && (job.status == Succeeded <==> |job.scores| == |job.cases|)
      && (job.status in {Queued, Running} ==> job.attempts < MAX_JUDGE_ATTEMPTS && |job.scores| < |job.cases|)
  {
    RunKeepsInv(states, events, i);
    var job := states[i].jobs[j];
    assert JobOk(job);
    SubsetSizes(job.scores.Keys, job.cases);
    assert |job.scores.Keys| == |job.scores|;
  }

  /** In every reachable state a score and its charge stand together, under the judge the job is pinned to. */
  lemma ScoresAreCharged(states: seq<World>, events: seq<Event>, i: nat, j: JobId, c: CaseNo)
    requires Run(states, events) && i < |states| && j in states[i].jobs
    ensures var job := states[i].jobs[j];
      && (c in job.ledger <==> c in job.scores && job.scores[c].charged)
      && (c in job.scores ==> c in job.cases && job.judge == Some(job.scores[c].judge))
      && (c in job.ledger ==> job.ledger[c].provider == job.scores[c].judge.provider
                              && job.ledger[c].model == job.scores[c].judge.model)
  {
    RunKeepsInv(states, events, i);
    assert JobOk(states[i].jobs[j]);
  }

  // ------------------------------------------------------- one event, one row

  predicate Terminal(job: Job) { job.status in {Succeeded, Failed} }

  /**
    How a row may change: its cases stay, its judge once pinned stays, scores and charges stay, and a
    finished row stays as it is.
   */
  ghost predicate Later(a: Job, b: Job)
  {
    && b.cases == a.cases && b.workspace == a.workspace
    && (a.judge.Some? ==> b.judge == a.judge)
    && (forall c :: c in a.scores ==> c in b.scores && b.scores[c] == a.scores[c])
    && (forall c :: c in a.ledger ==> c in b.ledger && b.ledger[c] == a.ledger[c])
    && a.attempts <= b.attempts && a.claims <= b.claims
    && (Terminal(a) ==> b == a)
  }

  lemma NextIsLater(w: World, e: Event, j: JobId)
    requires Enabled(w, e) && j in w.jobs
    ensures j in Next(w, e).jobs && Later(w.jobs[j], Next(w, e).jobs[j])
  {
    if e.Claim? {
      ClaimIsLater(w, e, j);
    } else if e.Save? {
      SaveEventIsLater(w, e, j);
    } else {
      hide FirstEligible, NextCase, ExpireAll, SaveCase, Later, Fail, Renew, FinishIfComplete;
      WriteIsLater(w, e, w.jobs[j]);
    }
  }

  /** No write of a worker to a row but a claim's and a save's takes anything back. */
  lemma WriteIsLater(w: World, e: Event, job: Job)
    requires Enabled(w, e) && !e.Claim? && !e.Save?
    ensures Later(job, job)
    ensures e.Heartbeat? ==> Later(job, Renew(job, e.worker, w.workers[e.worker].config, w.now))
    ensures e.Finish? ==> var done := FinishIfComplete(job, e.worker, w.now); done.Some? ==> Later(job, done.value)
    ensures e.Report? ==> var phase := w.workers[e.worker].phase; Later(job, Fail(job, e.worker, w.now, phase.code, phase.retryable, e.delay))
  {
    hide NextCase;
  }

  lemma ClaimIsLater(w: World, e: Event, j: JobId)
    requires Enabled(w, e) && e.Claim? && j in w.jobs
    ensures j in Next(w, e).jobs && Later(w.jobs[j], Next(w, e).jobs[j])
  {
    hide FirstEligible;
    var (job, config) := (w.jobs[j], w.workers[e.worker].config);
    PickIsEligible(w, e);
    assert ExpireAll(w.jobs, config, w.now)[j] == if LeaseRanOut(job, config, w.now) then Expire(job, w.now) else job;
  }

  lemma SaveEventIsLater(w: World, e: Event, j: JobId)
    requires Enabled(w, e) && e.Save? && j in w.jobs
    ensures j in Next(w, e).jobs && Later(w.jobs[j], Next(w, e).jobs[j])
  {
    hide SaveCase;
    SaveIsLater(w.jobs[j], e.worker, w.workers[e.worker].config, w.now, w.workers[e.worker].phase.c, e.milli, e.micros);
  }

  lemma PickIsEligible(w: World, e: Event)
    requires e.Claim? && Enabled(w, e)
    ensures var jobs := ExpireAll(w.jobs, w.workers[e.worker].config, w.now);
      e.pick.Some? ==> e.pick.value in jobs && Eligible(jobs[e.pick.value], w.workers[e.worker].config, w.now)
  {
  }

  lemma SaveIsLater(job: Job, me: WorkerId, config: Config, now: int, c: CaseNo, milli: nat, micros: nat)
    ensures Later(job, SaveCase(job, me, config, now, c, milli, micros))
  {
  }

  /** Over a whole run, from any state to any later one. */
  lemma {:induction false} JobHistory(states: seq<World>, events: seq<Event>, i: nat, k: nat, j: JobId)
    requires Run(states, events) && i <= k < |states| && j in states[i].jobs
    ensures j in states[k].jobs && Later(states[i].jobs[j], states[k].jobs[j])
    decreases k - i
  {
    hide Next, Enabled;
    if i < k {
      JobHistory(states, events, i, k - 1, j);
      NextIsLater(states[k - 1], events[k - 1], j);
    }
  }

  /** A claim ends in exactly one of two ways: one case more is scored, or one attempt more is used. */
  ghost predicate ClaimSpent(a: Job, b: Job)
  {
    || (|b.scores| == |a.scores| + 1 && b.attempts == a.attempts)
    || (b.scores == a.scores && b.ledger == a.ledger && b.attempts == a.attempts + 1)
  }

  lemma SaveSpendsClaim(job: Job, me: WorkerId, config: Config, now: int, c: CaseNo, milli: nat, micros: nat)
    requires Owned(job, me, now) ==> c !in job.scores
    ensures var after := SaveCase(job, me, config, now, c, milli, micros);
      if Owned(job, me, now) then after.status != Running && ClaimSpent(job, after) else after == job
  {
  }

  /**
    A row leaves `running` only through its unexpired holder or because its lease ran out, and only by
    spending the claim.
   */
  lemma LeavesRunning(w: World, e: Event, j: JobId)
    requires Inv(w) && Enabled(w, e) && j in w.jobs
    requires w.jobs[j].status == Running && Next(w, e).jobs[j].lease != w.jobs[j].lease
    ensures var job := w.jobs[j];
      || (e == Heartbeat(job.lease.value.owner, j) && Owned(job, job.lease.value.owner, w.now)
          && Next(w, e).jobs[j] == job.(lease := Next(w, e).jobs[j].lease))
      || (e.Claim? && job.lease.value.expiresAt < w.now && ClaimSpent(job, Expire(job, w.now))
          && Next(w, e).jobs[j] == (if e.pick == Some(j) then Take(Expire(job, w.now), e.worker, w.workers[e.worker].config, w.now)
                                    else Expire(job, w.now)))
      || ((e.Save? || e.Report?) && Owned(job, e.worker, w.now)
          && Next(w, e).jobs[j].status != Running && ClaimSpent(job, Next(w, e).jobs[j]))
  {
    hide FirstEligible, ScoresOk, ClaimsSpent, SaveCase, ExpireAll;
    var job := w.jobs[j];
    assert JobOk(job) && HolderOk(w.workers, j, job);
    if e.Claim? {
      ClaimLeavesRunning(w, e, j);
    } else if e.Save? && w.workers[e.worker].phase.job == j {
      SaveSpendsClaim(job, e.worker, w.workers[e.worker].config, w.now, w.workers[e.worker].phase.c, e.milli, e.micros);
    } else if e.Finish? {
      FinishingIsStale(w, e.worker);
    }
  }

  lemma ClaimLeavesRunning(w: World, e: Event, j: JobId)
    requires Inv(w) && Enabled(w, e) && e.Claim? && j in w.jobs
    requires w.jobs[j].status == Running && Next(w, e).jobs[j].lease != w.jobs[j].lease
    ensures var job := w.jobs[j];
      && job.lease.value.expiresAt < w.now && ClaimSpent(job, Expire(job, w.now))
      && Next(w, e).jobs[j] == (if e.pick == Some(j) then Take(Expire(job, w.now), e.worker, w.workers[e.worker].config, w.now)
                                else Expire(job, w.now))
  {
    hide FirstEligible, ScoresOk, ClaimsSpent;
    PickIsEligible(w, e);
    assert JobOk(w.jobs[j]);
  }

  /** A worker that lost its lease changes no row, whatever it still tries to write. */
  lemma StaleWorkerChangesNothing(w: World, e: Event)
    requires Inv(w) && Enabled(w, e)
    requires e.Save? || e.Finish? || e.Report? || e.Heartbeat?
    requires var me := e.worker;
             var j := if e.Heartbeat? then e.job else w.workers[me].phase.job;
             !Owned(w.jobs[j], me, w.now)
    ensures Next(w, e).jobs == w.jobs
  {
  }

  // ------------------------------------------------------------ the bound is met

  function CaseSet(n: nat): (cs: set<CaseNo>)
    ensures |cs| == n && forall c :: c in cs <==> 0 <= c < n
  {
    if n == 0 then {} else CaseSet(n - 1) + {n - 1}
  }

  ghost predicate FirstScored(job: Job, k: nat)
  {
    |job.scores| == k && forall c :: c in job.scores <==> 0 <= c < k
  }

  /** One job of `n` cases waits, its first `k` cases scored, and worker 7 is free. */
  ghost predicate Ready(w: World, config: Config, n: nat, k: nat, attempts: nat)
  {
    && w.now == 0 && w.jobs.Keys == {0} && w.workers == map[7 := Worker(config, Idle)]
    && var job := w.jobs[0];
       && job.workspace == 0 && job.cases == CaseSet(n) && FirstScored(job, k)
       && job.status == Queued && job.availableAt <= 0 && job.lease == None && job.attempts == attempts
       && (job.judge.None? || job.judge == Some(config.judge)) && job.claims == k + attempts
  }

  lemma RunGoesOn(states: seq<World>, events: seq<Event>, e: Event)
    requires Run(states, events) && Enabled(states[|events|], e)
    ensures Run(states + [Next(states[|events|], e)], events + [e])
  {
    hide Enabled, Next;
    var (s, es) := (states + [Next(states[|events|], e)], events + [e]);
    forall i | 0 <= i < |es| ensures Enabled(s[i], es[i]) && s[i + 1] == Next(s[i], es[i])
    {
      if i < |events| {
        assert s[i] == states[i] && s[i + 1] == states[i + 1] && es[i] == events[i];
      }
    }
  }

  /** Worker 7 holds that job under a live lease. */
  ghost predicate Mine(w: World, config: Config, n: nat, k: nat, attempts: nat, phase: Phase)
  {
    && w.now == 0 && w.jobs.Keys == {0} && w.workers == map[7 := Worker(config, phase)]
    && var job := w.jobs[0];
       && job.cases == CaseSet(n) && FirstScored(job, k) && job.workspace == 0
       && Owned(job, 7, 0) && job.attempts == attempts && job.availableAt <= 0
       && job.judge == Some(config.judge) && job.claims == k + attempts + 1
  }

  lemma TakeRound(w: World, config: Config, n: nat, k: nat, attempts: nat)
    requires Ready(w, config, n, k, attempts) && config.allowed == {0} && config.leaseSeconds > 0
    ensures Enabled(w, Claim(7, {}, Some(0)))
    ensures Mine(Next(w, Claim(7, {}, Some(0))), config, n, k, attempts, Holding(0))
  {
    assert ExpireAll(w.jobs, config, w.now) == w.jobs;
  }

  lemma RaiseRound(w: World, config: Config, n: nat, k: nat, attempts: nat)
    requires Mine(w, config, n, k, attempts, Holding(0))
    ensures Enabled(w, Raise(7, "provider_timeout", true))
    ensures Mine(Next(w, Raise(7, "provider_timeout", true)), config, n, k, attempts, Failing(0, "provider_timeout", true))
  {
  }

  lemma ReportRound(w: World, config: Config, n: nat, attempts: nat)
    requires Mine(w, config, n, 0, attempts, Failing(0, "provider_timeout", true)) && attempts < 2
    ensures Enabled(w, Report(7, 0))
    ensures Ready(Next(w, Report(7, 0)), config, n, 0, attempts + 1)
  {
  }

  lemma PickRound(w: World, config: Config, n: nat, k: nat)
    requires Mine(w, config, n, k, 2, Holding(0)) && k < n
    ensures Enabled(w, Pick(7, Some(k)))
    ensures Mine(Next(w, Pick(7, Some(k))), config, n, k, 2, Scoring(0, k))
  {
    assert NextCase(w.jobs[0], k);
  }

  lemma SaveRound(w: World, config: Config, n: nat, k: nat)
    requires Mine(w, config, n, k, 2, Scoring(0, k)) && k < n
    ensures Enabled(w, Save(7, 0, 0))
    ensures if k + 1 < n then Ready(Next(w, Save(7, 0, 0)), config, n, k + 1, 2) else Complete(Next(w, Save(7, 0, 0)), n)
  {
    SavedNext(w.jobs[0], config, n, k);
    SaveStep(w, config);
    SavedWorld(World(w.now, w.jobs[0 := SaveCase(w.jobs[0], 7, config, 0, k, 0, 0)], w.workers[7 := Worker(config, Idle)]), w.jobs[0], config, n, k);
    hide SaveCase, CaseSet, Next, Enabled, Ready, Complete;
  }

  ghost predicate Complete(w: World, n: nat)
  {
    0 in w.jobs && w.jobs[0].cases == CaseSet(n) && w.jobs[0].status == Succeeded && w.jobs[0].claims == n + 2
  }

  lemma SavedWorld(w: World, job: Job, config: Config, n: nat, k: nat)
    requires Owned(job, 7, 0) && job.cases == CaseSet(n) && FirstScored(job, k) && k < n && job.workspace == 0
    requires job.attempts == 2 && job.claims == k + 3 && job.judge == Some(config.judge)
    requires w == World(0, map[0 := SaveCase(job, 7, config, 0, k, 0, 0)], map[7 := Worker(config, Idle)])
    ensures if k + 1 < n then Ready(w, config, n, k + 1, 2) else Complete(w, n)
  {
    hide SaveCase, CaseSet, FirstScored, Owned;
    SavedNext(job, config, n, k);
  }

  lemma SaveStep(w: World, config: Config)
    requires 0 in w.jobs && 7 in w.workers && w.workers[7].config == config && w.workers[7].phase.Scoring? && w.workers[7].phase.job == 0
    ensures Enabled(w, Save(7, 0, 0))
    ensures Next(w, Save(7, 0, 0)) == World(w.now, w.jobs[0 := SaveCase(w.jobs[0], 7, config, w.now, w.workers[7].phase.c, 0, 0)],
                                            w.workers[7 := Worker(config, Idle)])
  {
    hide SaveCase;
  }

  lemma SavedNext(job: Job, config: Config, n: nat, k: nat)
    requires Owned(job, 7, 0) && job.cases == CaseSet(n) && FirstScored(job, k) && k < n
    ensures var after := SaveCase(job, 7, config, 0, k, 0, 0);
      && after.cases == job.cases && after.workspace == job.workspace && after.attempts == job.attempts
      && after.claims == job.claims && after.judge == job.judge && after.lease == None
      && FirstScored(after, k + 1)
      && after.status == (if k + 1 == n then Succeeded else Queued)
      && (k + 1 < n ==> after.availableAt == 0)
  {
    hide CaseSet;
    assert k !in job.scores;
    assert |CaseSet(n)| == n;
  }

  /** A round that times out: one more attempt, nothing scored. */
  lemma FailingRound(w: World, config: Config, n: nat, attempts: nat) returns (a: World, b: World, c: World)
    requires Ready(w, config, n, 0, attempts) && attempts < 2 && config.allowed == {0} && config.leaseSeconds > 0
    ensures Enabled(w, Claim(7, {}, Some(0))) && a == Next(w, Claim(7, {}, Some(0)))
    ensures Enabled(a, Raise(7, "provider_timeout", true)) && b == Next(a, Raise(7, "provider_timeout", true))
    ensures Enabled(b, Report(7, 0)) && c == Next(b, Report(7, 0))
    ensures Ready(c, config, n, 0, attempts + 1)
  {
    hide Ready, Mine, Enabled, Next;
    TakeRound(w, config, n, 0, attempts);
    a := Next(w, Claim(7, {}, Some(0)));
    RaiseRound(a, config, n, 0, attempts);
    b := Next(a, Raise(7, "provider_timeout", true));
    ReportRound(b, config, n, attempts);
    c := Next(b, Report(7, 0));
  }

  /** A round that scores the next case; the last one completes the job. */
  lemma ScoringRound(w: World, config: Config, n: nat, k: nat) returns (a: World, b: World, c: World)
    requires Ready(w, config, n, k, 2) && k < n && config.allowed == {0} && config.leaseSeconds > 0
    ensures Enabled(w, Claim(7, {}, Some(0))) && a == Next(w, Claim(7, {}, Some(0)))
    ensures Enabled(a, Pick(7, Some(k))) && b == Next(a, Pick(7, Some(k)))
    ensures Enabled(b, Save(7, 0, 0)) && c == Next(b, Save(7, 0, 0))
    ensures k + 1 < n ==> Ready(c, config, n, k + 1, 2)
    ensures k + 1 == n ==> Complete(c, n)
  {
    hide Ready, Mine, Enabled, Next, Complete;
    TakeRound(w, config, n, k, 2);
    a := Next(w, Claim(7, {}, Some(0)));
    PickRound(a, config, n, k);
    b := Next(a, Pick(7, Some(k)));
    SaveRound(b, config, n, k);
    c := Next(b, Save(7, 0, 0));
  }

  /** A job that times out twice before anything is scored, taken up to its `k`-th score. */
  lemma {:induction false} ScoreUpTo(config: Config, n: nat, k: nat) returns (states: seq<World>, events: seq<Event>)
    requires n >= 1 && k < n && config.allowed == {0} && config.leaseSeconds > 0
    ensures Run(states, events) && Ready(states[|events|], config, n, k, 2)
  {
    hide Enabled, Next, Ready, Complete;
    if k > 0 {
      states, events := ScoreUpTo(config, n, k - 1);
      var a, b, c := ScoringRound(states[|events|], config, n, k - 1);
      states, events := ThreeMore(states, events, Claim(7, {}, Some(0)), Pick(7, Some(k - 1)), Save(7, 0, 0));
    } else {
      states, events := TimedOutTwice(config, n);
    }
  }

  lemma ThreeMore(states: seq<World>, events: seq<Event>, x: Event, y: Event, z: Event) returns (longer: seq<World>, more: seq<Event>)
    requires Run(states, events) && Enabled(states[|events|], x)
    requires Enabled(Next(states[|events|], x), y) && Enabled(Next(Next(states[|events|], x), y), z)
    ensures Run(longer, more) && longer[|more|] == Next(Next(Next(states[|events|], x), y), z)
  {
    hide Enabled, Next;
    RunGoesOn(states, events, x);
    longer, more := states + [Next(states[|events|], x)], events + [x];
    RunGoesOn(longer, more, y);
    longer, more := longer + [Next(longer[|more|], y)], more + [y];
    RunGoesOn(longer, more, z);
    longer, more := longer + [Next(longer[|more|], z)], more + [z];
  }

  lemma TimedOutTwice(config: Config, n: nat) returns (states: seq<World>, events: seq<Event>)
    requires n >= 1 && config.allowed == {0} && config.leaseSeconds > 0
    ensures Run(states, events) && Ready(states[|events|], config, n, 0, 2)
  {
    states, events := Waiting(config, n);
    var w := states[|events|];
    var a, b, c := FailingRound(w, config, n, 0);
    var d, e, f := FailingRound(c, config, n, 1);
    hide Enabled, Next, Ready;
    states, events := ThreeMore(states, events, Claim(7, {}, Some(0)), Raise(7, "provider_timeout", true), Report(7, 0));
    states, events := ThreeMore(states, events, Claim(7, {}, Some(0)), Raise(7, "provider_timeout", true), Report(7, 0));
  }

  lemma Waiting(config: Config, n: nat) returns (states: seq<World>, events: seq<Event>)
    requires n >= 1
    ensures Run(states, events) && Ready(states[|events|], config, n, 0, 0)
  {
    var empty := World(0, map[], map[]);
    assert 0 in CaseSet(n);
    states, events := [empty], [];
    var create := Create(0, 0, CaseSet(n));
    RunGoesOn(states, events, create);
    states, events := states + [Next(empty, create)], [create];
    RunGoesOn(states, events, Start(7, config));
    states, events := states + [Next(states[1], Start(7, config))], events + [Start(7, config)];
  }

  /**
    For every number of cases some run claims a job exactly two times more often than it has cases,
    and completes it.
   */
  lemma BoundIsMet(config: Config, n: nat) returns (states: seq<World>, events: seq<Event>)
    requires n >= 1 && config.allowed == {0} && config.leaseSeconds > 0
    ensures Run(states, events)
    ensures 0 in states[|events|].jobs
    ensures var job := states[|events|].jobs[0];
      |job.cases| == n && job.status == Succeeded && job.claims == n + (MAX_JUDGE_ATTEMPTS - 1)
  {
    states, events := ScoreUpTo(config, n, n - 1);
    var a, b, c := ScoringRound(states[|events|], config, n, n - 1);
    hide Enabled, Next, Ready;
    states, events := ThreeMore(states, events, Claim(7, {}, Some(0)), Pick(7, Some(n - 1)), Save(7, 0, 0));
  }

  // --------------------------------------------------- the worker's own methods

  /** The shared tables; each method is one transaction of one worker. */
  ghost predicate RowsOk(jobs: map<JobId, Job>)
  {
    forall j :: j in jobs ==> JobOk(jobs[j])
  }

  lemma ExpiredRowsOk(jobs: map<JobId, Job>, config: Config, now: int)
    requires RowsOk(jobs)
    ensures RowsOk(ExpireAll(jobs, config, now))
  {
    hide JobOk;
    forall j | j in jobs && LeaseRanOut(jobs[j], config, now) ensures JobOk(Expire(jobs[j], now))
    {
      ExpireOk(jobs[j], now);
    }
  }

  lemma TakenIsOk(jobs: map<JobId, Job>, me: WorkerId, config: Config, now: int, locked: set<JobId>, j: JobId)
    requires FirstEligible(jobs, config, now, locked, j)
    ensures j in jobs && (RowsOk(jobs) ==> JobOk(Take(jobs[j], me, config, now)))
  {
    hide JobOk, Take, Eligible;
    if RowsOk(jobs) { TakeOk(jobs[j], me, config, now); }
  }

  /** A running row has a case left, so the count never agrees. */
  lemma RunningIsUnfinished(job: Job)
    requires JobOk(job) && job.status == Running
    ensures |job.scores| != |job.cases|
  {
    SubsetSizes(job.scores.Keys, job.cases);
  }

  class JobTable {
    var now: int
    var jobs: map<JobId, Job>

    constructor ()
      ensures jobs == map[]
    {
      now, jobs := 0, map[];
    }

    /** Every row keeps its invariant. */
    ghost predicate Ok()
      reads this
    {
      RowsOk(jobs)
    }

    method ClaimNext(me: WorkerId, config: Config, locked: set<JobId>) returns (pick: Option<JobId>)
      modifies this`jobs
      ensures var expired := ExpireAll(old(jobs), config, now);
        if pick.Some?
        then FirstEligible(expired, config, now, locked, pick.value)
             && jobs == expired[pick.value := Take(expired[pick.value], me, config, now)]
        else jobs == expired && forall k :: k in expired && k !in locked ==> !Eligible(expired[k], config, now)
      ensures old(Ok()) ==> Ok()
    {
      hide FirstEligible, JobOk, Take, Eligible;
      ghost var start := jobs;
      jobs := ExpireAll(jobs, config, now);
      pick := FirstReady(config, locked);
      if RowsOk(start) { ExpiredRowsOk(start, config, now); }
      if pick.Some? {
        TakenIsOk(jobs, me, config, now, locked, pick.value);
        jobs := jobs[pick.value := Take(jobs[pick.value], me, config, now)];
      }
    }

    /** `ORDER BY available_at, created_at, id LIMIT 1`, passing over locked rows. */
    method FirstReady(config: Config, locked: set<JobId>) returns (pick: Option<JobId>)
      ensures pick.Some? ==> FirstEligible(jobs, config, now, locked, pick.value)
      ensures pick.None? ==> forall k :: k in jobs && k !in locked ==> !Eligible(jobs[k], config, now)
    {
      hide Eligible;
      pick := None;
      var left := jobs.Keys - locked;
      while left != {}
        invariant left <= jobs.Keys - locked
        invariant pick.Some? ==> pick.value in jobs && pick.value !in locked && Eligible(jobs[pick.value], config, now)
        invariant forall k :: k in jobs && k !in locked && k !in left && Eligible(jobs[k], config, now) ==>
                    pick.Some? && Before(jobs, pick.value, k)
        decreases |left|
      {
        var k :| k in left;
        left := left - {k};
        if Eligible(jobs[k], config, now) && (pick.None? || !Before(jobs, pick.value, k)) {
          ghost var was := pick;
          pick := Some(k);
          forall i | i in jobs && i !in locked && i !in left && Eligible(jobs[i], config, now)
            ensures Before(jobs, k, i)
          {
            if i != k { BeforeTransitive(jobs, k, was.value, i); }
          }
        }
      }
    }

    method Heartbeat(me: WorkerId, config: Config, j: JobId) returns (renewed: bool)
      requires j in jobs
      modifies this`jobs
      ensures jobs == old(jobs)[j := Renew(old(jobs)[j], me, config, now)]
      ensures renewed <==> Owned(old(jobs)[j], me, now)
      ensures old(Ok()) ==> Ok()
    {
      if JobOk(jobs[j]) { RenewOk(jobs[j], me, config, now); }
      renewed := Owned(jobs[j], me, now);
      if renewed {
        jobs := jobs[j := jobs[j].(lease := Some(Lease(me, now + config.leaseSeconds)))];
      }
    }

    method SaveCaseScore(me: WorkerId, config: Config, j: JobId, c: CaseNo, milli: nat, micros: nat) returns (saved: bool)
      requires j in jobs
      modifies this`jobs
      ensures jobs == old(jobs)[j := SaveCase(old(jobs)[j], me, config, now, c, milli, micros)]
      ensures saved <==> Owned(old(jobs)[j], me, now)
      ensures old(Ok()) && (saved ==> old(jobs)[j].judge == Some(config.judge) && NextCase(old(jobs)[j], c)) ==> Ok()
    {
      var job := jobs[j];
      if JobOk(job) && (Owned(job, me, now) ==> job.judge == Some(config.judge) && NextCase(job, c)) {
        SaveCaseOk(job, me, config, now, c, milli, micros);
      }
      saved := Owned(job, me, now);
      if !saved { return; }
      if c !in job.scores {
        job := job.(scores := job.scores[c := Score(config.judge, config.priced, milli)]);
      }
      if config.priced && c !in job.ledger {
        job := job.(ledger := job.ledger[c := Charge(config.judge.provider, config.judge.model, micros)]);
      }
      var count := |job.scores|;
      if count == |job.cases| {
        job := job.(status := Succeeded, lease := None, error := None);
      } else {
        job := job.(status := Queued, availableAt := now, lease := None);
      }
      jobs := jobs[j := job];
    }

    /** None when the counts disagree, which the caller turns into a failure of its own. */
    method FinishJob(me: WorkerId, j: JobId) returns (consistent: bool)
      requires j in jobs
      modifies this`jobs
      ensures var after := FinishIfComplete(old(jobs)[j], me, now);
        consistent == after.Some? && jobs == if consistent then old(jobs)[j := after.value] else old(jobs)
      ensures old(Ok()) ==> Ok() && jobs == old(jobs)
    {
      if JobOk(jobs[j]) && jobs[j].status == Running { RunningIsUnfinished(jobs[j]); }
      var job := jobs[j];
      if !Owned(job, me, now) { return true; }
      if |job.scores| != |job.cases| { return false; }
      jobs := jobs[j := job.(status := Succeeded, lease := None, error := None)];
      consistent := true;
    }

    method FailJob(me: WorkerId, j: JobId, code: string, retryable: bool, delay: nat) returns (recorded: bool)
      requires j in jobs
      modifies this`jobs
      ensures jobs == old(jobs)[j := Fail(old(jobs)[j], me, now, code, retryable, delay)]
      ensures recorded <==> Owned(old(jobs)[j], me, now)
      ensures old(Ok()) ==> Ok()
    {
      var job := jobs[j];
      if JobOk(job) { FailOk(job, me, now, code, retryable, delay); }
      recorded := Owned(job, me, now);
      if !recorded { return; }
      var nextAttempt := job.attempts + 1;
      if retryable && nextAttempt < MAX_JUDGE_ATTEMPTS {
        jobs := jobs[j := job.(status := Queued, attempts := nextAttempt, availableAt := now + delay, lease := None, error := Some(code))];
      } else {
        jobs := jobs[j := job.(status := Failed, attempts := nextAttempt, lease := None, error := Some(code))];
      }
    }
  }
}
