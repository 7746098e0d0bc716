/**
 The queue of re-embedding jobs: a table whose rows are leased to workers for a time. Nothing in the
 table says which worker may finish a job, so what the queue promises depends on each worker
 touching its job only while its own lease lasts. The runs here include the ones where that fails.
 */
module ReindexJobs {
  import opened Wrappers
  import opened RowIds

  datatype Status = Queued | InProgress | Retrying | Succeeded | Failed

  /** Times are seconds of the database clock. */
  datatype Job = Job(document: Id, status: Status, attempt: nat, leasedUntil: Option<int>)

  datatype Config = Config(leaseSeconds: nat, retrySeconds: nat, maxAttempts: nat)

  // ---------------------------------------------------------------------------
  // The table
  // ---------------------------------------------------------------------------

  predicate IsActive(job: Job) {
    job.status == Queued || job.status == InProgress || job.status == Retrying
  }

  predicate HasActive(jobs: map<Id, Job>, document: Id) {
    exists j :: j in jobs && jobs[j].document == document && IsActive(jobs[j])
  }

  /** `_enqueue_reindex_job`: a new job, unless the document has an active one. */
  function Enqueued(jobs: map<Id, Job>, document: Id, id: Id): map<Id, Job> {
    if HasActive(jobs, document) then jobs else jobs[id := Job(document, Queued, 0, None)]
  }

  /** The condition of `claim_reindex_job`. */
  predicate IsClaimable(job: Job, now: int) {
    || ((job.status == Queued || job.status == Retrying) && (job.leasedUntil.None? || job.leasedUntil.value <= now))
    || (job.status == InProgress && job.leasedUntil.Some? && job.leasedUntil.value <= now)
  }

  function Claimed(job: Job, now: int, leaseSeconds: nat): Job {
    job.(status := InProgress, attempt := job.attempt + 1, leasedUntil := Some(now + leaseSeconds))
  }

  /** `update_reindex_job_stage`: two more minutes, if the job is in progress. */
  function Staged(job: Job, now: int): Job {
    if job.status == InProgress then job.(leasedUntil := Some(now + 120)) else job
  }

  /** `complete_reindex_job` */
  function Completed(job: Job): Job {
    job.(status := Succeeded, leasedUntil := None)
  }

  /** `fail_reindex_job` */
  function AfterFailure(job: Job, now: int, retryAfter: Option<nat>): Job {
    if retryAfter.Some? then job.(status := Retrying, leasedUntil := Some(now + retryAfter.value))
    else job.(status := Failed, leasedUntil := None)
  }

  // ---------------------------------------------------------------------------
  // Workers
  // ---------------------------------------------------------------------------

  /** Why a worker gives a job up: the document cannot be re-embedded, an error, or the worker is stopped. */
  datatype Reason = Invalid | Error | Stopped

  /** The `retry_after_seconds` that `run_once` passes. */
  function RetryAfter(config: Config, reason: Reason, attempt: nat): Option<nat> {
    match reason
    case Invalid => None
    case Error => if attempt < config.maxAttempts then Some(config.retrySeconds) else None
    case Stopped => Some(0)
  }

  /** What a worker has of the job that it works on: `until` is the end of the lease that it took or extended last. */
  datatype Hold = Hold(job: Id, attempt: nat, until: int)

  /** `claims` has each job as often as it was claimed. */
  datatype State = State(now: int, jobs: map<Id, Job>, held: map<Id, Hold>, claims: multiset<Id>)

  datatype Step =
    | Enqueue(document: Id, id: Id)
    | Claim(worker: Id, job: Id)
    | Stage(worker: Id)
    | Complete(worker: Id)
    | Fail(worker: Id, reason: Reason)
    | Crash(worker: Id)
    | Tick(seconds: nat)

  function Init(now: int): State {
    State(now, map[], map[], multiset{})
  }

  /** Whether a worker has a job, and so takes a step on it. */
  predicate Holds(st: State, worker: Id) {
    worker in st.held && st.held[worker].job in st.jobs
  }

  /** The state after a step. A step that cannot be taken changes nothing. */
  function Do(config: Config, st: State, step: Step): State {
    match step
    case Enqueue(document, id) =>
      if id in st.jobs then st else st.(jobs := Enqueued(st.jobs, document, id))
    case Claim(w, j) =>
      if w in st.held || j !in st.jobs || !IsClaimable(st.jobs[j], st.now) then st
      else
        var job := Claimed(st.jobs[j], st.now, config.leaseSeconds);
        st.(jobs := st.jobs[j := job],
            held := st.held[w := Hold(j, job.attempt, st.now + config.leaseSeconds)],
            claims := st.claims[j := st.claims[j] + 1])
    case Stage(w) =>
      if !Holds(st, w) then st
      else
        var hold := st.held[w];
        var until := if st.jobs[hold.job].status == InProgress then st.now + 120 else hold.until;
        st.(jobs := st.jobs[hold.job := Staged(st.jobs[hold.job], st.now)], held := st.held[w := hold.(until := until)])
    case Complete(w) =>
      if !Holds(st, w) then st
      else
        var hold := st.held[w];
        st.(jobs := st.jobs[hold.job := Completed(st.jobs[hold.job])], held := st.held - {w})
    case Fail(w, reason) =>
      if !Holds(st, w) then st
      else
        var hold := st.held[w];
        var job := AfterFailure(st.jobs[hold.job], st.now, RetryAfter(config, reason, hold.attempt));
        st.(jobs := st.jobs[hold.job := job], held := st.held - {w})
    case Crash(w) => st.(held := st.held - {w})
    case Tick(seconds) => st.(now := st.now + seconds)
  }

  function Exec(config: Config, st: State, steps: seq<Step>): State
    decreases |steps|
  {
    if steps == [] then st else Exec(config, Do(config, st, steps[0]), steps[1..])
  }

  // ---------------------------------------------------------------------------
  // What holds in all runs
  // ---------------------------------------------------------------------------

  /** `attempt` counts the claims, and no two workers have the same attempt of the same job. */
  ghost predicate Counted(st: State) {
    && (forall j :: j in st.jobs ==> st.claims[j] == st.jobs[j].attempt)
    && (forall j :: j !in st.jobs ==> st.claims[j] == 0)
    && (forall w :: w in st.held ==>
          st.held[w].job in st.jobs && 1 <= st.held[w].attempt <= st.jobs[st.held[w].job].attempt)
    && (forall w, w' :: w in st.held && w' in st.held && w != w' && st.held[w].job == st.held[w'].job ==>
          st.held[w].attempt != st.held[w'].attempt)
  }

  /** A step of a worker on the job it holds: the row keeps its attempt, and the worker keeps its claim or has none. */
  ghost predicate IsReport(st: State, st': State) {
    && st'.claims == st.claims && st'.jobs.Keys == st.jobs.Keys
    && (forall j :: j in st.jobs ==>
          st'.jobs[j].attempt == st.jobs[j].attempt && st'.jobs[j].document == st.jobs[j].document)
    && (forall w :: w in st'.held ==>
          w in st.held && st'.held[w].job == st.held[w].job && st'.held[w].attempt == st.held[w].attempt)
  }

  lemma ReportKeepsCounted(st: State, st': State)
    requires Counted(st) && IsReport(st, st')
    ensures Counted(st')
  {
  }

  lemma ClaimKeepsCounted(config: Config, st: State, w: Id, j: Id, st': State)
    requires Counted(st) && st' == Do(config, st, Claim(w, j))
    ensures Counted(st')
  {
    if st' != st {
      assert forall i :: i != j ==> st'.claims[i] == st.claims[i];
    }
  }

  lemma NewJobKeepsCounted(st: State, document: Id, id: Id)
    requires Counted(st) && id !in st.jobs
    ensures Counted(st.(jobs := st.jobs[id := Job(document, Queued, 0, None)]))
  {
  }

  lemma EnqueueKeepsCounted(config: Config, st: State, document: Id, id: Id)
    requires Counted(st)
    ensures Counted(Do(config, st, Enqueue(document, id)))
  {
    var t := Do(config, st, Enqueue(document, id));
    if t != st { NewJobKeepsCounted(st, document, id); }
  }

  lemma StepIsReport(config: Config, st: State, step: Step)
    requires !step.Enqueue? && !step.Claim?
    ensures IsReport(st, Do(config, st, step))
  {
  }

  lemma StepKeepsCounted(config: Config, st: State, step: Step)
    requires Counted(st)
    ensures Counted(Do(config, st, step))
  {
    match step
    case Enqueue(document, id) => EnqueueKeepsCounted(config, st, document, id);
    case Claim(w, j) => ClaimKeepsCounted(config, st, w, j, Do(config, st, step));
    case _ =>
      StepIsReport(config, st, step);
      ReportKeepsCounted(st, Do(config, st, step));
  }

  lemma {:induction false} RunKeepsCounted(config: Config, st: State, steps: seq<Step>)
    requires Counted(st)
    ensures Counted(Exec(config, st, steps))
    decreases |steps|
  {
    if steps != [] {
      StepKeepsCounted(config, st, steps[0]);
      RunKeepsCounted(config, Do(config, st, steps[0]), steps[1..]);
    }
  }

  /** In every run whatever, `attempt` is the number of claims. */
  lemma AttemptsAreClaims(config: Config, now: int, steps: seq<Step>, j: Id)
    requires j in Exec(config, Init(now), steps).jobs
    ensures var st := Exec(config, Init(now), steps); st.jobs[j].attempt == st.claims[j]
  {
    RunKeepsCounted(config, Init(now), steps);
  }

  // ---------------------------------------------------------------------------
  // What holds while workers respect their leases
  // ---------------------------------------------------------------------------

  predicate Unexpired(st: State, worker: Id) {
    worker in st.held && st.now < st.held[worker].until
  }

  /** The discipline: a worker touches its job only while its own lease lasts. */
  predicate InTime(st: State, step: Step) {
    match step
    case Stage(w) => Unexpired(st, w)
    case Complete(w) => Unexpired(st, w)
    case Fail(w, _) => Unexpired(st, w)
    case _ => true
  }

  ghost predicate Disciplined(config: Config, st: State, steps: seq<Step>)
    decreases |steps|
  {
    steps == [] || (InTime(st, steps[0]) && Disciplined(config, Do(config, st, steps[0]), steps[1..]))
  }

  /** Who has an unexpired lease has the job: the row says so, and with which attempt. */
  ghost predicate LeasesOk(st: State) {
    forall w :: Unexpired(st, w) && st.held[w].job in st.jobs ==>
      var job := st.jobs[st.held[w].job];
      job.status == InProgress && job.leasedUntil == Some(st.held[w].until) && job.attempt == st.held[w].attempt
  }

  ghost predicate OneActive(jobs: map<Id, Job>) {
    forall i, j :: i in jobs && j in jobs && i != j && jobs[i].document == jobs[j].document ==>
      !(IsActive(jobs[i]) && IsActive(jobs[j]))
  }

  ghost predicate Inv(st: State) {
    Counted(st) && LeasesOk(st) && OneActive(st.jobs)
  }

  /** Jobs stay, and those that ended stay as they are. */
  ghost predicate KeepsEnded(jobs: map<Id, Job>, jobs': map<Id, Job>) {
    forall j :: j in jobs ==> j in jobs' && (!IsActive(jobs[j]) ==> jobs'[j] == jobs[j])
  }

  lemma ClaimKeepsLeases(config: Config, st: State, w: Id, j: Id)
    requires Counted(st) && LeasesOk(st)
    ensures LeasesOk(Do(config, st, Claim(w, j)))
  {
  }

  lemma EnqueueKeepsLeases(config: Config, st: State, document: Id, id: Id)
    requires Counted(st) && LeasesOk(st)
    ensures LeasesOk(Do(config, st, Enqueue(document, id)))
  {
  }

  /** A report on a job on which nobody else has an unexpired lease affects nobody else. */
  lemma ReportKeepsLeases(st: State, st': State, w: Id)
    requires LeasesOk(st) && w in st.held && st'.now == st.now
    requires forall v :: Unexpired(st, v) && v != w ==> st.held[v].job != st.held[w].job
    requires forall j :: j in st'.jobs <==> j in st.jobs
    requires forall j :: j in st.jobs && j != st.held[w].job ==> st'.jobs[j] == st.jobs[j]
    requires forall v :: v in st'.held && v != w ==> v in st.held && st'.held[v] == st.held[v]
    requires w in st'.held ==> st'.held[w].job in st'.jobs ==>
               && st'.jobs[st'.held[w].job].status == InProgress
               && st'.jobs[st'.held[w].job].leasedUntil == Some(st'.held[w].until)
               && st'.jobs[st'.held[w].job].attempt == st'.held[w].attempt
    ensures LeasesOk(st')
  {
  }

  lemma LapseKeepsLeases(config: Config, st: State, step: Step)
    requires LeasesOk(st) && (step.Crash? || step.Tick?)
    ensures LeasesOk(Do(config, st, step))
  {
  }

  lemma StepKeepsLeases(config: Config, st: State, step: Step)
    requires Counted(st) && LeasesOk(st) && InTime(st, step)
    ensures LeasesOk(Do(config, st, step))
  {
    InTimeIsFenced(st, step);
    FencedKeepsLeases(config, st, step);
  }

  /** A report within the lease is on a job in progress. */
  lemma ReportsOnActive(st: State, step: Step)
    requires Counted(st) && LeasesOk(st) && InTime(st, step) && (step.Stage? || step.Complete? || step.Fail?)
    ensures step.worker in st.held && st.held[step.worker].job in st.jobs
    ensures st.jobs[st.held[step.worker].job].status == InProgress
  {
  }

  lemma StepKeepsOneActive(config: Config, st: State, step: Step)
    requires Counted(st) && LeasesOk(st) && OneActive(st.jobs) && InTime(st, step)
    ensures OneActive(Do(config, st, step).jobs)
  {
    if step.Fail? { ReportsOnActive(st, step); }
    OneActiveExactly(config, st, step);
  }

  lemma StepKeepsEnded(config: Config, st: State, step: Step)
    requires Counted(st) && LeasesOk(st) && InTime(st, step)
    ensures KeepsEnded(st.jobs, Do(config, st, step).jobs)
  {
    if step.Stage? || step.Complete? || step.Fail? { ReportsOnActive(st, step); }
  }

  lemma StepKeepsInv(config: Config, st: State, step: Step)
    requires Inv(st) && InTime(st, step)
    ensures Inv(Do(config, st, step)) && KeepsEnded(st.jobs, Do(config, st, step).jobs)
  {
    StepKeepsCounted(config, st, step);
    StepKeepsLeases(config, st, step);
    StepKeepsOneActive(config, st, step);
    StepKeepsEnded(config, st, step);
  }

  lemma {:induction false} RunKeepsInv(config: Config, st: State, steps: seq<Step>)
    requires Inv(st) && Disciplined(config, st, steps)
    ensures Inv(Exec(config, st, steps)) && KeepsEnded(st.jobs, Exec(config, st, steps).jobs)
    decreases |steps|
  {
    if steps != [] {
      StepKeepsInv(config, st, steps[0]);
      RunKeepsInv(config, Do(config, st, steps[0]), steps[1..]);
    }
  }

  /** At most one worker has an unexpired lease on a job, and each document has at most one active job. */
  lemma OneHolder(config: Config, now: int, steps: seq<Step>, st: State, w: Id, w': Id)
    requires Disciplined(config, Init(now), steps) && st == Exec(config, Init(now), steps)
    ensures OneActive(st.jobs)
    ensures Unexpired(st, w) && Unexpired(st, w') && st.held[w].job == st.held[w'].job ==> w == w'
  {
    RunKeepsInv(config, Init(now), steps);
    if Unexpired(st, w) && Unexpired(st, w') && st.held[w].job == st.held[w'].job { HoldersAreOne(st, w, w'); }
  }

  lemma HoldersAreOne(st: State, w: Id, w': Id)
    requires Counted(st) && LeasesOk(st) && Unexpired(st, w) && Unexpired(st, w') && st.held[w].job == st.held[w'].job
    ensures w == w'
  {
  }

  /** Once a job is SUCCEEDED or FAILED, its row never changes again. */
  lemma EndedIsFinal(config: Config, now: int, steps: seq<Step>, later: seq<Step>, j: Id)
    requires Disciplined(config, Init(now), steps) && Disciplined(config, Exec(config, Init(now), steps), later)
    requires var jobs := Exec(config, Init(now), steps).jobs; j in jobs && !IsActive(jobs[j])
    ensures j in Exec(config, Exec(config, Init(now), steps), later).jobs
    ensures Exec(config, Exec(config, Init(now), steps), later).jobs[j] == Exec(config, Init(now), steps).jobs[j]
  {
    RunKeepsInv(config, Init(now), steps);
    RunKeepsInv(config, Exec(config, Init(now), steps), later);
  }

  // ---------------------------------------------------------------------------
  // What fails without the discipline
  // ---------------------------------------------------------------------------

  /**
   The worker `a` outlives its lease, `b` finishes the job, and the document is queued again. When `a`
   then reports an error, the finished job is active again, beside the new one.
   */
  lemma LapsedWorkerRevivesAJob(config: Config)
    requires config.maxAttempts > 1
    ensures var before := Exec(config, Init(0), [Enqueue("d", "i"), Claim("a", "i"), Tick(config.leaseSeconds),
                                                 Claim("b", "i"), Complete("b"), Enqueue("d", "j")]);
            && before.jobs == map["i" := Job("d", Succeeded, 2, None), "j" := Job("d", Queued, 0, None)]
            && "i" in Do(config, before, Fail("a", Error)).jobs
            && Do(config, before, Fail("a", Error)).jobs["i"].status == Retrying
            && !OneActive(Do(config, before, Fail("a", Error)).jobs)
  {
    var st := LapsedRun(config);
    var jobs := Do(config, st, Fail("a", Error)).jobs;
    assert IsActive(jobs["i"]) && IsActive(jobs["j"]);
  }

  lemma LapsedRun(config: Config) returns (st: State)
    ensures st == Exec(config, Init(0), [Enqueue("d", "i"), Claim("a", "i"), Tick(config.leaseSeconds),
                                         Claim("b", "i"), Complete("b"), Enqueue("d", "j")])
    ensures st.jobs == map["i" := Job("d", Succeeded, 2, None), "j" := Job("d", Queued, 0, None)]
    ensures st.held == map["a" := Hold("i", 1, config.leaseSeconds)]
  {
    var lease := config.leaseSeconds;
    var s3 := LapsedStart(config);
    var s4 := Do(config, s3, Claim("b", "i"));
    assert s4.jobs == map["i" := Job("d", InProgress, 2, Some(lease + lease))];
    var s5 := Do(config, s4, Complete("b"));
    assert s5.jobs == map["i" := Job("d", Succeeded, 2, None)] && s5.held == map["a" := Hold("i", 1, lease)];
    st := Do(config, s5, Enqueue("d", "j"));
    ExecSix(config, Init(0), Enqueue("d", "i"), Claim("a", "i"), Tick(lease), Claim("b", "i"), Complete("b"),
            Enqueue("d", "j"));
  }

  lemma LapsedStart(config: Config) returns (st: State)
    ensures st == Do(config, Do(config, Do(config, Init(0), Enqueue("d", "i")), Claim("a", "i")),
                     Tick(config.leaseSeconds))
    ensures st.now == config.leaseSeconds && st.held == map["a" := Hold("i", 1, config.leaseSeconds)]
    ensures st.jobs == map["i" := Job("d", InProgress, 1, Some(config.leaseSeconds))]
  {
    var s1 := Do(config, Init(0), Enqueue("d", "i"));
    assert s1.jobs == map["i" := Job("d", Queued, 0, None)];
    var s2 := Do(config, s1, Claim("a", "i"));
    assert s2.jobs == map["i" := Job("d", InProgress, 1, Some(config.leaseSeconds))];
    st := Do(config, s2, Tick(config.leaseSeconds));
  }

  lemma ExecFirst(config: Config, st: State, step: Step, rest: seq<Step>)
    ensures Exec(config, st, [step] + rest) == Exec(config, Do(config, st, step), rest)
  {
    assert ([step] + rest)[1..] == rest;
  }

  lemma ExecThree(config: Config, st: State, a: Step, b: Step, c: Step)
    ensures Exec(config, st, [a, b, c]) == Do(config, Do(config, Do(config, st, a), b), c)
  {
    var s2 := Do(config, Do(config, st, a), b);
    ExecFirst(config, st, a, [b, c]);
    ExecFirst(config, Do(config, st, a), b, [c]);
    ExecFirst(config, s2, c, []);
    assert [a] + [b, c] == [a, b, c] && [b] + [c] == [b, c] && [c] + [] == [c];
  }

  lemma ExecSix(config: Config, st: State, a: Step, b: Step, c: Step, d: Step, e: Step, f: Step)
    ensures Exec(config, st, [a, b, c, d, e, f])
         == Do(config, Do(config, Do(config, Do(config, Do(config, Do(config, st, a), b), c), d), e), f)
  {
    assert [a, b, c, d, e, f] == [a, b, c] + [d, e, f];
    ExecOn(config, st, [a, b, c], [d, e, f]);
    ExecThree(config, st, a, b, c);
    ExecThree(config, Do(config, Do(config, Do(config, st, a), b), c), d, e, f);
  }

  /**
   The worker `a` outlives its lease and reports progress on the job that `b` has claimed: then both
   have an unexpired lease on it.
   */
  lemma LapsedWorkerSharesAJob(config: Config) returns (st: State)
    requires config.leaseSeconds > 0
    ensures st == Exec(config, Init(0),
                       [Enqueue("d", "i"), Claim("a", "i"), Tick(config.leaseSeconds), Claim("b", "i")])
    ensures SingleHolders(st)
    ensures var t := Do(config, st, Stage("a"));
            Unexpired(t, "a") && Unexpired(t, "b") && t.held["a"].job == t.held["b"].job && !SingleHolders(t)
  {
    var lease := config.leaseSeconds;
    var s1 := Do(config, Init(0), Enqueue("d", "i"));
    var s2 := Do(config, s1, Claim("a", "i"));
    var s3 := Do(config, s2, Tick(lease));
    st := Do(config, s3, Claim("b", "i"));
    assert st.held == map["a" := Hold("i", 1, lease), "b" := Hold("i", 2, lease + lease)];
    ExecThree(config, Init(0), Enqueue("d", "i"), Claim("a", "i"), Tick(lease));
    ExecLast(config, Init(0), [Enqueue("d", "i"), Claim("a", "i"), Tick(lease)], Claim("b", "i"));
    assert [Enqueue("d", "i"), Claim("a", "i"), Tick(lease)] + [Claim("b", "i")]
        == [Enqueue("d", "i"), Claim("a", "i"), Tick(lease), Claim("b", "i")];
  }

  // ---------------------------------------------------------------------------
  // Exactly when it fails
  // ---------------------------------------------------------------------------

  /** No two workers have unexpired leases on one job. */
  ghost predicate SingleHolders(st: State) {
    forall w, v :: Unexpired(st, w) && Unexpired(st, v) && w != v ==> st.held[w].job != st.held[v].job
  }

  /** What one may expect of the queue. */
  datatype Promise = EndedStay | OneHolderEach | OneActiveEach | WithinAttempts

  ghost predicate Kept(config: Config, promise: Promise, st: State, t: State) {
    match promise
    case EndedStay => KeepsEnded(st.jobs, t.jobs)
    case OneHolderEach => SingleHolders(t)
    case OneActiveEach => OneActive(t.jobs)
    case WithinAttempts => AllWithin(config, t.claims)
  }

  /** A worker reports on a job that ended in another way, or puts one back that FAILED. */
  predicate Reopens(config: Config, st: State, step: Step) {
    match step
    case Complete(w) => Holds(st, w) && st.jobs[st.held[w].job].status == Failed
    case Fail(w, reason) =>
      && Holds(st, w)
      && var status := st.jobs[st.held[w].job].status;
         status == Succeeded || (status == Failed && RetryAfter(config, reason, st.held[w].attempt).Some?)
    case _ => false
  }

  ghost predicate OtherHolds(st: State, w: Id, j: Id) {
    exists v :: v != w && Unexpired(st, v) && st.held[v].job == j
  }

  /** A worker takes or extends a lease on a job on which another one's lease has not run out. */
  ghost predicate Shares(config: Config, st: State, step: Step) {
    match step
    case Claim(w, j) =>
      && w !in st.held && j in st.jobs && IsClaimable(st.jobs[j], st.now) && config.leaseSeconds > 0
      && OtherHolds(st, w, j)
    case Stage(w) =>
      Holds(st, w) && st.jobs[st.held[w].job].status == InProgress && OtherHolds(st, w, st.held[w].job)
    case _ => false
  }

  /** A worker puts an ended job back although its document has an active one. */
  predicate Doubles(config: Config, st: State, step: Step) {
    match step
    case Fail(w, reason) =>
      && Holds(st, w)
      && var job := st.jobs[st.held[w].job];
         !IsActive(job) && RetryAfter(config, reason, st.held[w].attempt).Some? && HasActive(st.jobs, job.document)
    case _ => false
  }

  /** A job is claimed that has used up its attempts: the claim does not look at them. */
  predicate Overclaims(config: Config, st: State, step: Step) {
    match step
    case Claim(w, j) =>
      w !in st.held && j in st.jobs && IsClaimable(st.jobs[j], st.now) && st.jobs[j].attempt >= config.maxAttempts
    case _ => false
  }

  ghost predicate Breaks(config: Config, st: State, step: Step, promise: Promise) {
    match promise
    case EndedStay => Reopens(config, st, step)
    case OneHolderEach => Shares(config, st, step)
    case OneActiveEach => Doubles(config, st, step)
    case WithinAttempts => Overclaims(config, st, step)
  }

  /** Jobs that ended have no lease. */
  ghost predicate EndedUnleased(st: State) {
    forall j :: j in st.jobs && !IsActive(st.jobs[j]) ==> st.jobs[j].leasedUntil == None
  }

  lemma StepKeepsUnleased(config: Config, st: State, step: Step)
    requires EndedUnleased(st)
    ensures EndedUnleased(Do(config, st, step))
  {
  }

  /** One step leaves the rows of ended jobs alone exactly if it does not report otherwise on one. */
  lemma EndedStayExactly(config: Config, st: State, step: Step)
    requires EndedUnleased(st)
    ensures KeepsEnded(st.jobs, Do(config, st, step).jobs) <==> !Reopens(config, st, step)
  {
    var t := Do(config, st, step);
    if step.Complete? && Holds(st, step.worker) { assert t.jobs[st.held[step.worker].job].status == Succeeded; }
    if step.Fail? && Holds(st, step.worker) {
      assert t.jobs[st.held[step.worker].job] == AfterFailure(st.jobs[st.held[step.worker].job], st.now,
                                                              RetryAfter(config, step.reason,
                                                                         st.held[step.worker].attempt));
    }
  }

  lemma ClaimSharesExactly(config: Config, st: State, w: Id, j: Id)
    requires SingleHolders(st)
    ensures SingleHolders(Do(config, st, Claim(w, j))) <==> !Shares(config, st, Claim(w, j))
  {
    var t := Do(config, st, Claim(w, j));
    if Shares(config, st, Claim(w, j)) {
      var v :| v != w && Unexpired(st, v) && st.held[v].job == j;
      assert Unexpired(t, w) && Unexpired(t, v) && t.held[v] == st.held[v];
    }
  }

  lemma StageSharesExactly(config: Config, st: State, w: Id)
    requires SingleHolders(st)
    ensures SingleHolders(Do(config, st, Stage(w))) <==> !Shares(config, st, Stage(w))
  {
    var t := Do(config, st, Stage(w));
    if Shares(config, st, Stage(w)) {
      var v :| v != w && Unexpired(st, v) && st.held[v].job == st.held[w].job;
      assert Unexpired(t, w) && Unexpired(t, v) && t.held[v] == st.held[v];
    }
  }

  lemma OthersShareNothing(config: Config, st: State, step: Step)
    requires SingleHolders(st) && !step.Claim? && !step.Stage?
    ensures SingleHolders(Do(config, st, step))
  {
    var t := Do(config, st, step);
    assert forall w :: Unexpired(t, w) ==> Unexpired(st, w) && t.held[w] == st.held[w];
  }

  /** One step leaves at most one holder for each job exactly if no lease is taken or extended beside another one's. */
  lemma OneHolderExactly(config: Config, st: State, step: Step)
    requires SingleHolders(st)
    ensures SingleHolders(Do(config, st, step)) <==> !Shares(config, st, step)
  {
    match step
    case Claim(w, j) => ClaimSharesExactly(config, st, w, j);
    case Stage(w) => StageSharesExactly(config, st, w);
    case _ => OthersShareNothing(config, st, step);
  }

  /**
   A failed attempt keeps one active job per document exactly if it ends the job, or the job was active, or no other
   is.
   */
  lemma FailureKeepsOneActive(jobs: map<Id, Job>, j: Id, now: int, retryAfter: Option<nat>)
    requires OneActive(jobs) && j in jobs
    ensures OneActive(jobs[j := AfterFailure(jobs[j], now, retryAfter)])
       <==> retryAfter.None? || IsActive(jobs[j]) || !HasActive(jobs, jobs[j].document)
  {
    var jobs' := jobs[j := AfterFailure(jobs[j], now, retryAfter)];
    if retryAfter.Some? && !IsActive(jobs[j]) && HasActive(jobs, jobs[j].document) {
      var i :| i in jobs && jobs[i].document == jobs[j].document && IsActive(jobs[i]);
      assert IsActive(jobs'[i]) && IsActive(jobs'[j]);
    }
    if retryAfter.Some? && !IsActive(jobs[j]) && !HasActive(jobs, jobs[j].document) {
      assert forall i :: i in jobs && jobs[i].document == jobs[j].document ==> !IsActive(jobs[i]);
    }
  }

  lemma OthersKeepOneActive(config: Config, st: State, step: Step)
    requires OneActive(st.jobs) && !step.Fail?
    ensures OneActive(Do(config, st, step).jobs)
  {
  }

  lemma OneActiveExactly(config: Config, st: State, step: Step)
    requires OneActive(st.jobs)
    ensures OneActive(Do(config, st, step).jobs) <==> !Doubles(config, st, step)
  {
    if step.Fail? && Holds(st, step.worker) {
      var hold := st.held[step.worker];
      FailureKeepsOneActive(st.jobs, hold.job, st.now, RetryAfter(config, step.reason, hold.attempt));
    } else if !step.Fail? {
      OthersKeepOneActive(config, st, step);
    }
  }

  /** No job was claimed more often than it may be tried. */
  ghost predicate AllWithin(config: Config, claims: multiset<Id>) {
    forall j :: claims[j] <= config.maxAttempts
  }

  lemma OneMoreClaim(config: Config, claims: multiset<Id>, j: Id)
    requires AllWithin(config, claims)
    ensures AllWithin(config, claims[j := claims[j] + 1]) <==> claims[j] < config.maxAttempts
  {
    var after := claims[j := claims[j] + 1];
    assert after[j] == claims[j] + 1;
    assert forall i :: i != j ==> after[i] == claims[i];
  }

  lemma OnlyClaimsCount(config: Config, st: State, step: Step)
    requires !step.Claim?
    ensures Do(config, st, step).claims == st.claims
  {
  }

  /** One step leaves every job within its attempts exactly if it does not claim one that has used them up. */
  lemma WithinAttemptsExactly(config: Config, st: State, step: Step)
    requires Counted(st) && AllWithin(config, st.claims)
    ensures AllWithin(config, Do(config, st, step).claims) <==> !Overclaims(config, st, step)
  {
    if step.Claim? { OneMoreClaim(config, st.claims, step.job); } else { OnlyClaimsCount(config, st, step); }
  }

  /** A step from a state that keeps a promise keeps it exactly if it is none of those that break it. */
  lemma StepKeepsExactly(config: Config, st: State, step: Step, promise: Promise)
    requires EndedUnleased(st) && Counted(st) && Kept(config, promise, st, st)
    ensures Kept(config, promise, st, Do(config, st, step)) <==> !Breaks(config, st, step, promise)
  {
    match promise
    case EndedStay => EndedStayExactly(config, st, step);
    case OneHolderEach => OneHolderExactly(config, st, step);
    case OneActiveEach => OneActiveExactly(config, st, step);
    case WithinAttempts => WithinAttemptsExactly(config, st, step);
  }

  // ---------------------------------------------------------------------------
  // ... in whole runs
  // ---------------------------------------------------------------------------

  /** The promise holds from the first state of the run to each later one. */
  ghost predicate KeptThroughout(config: Config, st: State, steps: seq<Step>, promise: Promise)
    decreases |steps|
  {
    && (forall n :: 0 <= n <= |steps| ==> Kept(config, promise, st, Exec(config, st, steps[..n])))
    && (steps != [] ==> KeptThroughout(config, Do(config, st, steps[0]), steps[1..], promise))
  }

  ghost predicate NeverBreaks(config: Config, st: State, steps: seq<Step>, promise: Promise)
    decreases |steps|
  {
    || steps == []
    || (!Breaks(config, st, steps[0], promise)
        && NeverBreaks(config, Do(config, st, steps[0]), steps[1..], promise))
  }

  lemma KeptOn(config: Config, promise: Promise, a: State, b: State, c: State)
    requires Kept(config, promise, a, b) && Kept(config, promise, b, c)
    ensures Kept(config, promise, a, c)
  {
  }

  /** Where a promise holds it goes on holding if nothing happens. */
  lemma KeptAtEnd(config: Config, promise: Promise, st: State, t: State)
    requires Kept(config, promise, st, t)
    ensures Kept(config, promise, t, t)
  {
  }

  datatype Aspect = UnleasedAspect | CountedAspect

  ghost predicate AspectOk(st: State, aspect: Aspect) {
    match aspect
    case UnleasedAspect => EndedUnleased(st)
    case CountedAspect => Counted(st)
  }

  /** What the table keeps in any run. */
  ghost predicate Sound(st: State) {
    forall aspect :: AspectOk(st, aspect)
  }

  lemma SoundMeans(st: State)
    requires Sound(st)
    ensures EndedUnleased(st) && Counted(st)
  {
    assert AspectOk(st, UnleasedAspect) && AspectOk(st, CountedAspect);
  }

  lemma StepKeepsSound(config: Config, st: State, step: Step)
    requires Sound(st)
    ensures Sound(Do(config, st, step))
  {
    SoundMeans(st);
    StepKeepsUnleased(config, st, step);
    StepKeepsCounted(config, st, step);
  }

  lemma SoundStepKeepsExactly(config: Config, st: State, step: Step, promise: Promise)
    requires Sound(st) && Kept(config, promise, st, st)
    ensures Kept(config, promise, st, Do(config, st, step)) <==> !Breaks(config, st, step, promise)
  {
    SoundMeans(st);
    StepKeepsExactly(config, st, step, promise);
  }

  /** What is kept from the next state on is kept from this one on. */
  lemma PrefixesKept(config: Config, st: State, next: State, steps: seq<Step>, promise: Promise)
    requires steps != [] && next == Do(config, st, steps[0])
    requires Kept(config, promise, st, st) && Kept(config, promise, st, next)
    requires forall n :: 0 <= n <= |steps[1..]| ==> Kept(config, promise, next, Exec(config, next, steps[1..][..n]))
    ensures forall n :: 0 <= n <= |steps| ==> Kept(config, promise, st, Exec(config, st, steps[..n]))
  {
    forall n | 0 <= n <= |steps| ensures Kept(config, promise, st, Exec(config, st, steps[..n])) {
      if n > 0 {
        assert steps[..n][1..] == steps[1..][..n - 1];
        KeptOn(config, promise, st, next, Exec(config, next, steps[1..][..n - 1]));
      }
    }
  }

  lemma {:induction false} NeverBreaksKeeps(config: Config, st: State, steps: seq<Step>, promise: Promise)
    requires Sound(st) && Kept(config, promise, st, st) && NeverBreaks(config, st, steps, promise)
    ensures KeptThroughout(config, st, steps, promise)
    decreases |steps|
  {
    if steps != [] {
      var next := Do(config, st, steps[0]);
      SoundStepKeepsExactly(config, st, steps[0], promise);
      StepKeepsSound(config, st, steps[0]);
      KeptAtEnd(config, promise, st, next);
      NeverBreaksKeeps(config, next, steps[1..], promise);
      PrefixesKept(config, st, next, steps, promise);
    } else {
      assert Exec(config, st, steps[..0]) == st;
    }
  }

  lemma {:induction false} KeptNeverBreaks(config: Config, st: State, steps: seq<Step>, promise: Promise)
    requires Sound(st) && KeptThroughout(config, st, steps, promise)
    ensures NeverBreaks(config, st, steps, promise)
    decreases |steps|
  {
    if steps != [] {
      assert Exec(config, st, steps[..0]) == st;
      assert steps[..1][1..] == [] && Exec(config, st, steps[..1]) == Do(config, st, steps[0]);
      SoundStepKeepsExactly(config, st, steps[0], promise);
      StepKeepsSound(config, st, steps[0]);
      KeptNeverBreaks(config, Do(config, st, steps[0]), steps[1..], promise);
    }
  }

  /**
   In a run of the queue ended jobs stay as they are, each job has at most one holder, each document has
   at most one active job, and each job is claimed at most `maxAttempts` times, at all times, each exactly
   if no step of the run is one of those that break it.
   */
  lemma PromisesExactly(config: Config, now: int, steps: seq<Step>, promise: Promise)
    ensures KeptThroughout(config, Init(now), steps, promise) <==> NeverBreaks(config, Init(now), steps, promise)
  {
    if NeverBreaks(config, Init(now), steps, promise) { NeverBreaksKeeps(config, Init(now), steps, promise); }
    if KeptThroughout(config, Init(now), steps, promise) { KeptNeverBreaks(config, Init(now), steps, promise); }
  }

  // ---------------------------------------------------------------------------
  // The guard that a worker can check
  // ---------------------------------------------------------------------------

  /**
   The row is in progress with the worker's own attempt. It takes no clock and no knowledge of others: a
   `WHERE status = 'IN_PROGRESS' AND attempt = ...` on the updates of a worker would make every step so.
   */
  predicate IsFenced(st: State, step: Step) {
    (step.Stage? || step.Complete? || step.Fail?) && Holds(st, step.worker) ==>
      var job := st.jobs[st.held[step.worker].job];
      job.status == InProgress && job.attempt == st.held[step.worker].attempt
  }

  ghost predicate Fenced(config: Config, st: State, steps: seq<Step>)
    decreases |steps|
  {
    steps == [] || (IsFenced(st, steps[0]) && Fenced(config, Do(config, st, steps[0]), steps[1..]))
  }

  /** With its own attempt on the row, no other worker has an unexpired lease on the job. */
  lemma FencedIsAlone(st: State, w: Id)
    requires Counted(st) && LeasesOk(st) && Holds(st, w) && st.jobs[st.held[w].job].attempt == st.held[w].attempt
    ensures forall v :: Unexpired(st, v) && v != w ==> st.held[v].job != st.held[w].job
  {
  }

  lemma FencedStageKeepsLeases(config: Config, st: State, w: Id)
    requires Counted(st) && LeasesOk(st) && IsFenced(st, Stage(w)) && Holds(st, w)
    ensures LeasesOk(Do(config, st, Stage(w)))
  {
    FencedIsAlone(st, w);
    ReportKeepsLeases(st, Do(config, st, Stage(w)), w);
  }

  lemma FencedOutcomeKeepsLeases(config: Config, st: State, step: Step)
    requires Counted(st) && LeasesOk(st) && (step.Complete? || step.Fail?)
    requires IsFenced(st, step) && Holds(st, step.worker)
    ensures LeasesOk(Do(config, st, step))
  {
    FencedIsAlone(st, step.worker);
    ReportKeepsLeases(st, Do(config, st, step), step.worker);
  }

  lemma FencedReportKeepsLeases(config: Config, st: State, step: Step)
    requires Counted(st) && LeasesOk(st) && IsFenced(st, step) && (step.Stage? || step.Complete? || step.Fail?)
    ensures LeasesOk(Do(config, st, step))
  {
    if Holds(st, step.worker) {
      if step.Stage? {
        FencedStageKeepsLeases(config, st, step.worker);
      } else {
        FencedOutcomeKeepsLeases(config, st, step);
      }
    } else {
      assert Do(config, st, step) == st;
    }
  }

  lemma FencedKeepsLeases(config: Config, st: State, step: Step)
    requires Counted(st) && LeasesOk(st) && IsFenced(st, step)
    ensures LeasesOk(Do(config, st, step))
  {
    match step
    case Enqueue(document, id) => EnqueueKeepsLeases(config, st, document, id);
    case Claim(w, j) => ClaimKeepsLeases(config, st, w, j);
    case Crash(_) => LapseKeepsLeases(config, st, step);
    case Tick(_) => LapseKeepsLeases(config, st, step);
    case _ => FencedReportKeepsLeases(config, st, step);
  }

  /**
   Of the reports on a job in progress, progress keeps what leases say of the table exactly if it is
   fenced: the attempt is the guard that is missing.
   */
  lemma ProgressKeepsLeasesExactly(config: Config, st: State, w: Id)
    requires Counted(st) && LeasesOk(st) && Holds(st, w) && st.jobs[st.held[w].job].status == InProgress
    ensures LeasesOk(Do(config, st, Stage(w))) <==> IsFenced(st, Stage(w))
  {
    if IsFenced(st, Stage(w)) {
      FencedReportKeepsLeases(config, st, Stage(w));
    } else {
      assert Unexpired(Do(config, st, Stage(w)), w);
    }
  }

  lemma FencedDoesNotShare(config: Config, st: State, step: Step)
    requires Counted(st) && LeasesOk(st) && IsFenced(st, step)
    ensures !Shares(config, st, step)
  {
    if step.Stage? && Holds(st, step.worker) { FencedStageIsAlone(st, step.worker); }
  }

  lemma FencedStageIsAlone(st: State, w: Id)
    requires Counted(st) && LeasesOk(st) && Holds(st, w) && IsFenced(st, Stage(w))
    ensures !OtherHolds(st, w, st.held[w].job)
  {
    FencedIsAlone(st, w);
  }

  /** No fenced step breaks any promise but the one about the number of attempts. */
  lemma FencedBreaksNothing(config: Config, st: State, step: Step, promise: Promise)
    requires Counted(st) && LeasesOk(st) && IsFenced(st, step) && promise != WithinAttempts
    ensures !Breaks(config, st, step, promise)
  {
    match promise
    case OneHolderEach => FencedDoesNotShare(config, st, step);
    case _ =>
  }

  lemma {:induction false} FencedNeverBreaks(config: Config, st: State, steps: seq<Step>, promise: Promise)
    requires Counted(st) && LeasesOk(st) && Fenced(config, st, steps) && promise != WithinAttempts
    ensures NeverBreaks(config, st, steps, promise)
    decreases |steps|
  {
    if steps != [] {
      FencedBreaksNothing(config, st, steps[0], promise);
      StepKeepsCounted(config, st, steps[0]);
      FencedKeepsLeases(config, st, steps[0]);
      FencedNeverBreaks(config, Do(config, st, steps[0]), steps[1..], promise);
    }
  }

  /**
   If every report of a worker is fenced, whatever the clock does and whichever leases have run out:
   ended jobs stay as they are, each job has at most one holder and each document one active job.
   */
  lemma FencedKeepsPromises(config: Config, now: int, steps: seq<Step>, promise: Promise)
    requires Fenced(config, Init(now), steps) && promise != WithinAttempts
    ensures KeptThroughout(config, Init(now), steps, promise)
  {
    FencedNeverBreaks(config, Init(now), steps, promise);
    PromisesExactly(config, now, steps, promise);
  }

  /** Within its own lease a worker is fenced, so the discipline is a special case. */
  lemma InTimeIsFenced(st: State, step: Step)
    requires Counted(st) && LeasesOk(st) && InTime(st, step)
    ensures IsFenced(st, step)
  {
  }

  lemma {:induction false} DisciplinedIsFenced(config: Config, st: State, steps: seq<Step>)
    requires Inv(st) && Disciplined(config, st, steps)
    ensures Fenced(config, st, steps)
    decreases |steps|
  {
    if steps != [] {
      InTimeIsFenced(st, steps[0]);
      StepKeepsInv(config, st, steps[0]);
      DisciplinedIsFenced(config, Do(config, st, steps[0]), steps[1..]);
    }
  }

  // ---------------------------------------------------------------------------
  // When a job can be claimed
  // ---------------------------------------------------------------------------

  /** The job waits, or its lease is over. */
  predicate IsDue(job: Job, now: int) {
    match job.status
    case InProgress => job.leasedUntil.Some? && job.leasedUntil.value <= now
    case Succeeded => false
    case Failed => false
    case _ => job.leasedUntil.None? || job.leasedUntil.value <= now
  }

  /** A claim takes a job exactly if it is due and the worker has none; it then counts one more attempt. */
  lemma ClaimTakesExactly(config: Config, st: State, w: Id, j: Id)
    ensures var t := Do(config, st, Claim(w, j));
            && (t != st <==> w !in st.held && j in st.jobs && IsDue(st.jobs[j], st.now))
            && (t != st ==>
                  && w in t.held && t.held[w] == Hold(j, t.jobs[j].attempt, st.now + config.leaseSeconds)
                  && t.jobs[j].status == InProgress && t.jobs[j].attempt == st.jobs[j].attempt + 1
                  && t.claims[j] == st.claims[j] + 1 && t.jobs == st.jobs[j := t.jobs[j]])
  {
    var t := Do(config, st, Claim(w, j));
    if w !in st.held && j in st.jobs && IsDue(st.jobs[j], st.now) { assert w in t.held; }
  }

  /** A job that is enqueued is new, due at once, and the only active one of its document. */
  lemma EnqueuedIsDue(config: Config, st: State, document: Id, id: Id, j: Id)
    requires id !in st.jobs && !HasActive(st.jobs, document)
    ensures var t := Do(config, st, Enqueue(document, id));
            && id in t.jobs && t.jobs[id].document == document && t.jobs[id].attempt == 0 && IsDue(t.jobs[id], st.now)
            && t.jobs == st.jobs[id := t.jobs[id]]
            && (j in t.jobs && t.jobs[j].document == document && IsActive(t.jobs[j]) ==> j == id)
  {
  }

  /** From a claim on, and from each report of progress on, the job is due again exactly when the lease is over. */
  lemma LeasesLast(config: Config, st: State, w: Id, j: Id, now: int)
    ensures w !in st.held && j in st.jobs && IsDue(st.jobs[j], st.now) ==>
              (IsDue(Do(config, st, Claim(w, j)).jobs[j], now) <==> now >= st.now + config.leaseSeconds)
    ensures Holds(st, w) && st.held[w].job == j && st.jobs[j].status == InProgress ==>
              (IsDue(Do(config, st, Stage(w)).jobs[j], now) <==> now >= st.now + 120)
  {
  }

  /**
   A failure leaves the job to be retried exactly if the worker was stopped, or an error leaves attempts;
   it is then due at once, or in `retrySeconds`. Otherwise the job has failed for good, and is never due.
   */
  lemma FailureLeaves(config: Config, st: State, w: Id, reason: Reason, now: int)
    requires Holds(st, w)
    ensures var t, j, attempt := Do(config, st, Fail(w, reason)), st.held[w].job, st.held[w].attempt;
            var retried := reason == Stopped || (reason == Error && attempt < config.maxAttempts);
            && j in t.jobs && t.jobs[j].status == (if retried then Retrying else Failed)
            && (IsDue(t.jobs[j], now) <==>
                  retried && now >= st.now + if reason == Stopped then 0 else config.retrySeconds)
            && t.jobs[j].attempt == st.jobs[j].attempt && w !in t.held
  {
  }

  lemma WaitingStep(config: Config, st: State, step: Step, j: Id, until: int)
    requires j in st.jobs && st.jobs[j].status == Retrying && st.jobs[j].leasedUntil == Some(until) && st.now < until
    requires IsFenced(st, step)
    ensures j in Do(config, st, step).jobs && Do(config, st, step).jobs[j] == st.jobs[j]
  {
  }

  lemma {:induction false} TimePasses(config: Config, st: State, steps: seq<Step>)
    ensures st.now <= Exec(config, st, steps).now
    decreases |steps|
  {
    if steps != [] { TimePasses(config, Do(config, st, steps[0]), steps[1..]); }
  }

  /**
   A job that is to be retried at a certain time stays as it is until then, whatever fenced workers do, and can
   be claimed from then on.
   */
  lemma {:induction false} RetryWaits(config: Config, st: State, steps: seq<Step>, j: Id, until: int, w: Id)
    requires j in st.jobs && st.jobs[j].status == Retrying && st.jobs[j].leasedUntil == Some(until)
    requires Fenced(config, st, steps) && (steps != [] ==> Exec(config, st, steps[..|steps| - 1]).now < until)
    ensures var t := Exec(config, st, steps);
            && j in t.jobs && t.jobs[j] == st.jobs[j]
            && (w !in t.held && t.now >= until ==> Do(config, t, Claim(w, j)).claims[j] == t.claims[j] + 1)
    decreases |steps|
  {
    if steps != [] {
      var front := steps[..|steps| - 1];
      TimePasses(config, st, front);
      WaitingStep(config, st, steps[0], j, until);
      if |steps| > 1 { assert front[0] == steps[0] && front[1..] == steps[1..][..|steps[1..]| - 1]; }
      RetryWaits(config, Do(config, st, steps[0]), steps[1..], j, until, w);
    }
  }

  // ---------------------------------------------------------------------------
  // Bounded retries
  // ---------------------------------------------------------------------------

  /** No worker crashes or is stopped, and no lease runs out before the outcome of the attempt is recorded. */
  predicate IsSmooth(config: Config, st: State, step: Step) {
    && !step.Crash?
    && !(step.Fail? && step.reason == Stopped)
    && forall w :: w in Do(config, st, step).held ==> Unexpired(Do(config, st, step), w)
  }

  ghost predicate Smooth(config: Config, st: State, steps: seq<Step>)
    decreases |steps|
  {
    steps == [] || (IsSmooth(config, st, steps[0]) && Smooth(config, Do(config, st, steps[0]), steps[1..]))
  }

  ghost predicate IsHeld(st: State, j: Id) {
    exists w :: w in st.held && st.held[w].job == j
  }

  ghost predicate Bounded(config: Config, st: State) {
    && (forall w :: w in st.held ==> Unexpired(st, w))
    && (forall j :: j in st.jobs && st.jobs[j].status == InProgress ==> IsHeld(st, j))
    && (forall j :: j in st.jobs ==> WithinLimit(config, st.jobs[j]))
  }

  /** The attempts that are used up, as far as the state of the job allows. */
  predicate WithinLimit(config: Config, job: Job) {
    if job.status == Queued || job.status == Retrying then job.attempt < config.maxAttempts
    else job.attempt <= config.maxAttempts
  }

  datatype Part = CountedPart | LeasesPart | BoundedPart

  ghost predicate PartOk(config: Config, st: State, part: Part) {
    match part
    case CountedPart => Counted(st)
    case LeasesPart => LeasesOk(st)
    case BoundedPart => Bounded(config, st)
  }

  ghost predicate Orderly(config: Config, st: State) {
    forall part :: PartOk(config, st, part)
  }

  lemma OrderlyMeans(config: Config, st: State)
    requires Orderly(config, st)
    ensures Counted(st) && LeasesOk(st) && Bounded(config, st)
  {
    assert PartOk(config, st, CountedPart) && PartOk(config, st, LeasesPart) && PartOk(config, st, BoundedPart);
  }

  lemma MeansOrderly(config: Config, st: State)
    requires Counted(st) && LeasesOk(st) && Bounded(config, st)
    ensures Orderly(config, st)
  {
  }

  lemma ClaimKeepsWithin(config: Config, st: State, w: Id, i: Id, j: Id)
    requires Orderly(config, st) && j in st.jobs
    ensures WithinLimit(config, Do(config, st, Claim(w, i)).jobs[j])
  {
    OrderlyMeans(config, st);
    if i == j && st.jobs[i].status == InProgress { assert IsHeld(st, i); }
  }

  lemma FailKeepsWithin(config: Config, st: State, w: Id, reason: Reason, j: Id)
    requires Orderly(config, st) && j in st.jobs && reason != Stopped
    ensures WithinLimit(config, Do(config, st, Fail(w, reason)).jobs[j])
  {
    OrderlyMeans(config, st);
  }

  lemma EnqueueKeepsWithin(config: Config, st: State, document: Id, id: Id, j: Id)
    requires config.maxAttempts >= 1 && j in Do(config, st, Enqueue(document, id)).jobs
    requires j in st.jobs ==> WithinLimit(config, st.jobs[j])
    ensures WithinLimit(config, Do(config, st, Enqueue(document, id)).jobs[j])
  {
  }

  lemma ReportKeepsWithin(config: Config, st: State, step: Step, j: Id)
    requires Orderly(config, st) && (step.Stage? || step.Complete? || step.Crash? || step.Tick?) && j in st.jobs
    ensures j in Do(config, st, step).jobs && WithinLimit(config, Do(config, st, step).jobs[j])
  {
    OrderlyMeans(config, st);
  }

  lemma StepKeepsWithin(config: Config, st: State, step: Step, t: State, j: Id)
    requires config.maxAttempts >= 1 && Orderly(config, st) && !(step.Fail? && step.reason == Stopped)
    requires t == Do(config, st, step) && j in t.jobs
    ensures WithinLimit(config, t.jobs[j])
  {
    match step
    case Enqueue(document, id) =>
      OrderlyMeans(config, st);
      EnqueueKeepsWithin(config, st, document, id, j);
    case Claim(w, i) => ClaimKeepsWithin(config, st, w, i, j);
    case Fail(w, reason) => FailKeepsWithin(config, st, w, reason, j);
    case _ => ReportKeepsWithin(config, st, step, j);
  }

  lemma StepKeepsHeld(config: Config, st: State, step: Step, st': State, j: Id)
    requires !step.Crash? && st' == Do(config, st, step)
    requires j in st.jobs && st.jobs[j].status == InProgress ==> IsHeld(st, j)
    requires j in st'.jobs && st'.jobs[j].status == InProgress
    ensures IsHeld(st', j)
  {
    if step.Claim? && step.job == j && st' != st {
      assert st'.held[step.worker].job == j;
    } else {
      var w :| w in st.held && st.held[w].job == j;
      assert w in st'.held && st'.held[w].job == j;
    }
  }

  lemma StepKeepsBounded(config: Config, st: State, step: Step)
    requires config.maxAttempts >= 1 && Inv(st) && Bounded(config, st) && IsSmooth(config, st, step)
    ensures Bounded(config, Do(config, st, step))
  {
    MeansOrderly(config, st);
    forall j | j in Do(config, st, step).jobs ensures WithinLimit(config, Do(config, st, step).jobs[j]) {
      StepKeepsWithin(config, st, step, Do(config, st, step), j);
    }
    forall j | j in Do(config, st, step).jobs && Do(config, st, step).jobs[j].status == InProgress
      ensures IsHeld(Do(config, st, step), j)
    {
      StepKeepsHeld(config, st, step, Do(config, st, step), j);
    }
  }

  /** A step of a worker that holds nothing changes nothing, and all holds are unexpired: the run is disciplined. */
  lemma SmoothStepIsInTime(config: Config, st: State, step: Step)
    requires Counted(st) && Bounded(config, st) && IsSmooth(config, st, step)
    ensures InTime(st, step) || Do(config, st, step) == st
  {
  }

  lemma {:induction false} RunKeepsBounded(config: Config, st: State, steps: seq<Step>)
    requires config.maxAttempts >= 1 && Inv(st) && Bounded(config, st) && Smooth(config, st, steps)
    ensures Inv(Exec(config, st, steps)) && Bounded(config, Exec(config, st, steps))
    decreases |steps|
  {
    if steps != [] {
      SmoothStepIsInTime(config, st, steps[0]);
      if InTime(st, steps[0]) { StepKeepsInv(config, st, steps[0]); }
      StepKeepsBounded(config, st, steps[0]);
      RunKeepsBounded(config, Do(config, st, steps[0]), steps[1..]);
    }
  }

  /**
   As long as every outcome is recorded within its lease and no worker is lost, a job is claimed at
   most `maxAttempts` times, and after the last of them it is in progress or has ended for good.
   */
  lemma RetriesAreBounded(config: Config, now: int, steps: seq<Step>, st: State, j: Id)
    requires config.maxAttempts >= 1 && Smooth(config, Init(now), steps) && st == Exec(config, Init(now), steps)
    ensures st.claims[j] <= config.maxAttempts
    ensures st.claims[j] == config.maxAttempts && !IsHeld(st, j) ==>
              j in st.jobs && (st.jobs[j].status == Succeeded || st.jobs[j].status == Failed)
  {
    RunKeepsBounded(config, Init(now), steps);
    assert j in st.jobs ==> WithinLimit(config, st.jobs[j]);
  }

  /** What is left of the attempts falls with every claim and never rises. */
  function Left(config: Config, job: Job): int {
    config.maxAttempts - job.attempt
  }

  lemma ClaimsUseUpAttempts(config: Config, st: State, step: Step, j: Id)
    requires j in st.jobs
    ensures var st' := Do(config, st, step);
            && j in st'.jobs
            && Left(config, st'.jobs[j]) == Left(config, st.jobs[j]) - (st'.claims[j] - st.claims[j])
  {
  }

  // ---------------------------------------------------------------------------
  // No bound without that
  // ---------------------------------------------------------------------------

  function LossyRun(config: Config, n: nat): seq<Step> {
    if n == 0 then [Enqueue("d", "j")]
    else LossyRun(config, n - 1) + [Claim("w", "j"), Crash("w"), Tick(config.leaseSeconds)]
  }

  lemma {:induction false} ExecOn(config: Config, st: State, steps: seq<Step>, more: seq<Step>)
    ensures Exec(config, st, steps + more) == Exec(config, Exec(config, st, steps), more)
    decreases |steps|
  {
    if steps == [] {
      assert steps + more == more;
    } else {
      assert (steps + more)[1..] == steps[1..] + more;
      ExecOn(config, Do(config, st, steps[0]), steps[1..], more);
    }
  }

  /** Workers that crash after each claim can claim one job any number of times, whatever `maxAttempts` is. */
  lemma {:induction false} CrashesAreNotBounded(config: Config, n: nat)
    ensures var st := Exec(config, Init(0), LossyRun(config, n));
            && st.claims["j"] == n && "j" in st.jobs && IsClaimable(st.jobs["j"], st.now) && st.held == map[]
  {
    if n == 0 {
      ExecFirst(config, Init(0), Enqueue("d", "j"), []);
      assert LossyRun(config, 0) == [Enqueue("d", "j")] + [];
    } else {
      CrashesAreNotBounded(config, n - 1);
      var st := Exec(config, Init(0), LossyRun(config, n - 1));
      ExecOn(config, Init(0), LossyRun(config, n - 1), [Claim("w", "j"), Crash("w"), Tick(config.leaseSeconds)]);
      ExecThree(config, st, Claim("w", "j"), Crash("w"), Tick(config.leaseSeconds));
      assert Do(config, Do(config, st, Claim("w", "j")), Crash("w")).held == map[];
    }
  }

  // ---------------------------------------------------------------------------
  // The repository
  // ---------------------------------------------------------------------------

  function EnqueueSteps(documents: seq<Id>, ids: seq<Id>): seq<Step>
    requires |documents| == |ids|
  {
    seq(|ids|, i requires 0 <= i < |ids| => Enqueue(documents[i], ids[i]))
  }

  lemma ExecLast(config: Config, st: State, steps: seq<Step>, step: Step)
    ensures Exec(config, st, steps + [step]) == Do(config, Exec(config, st, steps), step)
  {
    ExecOn(config, st, steps, [step]);
    ExecFirst(config, Exec(config, st, steps), step, []);
    assert [step] + [] == [step];
  }

  /** The table and the clock. What the workers hold and which claims there were is kept for the proofs only. */
  class JobTable {
    const config: Config
    var now: int
    var jobs: map<Id, Job>
    ghost var held: map<Id, Hold>
    ghost var claims: multiset<Id>

    constructor (config: Config, now: int)
      ensures St() == Init(now) && this.config == config
    {
      this.config, this.now, jobs, held, claims := config, now, map[], map[], multiset{};
    }

    ghost function St(): State
      reads this
    {
      State(now, jobs, held, claims)
    }

    method Pass(seconds: nat)
      modifies this`now
      ensures St() == Do(config, old(St()), Tick(seconds))
    {
      now := now + seconds;
    }

    method EnqueueJob(document: Id, id: Id) returns (created: bool)
      requires id !in jobs
      modifies this`jobs
      ensures St() == Do(config, old(St()), Enqueue(document, id))
      ensures created <==> !HasActive(old(jobs), document)
    {
      if HasActive(jobs, document) {
        return false;
      }
      jobs := jobs[id := Job(document, Queued, 0, None)];
      return true;
    }

    /** The loop of `enqueue_reindex_jobs` over the documents that are eligible. */
    method EnqueueJobs(documents: seq<Id>, ids: seq<Id>) returns (queued: nat, already: nat)
      requires |documents| == |ids|
      requires forall i :: 0 <= i < |ids| ==> ids[i] !in jobs
      requires forall i, j :: 0 <= i < j < |ids| ==> ids[i] != ids[j]
      modifies this`jobs
      ensures St() == Exec(config, old(St()), EnqueueSteps(documents, ids))
      ensures queued + already == |documents| && |jobs| == |old(jobs)| + queued
      ensures forall i :: 0 <= i < |documents| ==> HasActive(jobs, documents[i])
    {
      queued, already := 0, 0;
      assert EnqueueSteps(documents, ids)[..0] == [];
      for i := 0 to |documents|
        invariant St() == Exec(config, old(St()), EnqueueSteps(documents, ids)[..i])
        invariant queued + already == i && |jobs| == |old(jobs)| + queued
        invariant forall k :: i <= k < |ids| ==> ids[k] !in jobs
        invariant forall k :: 0 <= k < i ==> HasActive(jobs, documents[k])
      {
        ghost var before := jobs;
        var created := EnqueueJob(documents[i], ids[i]);
        StaysActive(before, documents[i], ids[i]);
        if created {
          queued := queued + 1;
        } else {
          already := already + 1;
        }
        assert EnqueueSteps(documents, ids)[..i + 1]
               == EnqueueSteps(documents, ids)[..i] + [Enqueue(documents[i], ids[i])];
        ExecLast(config, old(St()), EnqueueSteps(documents, ids)[..i], Enqueue(documents[i], ids[i]));
      }
      assert EnqueueSteps(documents, ids)[..|documents|] == EnqueueSteps(documents, ids);
    }

    /** Any claimable job may be the one: those that other transactions have locked are skipped. */
    method ClaimJob(ghost worker: Id) returns (claimed: Option<(Id, Job)>)
      requires worker !in held
      modifies this`jobs, this`held, this`claims
      ensures claimed.None? ==> St() == old(St()) && forall j :: j in jobs ==> !IsClaimable(jobs[j], now)
      ensures claimed.Some? ==>
                var (j, job) := claimed.value;
                && j in old(jobs) && IsClaimable(old(jobs)[j], now)
                && St() == Do(config, old(St()), Claim(worker, j))
                && j in jobs && jobs[j] == job
    {
      if forall j :: j in jobs ==> !IsClaimable(jobs[j], now) {
        return None;
      }
      var j :| j in jobs && IsClaimable(jobs[j], now);
      var job := Claimed(jobs[j], now, config.leaseSeconds);
      held := held[worker := Hold(j, job.attempt, now + config.leaseSeconds)];
      claims := claims[j := claims[j] + 1];
      jobs := jobs[j := job];
      return Some((j, job));
    }

    method UpdateStage(ghost worker: Id, j: Id)
      requires worker in held && held[worker].job == j && j in jobs
      modifies this`jobs, this`held
      ensures St() == Do(config, old(St()), Stage(worker))
    {
      if jobs[j].status == InProgress {
        held := held[worker := held[worker].(until := now + 120)];
        jobs := jobs[j := jobs[j].(leasedUntil := Some(now + 120))];
      }
      assert jobs == old(St()).jobs[j := Staged(old(jobs)[j], now)];
      assert held == Do(config, old(St()), Stage(worker)).held;
    }

    method CompleteJob(ghost worker: Id, j: Id)
      requires worker in held && held[worker].job == j && j in jobs
      modifies this`jobs, this`held
      ensures St() == Do(config, old(St()), Complete(worker))
    {
      jobs := jobs[j := Completed(jobs[j])];
      held := held - {worker};
    }

    method FailJob(ghost worker: Id, j: Id, reason: Reason, attempt: nat)
      requires worker in held && held[worker].job == j && held[worker].attempt == attempt && j in jobs
      modifies this`jobs, this`held
      ensures St() == Do(config, old(St()), Fail(worker, reason))
    {
      var retryAfter := RetryAfter(config, reason, attempt);
      if retryAfter.Some? {
        jobs := jobs[j := jobs[j].(status := Retrying, leasedUntil := Some(now + retryAfter.value))];
      } else {
        jobs := jobs[j := jobs[j].(status := Failed, leasedUntil := None)];
      }
      held := held - {worker};
    }
  }

  lemma StaysActive(jobs: map<Id, Job>, document: Id, id: Id)
    requires id !in jobs
    ensures HasActive(Enqueued(jobs, document, id), document)
    ensures forall d :: HasActive(jobs, d) ==> HasActive(Enqueued(jobs, document, id), d)
  {
    var jobs' := Enqueued(jobs, document, id);
    if !HasActive(jobs, document) { assert IsActive(jobs'[id]); }
    forall d | HasActive(jobs, d) ensures HasActive(jobs', d) {
      var j :| j in jobs && jobs[j].document == d && IsActive(jobs[j]);
      assert IsActive(jobs'[j]);
    }
  }
}
