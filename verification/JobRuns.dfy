/**
 The life of one job: its `jobs` row, the rows other tables hold under its id, and the calls that
 are in flight on it (cloudflare/worker/src/job-ledger.ts, workflow.ts, index.ts).

 Every awaited D1 statement or batch is one atomic step.  A call between two awaits is an element
 of one of the "in flight" sets below: it remembers only what the call carries over the await.
 Elements of a set are never consumed, so a call may stop anywhere, be repeated, or be overtaken;
 the exception is `pending`, the one continuation that must run at most once.
 */
module JobRuns {
  import opened Common

  /** An account's profile in the official trust domain; identifiers are only ever compared. */
  type ProfileId = nat
  type EventId = nat
  type Digest = nat
  type MessageId = nat

  datatype Status = Queued | Running | Succeeded | Failed | Cancelled

  datatype OutcomeStatus = RunSucceeded | RunFailed | RunCancelled

  /** One row of `revision_outcomes`; the manifest digest is present on success only. */
  datatype Outcome = Outcome(status: OutcomeStatus, manifest: Option<Digest>)

  /** What `sameRequest` compares besides the profile, the event and the digest. */
  datatype RequestBody = RequestBody(jobKind: nat, contractVersion: nat)

  /** The columns of a `jobs` row that no statement ever updates. */
  datatype Identity = Identity(profile: ProfileId, event: EventId, digest: Digest, body: RequestBody, revision: nat)

  datatype JobRow = JobRow(id: Identity, status: Status, run: nat, cancelRequested: bool)

  datatype Delivery = Claimed | Acked | Retry

  datatype JobFile = JobFile(
    row: JobRow,
    outcomes: map<nat, Outcome>,              // revision_outcomes, UNIQUE(revision_id, workflow_run)
    requeues: set<nat>,                       // job_requeues, UNIQUE(job_id, workflow_run)
    deliveries: map<MessageId, Delivery>,     // job_deliveries, UNIQUE(job_id, message_id)
    // The queue and the workflow engine.
    messages: set<nat>,                       // runs named by envelopes that were ever sent
    instances: set<nat>,                      // workflow instances job:<id>:run:<n> ever created
    // Calls in flight, by what they carry over an await.
    sawNoDelivery: set<(MessageId, nat)>,     // claimDelivery read no delivery row
    sawRetryDelivery: set<(MessageId, nat)>,  // claimDelivery read a row marked retry
    claims: set<nat>,                         // claimDelivery holds its delivery row
    claimsPastRead: set<nat>,                 // ... and read a job row that was not terminal
    started: set<nat>,                        // ... and ran its UPDATE; startWorkflow comes next
    passed: set<nat>,                         // workflow runs past their stale-run and status checks
    cancelSawRunning: bool,                   // some cancel call read a running row
    cancelsSeen: set<nat>,                    // cancel read a queued row at this run
    cancelsMarked: set<nat>,                  // ... and ran its guarded UPDATE
    retriesSeen: set<nat>,                    // manualRetry read a failed row at this run
    pending: map<nat, OutcomeStatus>)         // recordOutcome between its INSERT and its batch

  datatype JobStep =
    | Send(run: nat)
    | SelectDelivery(message: MessageId, run: nat)
    | InsertDelivery(message: MessageId, run: nat)
    | ReclaimDelivery(message: MessageId, run: nat)
    | SettleDelivery(message: MessageId, acked: bool)
    | ReadForClaim(run: nat)
    | MarkRunning(run: nat)
    | StartWorkflow(run: nat)
    | CheckRun(run: nat)
    | InsertFailure(run: nat, cancelled: bool)
    | ReadForCancel
    | RequestCancel
    | MarkCancelled(run: nat)
    | InsertCancelled(run: nat)
    | ApplyOutcome(run: nat)
    | StopRecording(run: nat)
    | ReadForRetry
    | RetryBatch(run: nat)

  /** A row as `acceptJob` inserts it: queued, at run 0, nothing else recorded yet. */
  function FreshJob(id: Identity): JobFile {
    JobFile(JobRow(id, Queued, 0, false),
            map[], {}, map[], {}, {}, {}, {}, {}, {}, {}, {}, false, {}, {}, {}, map[])
  }

  predicate Terminal(status: Status) {
    status == Succeeded || status == Failed || status == Cancelled
  }

  function StatusOf(status: OutcomeStatus): Status {
    match status
    case RunSucceeded => Succeeded
    case RunFailed => Failed
    case RunCancelled => Cancelled
  }

  /** `INSERT OR IGNORE INTO revision_outcomes`: only the call whose row went in carries on. */
  function RecordOutcome(f: JobFile, run: nat, status: OutcomeStatus): JobFile {
    if run in f.outcomes then f
    else f.(outcomes := f.outcomes[run := Outcome(status, None)], pending := f.pending[run := status])
  }

  /** The two writes a job takes from a committed publish batch. */
  function RecordSuccess(f: JobFile, run: nat, manifest: Digest): JobFile {
    f.(outcomes := f.outcomes[run := Outcome(RunSucceeded, Some(manifest))],
       row := if f.row.status == Queued || f.row.status == Running
              then f.row.(status := Succeeded) else f.row)
  }

  /** manualRetry's batch: a taken (job, run) requeue key rolls the whole batch back. */
  function Requeue(f: JobFile, seen: nat): JobFile {
    if seen + 1 in f.requeues then f
    else f.(row := if f.row.status == Failed
                   then f.row.(status := Queued, run := seen + 1, cancelRequested := false) else f.row,
            requeues := f.requeues + {seen + 1})
  }

  /** One atomic step of one call on this job; a step that is not enabled changes nothing. */
  function Step(f: JobFile, step: JobStep): JobFile {
    match step
    case Send(k) => if k <= f.row.run then f.(messages := f.messages + {k}) else f
    case SelectDelivery(m, k) =>
      if k !in f.messages then f
      else if m !in f.deliveries then f.(sawNoDelivery := f.sawNoDelivery + {(m, k)})
      else if f.deliveries[m] == Retry then f.(sawRetryDelivery := f.sawRetryDelivery + {(m, k)})
      else f
    case InsertDelivery(m, k) =>
      if (m, k) in f.sawNoDelivery && m !in f.deliveries
      then f.(deliveries := f.deliveries[m := Claimed], claims := f.claims + {k}) else f
    case ReclaimDelivery(m, k) =>
      if (m, k) in f.sawRetryDelivery
      then f.(deliveries := f.deliveries[m := Claimed], claims := f.claims + {k}) else f
    case SettleDelivery(m, acked) =>
      if m in f.deliveries then f.(deliveries := f.deliveries[m := if acked then Acked else Retry]) else f
    case ReadForClaim(k) =>
      if k in f.claims && !Terminal(f.row.status) then f.(claimsPastRead := f.claimsPastRead + {k}) else f
    case MarkRunning(k) =>
      if k in f.claimsPastRead
      then f.(started := f.started + {k},
              row := if f.row.status == Queued then f.row.(status := Running) else f.row)
      else f
    case StartWorkflow(k) => if k in f.started then f.(instances := f.instances + {k}) else f
    case CheckRun(k) =>
      if k in f.instances && f.row.run == k && !Terminal(f.row.status) then f.(passed := f.passed + {k}) else f
    case InsertFailure(k, cancelled) =>
      if k in f.passed then RecordOutcome(f, k, if cancelled then RunCancelled else RunFailed) else f
    case ReadForCancel =>
      if f.row.status == Queued then f.(cancelsSeen := f.cancelsSeen + {f.row.run})
      else if f.row.status == Running then f.(cancelSawRunning := true)
      else f
    case RequestCancel =>
      if f.cancelSawRunning && f.row.status == Running then f.(row := f.row.(cancelRequested := true)) else f
    case MarkCancelled(k) =>
      if k in f.cancelsSeen
      then f.(cancelsMarked := f.cancelsMarked + {k},
              row := if f.row.status == Queued then f.row.(status := Cancelled) else f.row)
      else f
    case InsertCancelled(k) => if k in f.cancelsMarked then RecordOutcome(f, k, RunCancelled) else f
    case ApplyOutcome(k) =>
      if k in f.pending
      then f.(row := f.row.(status := StatusOf(f.pending[k])), pending := f.pending - {k}) else f
    case StopRecording(k) => f.(pending := f.pending - {k})
    case ReadForRetry =>
      if f.row.status == Failed then f.(retriesSeen := f.retriesSeen + {f.row.run}) else f
    case RetryBatch(k) => if k in f.retriesSeen then Requeue(f, k) else f
  }

  // ----- What every step keeps ---------------------------------------------------------------

  /** The current run has an outcome row with this status. */
  ghost predicate Ended(f: JobFile, status: OutcomeStatus) {
    f.row.run in f.outcomes && f.outcomes[f.row.run].status == status
  }

  /** Outcome rows: none beyond the current run, and every earlier run ended failed. */
  ghost predicate HistoryOk(f: JobFile) {
    && (forall k :: k in f.outcomes ==> k <= f.row.run)
    && (forall k :: 0 <= k < f.row.run ==> k in f.outcomes && f.outcomes[k].status == RunFailed)
    && (forall k :: k in f.outcomes ==> (f.outcomes[k].manifest.Some? <==> f.outcomes[k].status == RunSucceeded))
    && (forall k :: k in f.requeues <==> 1 <= k <= f.row.run)
  }

  /** The status column against the current run's outcome row. */
  ghost predicate StatusOk(f: JobFile) {
    && (f.row.status == Succeeded <==> Ended(f, RunSucceeded))
    && (f.row.status == Failed ==> Ended(f, RunFailed))
    && (f.row.status == Queued ==> f.row.run !in f.outcomes)
    && (f.row.status == Cancelled && f.row.run in f.passed ==> f.row.run in f.outcomes)
  }

  /** Run k is over, or it is the current run and has left the queue. */
  ghost predicate LeftQueue(f: JobFile, k: nat) {
    k < f.row.run || (k == f.row.run && f.row.status != Queued)
  }

  /** No call carries a run the job has not reached. */
  ghost predicate QueueCallsOk(f: JobFile) {
    && (forall k :: k in f.messages ==> k <= f.row.run)
    && (forall call :: call in f.sawNoDelivery ==> call.1 <= f.row.run)
    && (forall call :: call in f.sawRetryDelivery ==> call.1 <= f.row.run)
    && (forall k :: k in f.claims ==> k <= f.row.run)
    && (forall k :: k in f.claimsPastRead ==> k <= f.row.run)
    && (forall k :: k in f.cancelsSeen ==> k <= f.row.run)
  }

  ghost predicate RunCallsOk(f: JobFile) {
    && (forall k :: k in f.started ==> LeftQueue(f, k))
    && (forall k :: k in f.instances ==> LeftQueue(f, k))
    && (forall k :: k in f.passed ==> LeftQueue(f, k))
    && (forall k :: k in f.cancelsMarked ==> LeftQueue(f, k))
    && (forall k :: k in f.retriesSeen ==> k < f.row.run || (k == f.row.run && f.row.status == Failed))
  }

  /** A call between the two halves of `recordOutcome` owns the current run's outcome row. */
  ghost predicate PendingOk(f: JobFile) {
    forall k :: k in f.pending ==>
      && k == f.row.run
      && Ended(f, f.pending[k])
      && f.pending[k] != RunSucceeded
      && (f.row.status == Running || f.row.status == Cancelled)
  }

  ghost predicate JobInv(f: JobFile) {
    HistoryOk(f) && StatusOk(f) && QueueCallsOk(f) && RunCallsOk(f) && PendingOk(f)
  }

  lemma FreshJobOk(id: Identity)
    ensures JobInv(FreshJob(id))
  {
  }

  lemma HistoryKept(f: JobFile, step: JobStep)
    requires JobInv(f)
    ensures HistoryOk(Step(f, step))
  {
    if step.RetryBatch? {
      RequeueHistory(f, step.run);
    } else if step.InsertFailure? || step.InsertCancelled? {
      RecordHistory(f, step);
    } else {
      SameHistory(f, step);
    }
  }

  /** A retry that commits starts the next run of a failed one. */
  lemma RequeueHistory(f: JobFile, k: nat)
    requires JobInv(f)
    ensures HistoryOk(Step(f, RetryBatch(k)))
  {
  }

  lemma RecordHistory(f: JobFile, step: JobStep)
    requires JobInv(f) && (step.InsertFailure? || step.InsertCancelled?)
    ensures HistoryOk(Step(f, step))
  {
  }

  lemma SameHistory(f: JobFile, step: JobStep)
    requires !step.RetryBatch? && !step.InsertFailure? && !step.InsertCancelled?
    ensures var f' := Step(f, step); f'.outcomes == f.outcomes && f'.requeues == f.requeues && f'.row.run == f.row.run
  {
  }

  lemma StatusKept(f: JobFile, step: JobStep)
    requires JobInv(f)
    ensures StatusOk(Step(f, step))
  {
  }

  lemma QueueCallsKept(f: JobFile, step: JobStep)
    requires JobInv(f)
    ensures QueueCallsOk(Step(f, step))
  {
  }

  lemma RunCallsKept(f: JobFile, step: JobStep)
    requires JobInv(f)
    ensures RunCallsOk(Step(f, step))
  {
  }

  lemma PendingKept(f: JobFile, step: JobStep)
    requires JobInv(f)
    ensures PendingOk(Step(f, step))
  {
  }

  /** f' is f later on, short of publication: same job, same history so far, won if and only if it had won. */
  ghost predicate Continues(f: JobFile, f': JobFile) {
    && JobInv(f')
    && f'.row.id == f.row.id
    && f.row.run <= f'.row.run
    && (f'.row.status == Succeeded <==> f.row.status == Succeeded)
    && (forall k :: k in f.outcomes ==> k in f'.outcomes && f'.outcomes[k] == f.outcomes[k])
    && f.passed <= f'.passed
  }

  /** A winning run stays the current run. */
  lemma WinnerStays(f: JobFile, f': JobFile)
    requires f.row.status == Succeeded && f.row.run in f.outcomes && f.outcomes[f.row.run].status == RunSucceeded
    requires Continues(f, f')
    ensures f'.row.run == f.row.run && f'.row.status == Succeeded
  {
  }

  lemma StepKeepsIdentity(f: JobFile, step: JobStep)
    requires JobInv(f)
    ensures Step(f, step).row.id == f.row.id && f.row.run <= Step(f, step).row.run
  {
  }

  lemma StepKeepsPassed(f: JobFile, step: JobStep)
    ensures f.passed <= Step(f, step).passed
  {
  }

  lemma StepKeepsOutcomes(f: JobFile, step: JobStep)
    ensures forall k :: k in f.outcomes ==> k in Step(f, step).outcomes && Step(f, step).outcomes[k] == f.outcomes[k]
  {
  }

  lemma StepKeepsVictory(f: JobFile, step: JobStep)
    requires JobInv(f)
    ensures Step(f, step).row.status == Succeeded <==> f.row.status == Succeeded
  {
  }

  lemma StepKeeps(f: JobFile, step: JobStep)
    requires JobInv(f)
    ensures Continues(f, Step(f, step))
  {
    HistoryKept(f, step);
    StatusKept(f, step);
    QueueCallsKept(f, step);
    RunCallsKept(f, step);
    PendingKept(f, step);
    StepKeepsIdentity(f, step);
    StepKeepsPassed(f, step);
    StepKeepsOutcomes(f, step);
    StepKeepsVictory(f, step);
  }

  /** Publishing a run that has no outcome row yet: only its own current, running row can be there. */
  lemma SuccessKeeps(f: JobFile, run: nat, manifest: Digest)
    requires JobInv(f) && run in f.passed && run !in f.outcomes
    ensures run == f.row.run && f.row.status == Running
    ensures JobInv(RecordSuccess(f, run, manifest))
    ensures RecordSuccess(f, run, manifest).row.id == f.row.id
    ensures RecordSuccess(f, run, manifest).row.status == Succeeded
    ensures forall k :: k in f.outcomes ==>
      k in RecordSuccess(f, run, manifest).outcomes && RecordSuccess(f, run, manifest).outcomes[k] == f.outcomes[k]
  {
  }

  /**
   The source's gap between `recordOutcome`'s INSERT and its UPDATE.  A call that stops there
   leaves a running row whose run has ended: `manualRetry` refuses it (the row is not failed),
   `cancel` only sets a flag nobody will read, and no publish can take the outcome key.
   */
  ghost predicate Stranded(f: JobFile) {
    f.row.status == Running && f.row.run in f.outcomes && f.row.run !in f.pending
  }

  function Steps(f: JobFile, steps: seq<JobStep>): JobFile
    decreases |steps|
  {
    if steps == [] then f else Steps(Step(f, steps[0]), steps[1..])
  }

  lemma StrandedKept(f: JobFile, step: JobStep)
    requires JobInv(f) && Stranded(f)
    ensures Stranded(Step(f, step)) && Step(f, step).row.run == f.row.run
  {
  }

  /** No sequence of calls ever ends such a job or starts another run of it. */
  lemma {:induction false} StrandedForever(f: JobFile, steps: seq<JobStep>)
    requires JobInv(f) && Stranded(f)
    ensures Stranded(Steps(f, steps)) && Steps(f, steps).row.run == f.row.run
    decreases |steps|
  {
    if steps != [] {
      StepKeeps(f, steps[0]);
      StrandedKept(f, steps[0]);
      StrandedForever(Step(f, steps[0]), steps[1..]);
    }
  }

  /** A job whose first run has just passed the workflow's own checks. */
  function FirstRunStarted(id: Identity): JobFile {
    var sent := Step(FreshJob(id), Send(0));
    var delivered := Step(Step(sent, SelectDelivery(1, 0)), InsertDelivery(1, 0));
    var running := Step(Step(delivered, ReadForClaim(0)), MarkRunning(0));
    Step(Step(running, StartWorkflow(0)), CheckRun(0))
  }

  lemma FirstRunDelivered(id: Identity)
    ensures var delivered := Step(Step(Step(FreshJob(id), Send(0)), SelectDelivery(1, 0)), InsertDelivery(1, 0));
      0 in delivered.claims && delivered.row == FreshJob(id).row && delivered.outcomes == map[]
  {
  }

  lemma ClaimedRunStarts(f: JobFile)
    requires 0 in f.claims && f.row.run == 0 && f.row.status == Queued && f.outcomes == map[]
    ensures var started := Step(Step(Step(Step(f, ReadForClaim(0)), MarkRunning(0)), StartWorkflow(0)), CheckRun(0));
      && 0 in started.passed && started.row.run == 0 && started.row.status == Running
      && started.row.id == f.row.id && started.outcomes == map[]
  {
    var running := Step(Step(f, ReadForClaim(0)), MarkRunning(0));
    assert 0 in running.started && running.row.status == Running;
  }

  /** A failing run whose catch block stops between its two writes. */
  lemma Stopping(f: JobFile)
    requires f.row.run == 0 && f.row.status == Running && 0 in f.passed && f.outcomes == map[]
    ensures Stranded(Step(Step(f, InsertFailure(0, false)), StopRecording(0)))
  {
  }

  /** Such a state is reached by one failing run whose catch block stops between its two writes. */
  lemma StrandedIsReachable(id: Identity)
    ensures Stranded(Step(Step(FirstRunStarted(id), InsertFailure(0, false)), StopRecording(0)))
  {
    FirstRunDelivered(id);
    ClaimedRunStarts(Step(Step(Step(FreshJob(id), Send(0)), SelectDelivery(1, 0)), InsertDelivery(1, 0)));
    Stopping(FirstRunStarted(id));
  }
}
