/**
 The whole ledger with the calls that are alive on each job: what JobLives says of one job, under any
 interleaving with the calls of all others.  A publish is a call of its run's workflow instance, and
 ends with it (cloudflare/worker/src/workflow.ts:170-268).
 */
module LedgerLives {
  import opened Common
  import opened JobRuns
  import opened JobLives
  import opened Ledger
  import opened LedgerSafety
  import opened LedgerTheorems
  import LedgerCalls

  datatype Full = Full(ledger: State, lives: map<JobId, Live>)

  datatype FullStep =
    | Living(job: JobId, life: LifeStep)
    | Taking(intake: IntakeStep)
    | Inserting(profile: ProfileId, revision: nat, job: JobId, answered: bool)
    | Preparing(call: PublishCall)
    | Publishing(call: PublishCall)

  function Start(): Full {
    Full(Initial(), map[])
  }

  predicate Has(x: Full, j: JobId) {
    j in x.ledger.jobs && j in x.lives
  }

  /** The call's workflow instance is alive. */
  predicate Runs(x: Full, call: PublishCall) {
    call.job in x.lives && call.run in x.lives[call.job].alive
  }

  /** One job's file and calls replaced. */
  function WithLife(x: Full, j: JobId, life: Life): Full {
    Full(x.ledger.(jobs := x.ledger.jobs[j := life.file]), x.lives[j := life.live])
  }

  function LifeOf(x: Full, j: JobId): Life
    requires Has(x, j)
  {
    Life(x.ledger.jobs[j], x.lives[j])
  }

  /** A new job has a pending dispatch row and no calls. */
  function Inserted(x: Full, p: ProfileId, revision: nat, job: JobId, answered: bool): Full {
    var s := InsertedJob(x.ledger, p, revision, job, answered);
    Full(s, if job !in x.ledger.jobs && job in s.jobs then x.lives[job := NewLive] else x.lives)
  }

  function FullNext(x: Full, step: FullStep): Full {
    match step
    case Living(j, life) => if Has(x, j) then WithLife(x, j, JobLives.Next(LifeOf(x, j), life)) else x
    case Taking(intake) => x.(ledger := Ledger.Apply(x.ledger, OnIntake(intake)))
    case Inserting(p, revision, job, answered) => Inserted(x, p, revision, job, answered)
    case Preparing(call) => if Runs(x, call) then x.(ledger := Ledger.Apply(x.ledger, Prepare(call))) else x
    case Publishing(call) => if Runs(x, call) then x.(ledger := Published(x.ledger, call)) else x
  }

  function RunAll(x: Full, steps: seq<FullStep>): Full
    decreases |steps|
  {
    if steps == [] then x else RunAll(FullNext(x, steps[0]), steps[1..])
  }

  // ----- What every step keeps -----------------------------------------------------------------

  ghost predicate LivesOk(jobs: map<JobId, JobFile>, lives: map<JobId, Live>) {
    lives.Keys == jobs.Keys && forall j :: j in jobs ==> LiveOk(jobs[j], lives[j])
  }

  /** The ledger's invariant, kept closed. */
  ghost predicate LedgerOk(s: State) {
    forall t {:trigger Inv(t)} :: t == s ==> Inv(t)
  }

  ghost predicate FullOk(x: Full) {
    LedgerOk(x.ledger) && LivesOk(x.ledger.jobs, x.lives)
  }

  lemma ApplyOk(s: State, step: LedgerStep)
    requires LedgerOk(s)
    ensures LedgerOk(Ledger.Apply(s, step))
  {
    assert Inv(s);
    ApplyKeeps(s, step);
  }

  lemma JobsAreOk(s: State)
    requires LedgerOk(s)
    ensures JobsOk(s.jobs) && PublishingOk(s.jobs, s.publishing)
  {
    assert Inv(s);
  }

  lemma WithLifeOk(x: Full, j: JobId, life: Life)
    requires LivesOk(x.ledger.jobs, x.lives) && Has(x, j) && LiveOk(life.file, life.live)
    ensures LivesOk(WithLife(x, j, life).ledger.jobs, WithLife(x, j, life).lives)
  {
  }

  /** A step of a job's life is a step of the ledger, or none. */
  lemma LifeIsLedgerStep(s: State, j: JobId, l: Live, life: LifeStep)
    requires LedgerOk(s) && j in s.jobs
    ensures LedgerOk(s.(jobs := s.jobs[j := FileStep(s.jobs[j], l, life)]))
  {
    var js := JobStepOf(s.jobs[j], l, life);
    if js.Some? {
      ApplyOk(s, OnJob(j, js.value));
    } else {
      assert s.jobs[j := s.jobs[j]] == s.jobs;
    }
  }

  lemma LivingKept(x: Full, j: JobId, life: LifeStep)
    requires FullOk(x) && Has(x, j)
    ensures FullOk(WithLife(x, j, JobLives.Next(LifeOf(x, j), life)))
  {
    JobsAreOk(x.ledger);
    LifeKeeps(x.ledger.jobs[j], x.lives[j], life);
    LifeIsLedgerStep(x.ledger, j, x.lives[j], life);
    WithLifeOk(x, j, JobLives.Next(LifeOf(x, j), life));
  }

  lemma PublishingKept(s: State, lives: map<JobId, Live>, call: PublishCall)
    requires LedgerOk(s) && LivesOk(s.jobs, lives)
    ensures LivesOk(Published(s, call).jobs, lives)
  {
    JobsAreOk(s);
    if call in s.publishing && call.job in s.jobs && PublishBatch(s, call).Some? {
      BatchWrites(s, call);
      PublishedOk(s.jobs, lives, call);
    }
  }

  lemma PublishedOk(jobs: map<JobId, JobFile>, lives: map<JobId, Live>, call: PublishCall)
    requires LivesOk(jobs, lives) && call.job in jobs
    ensures LivesOk(jobs[call.job := RecordSuccess(jobs[call.job], call.run, call.manifest)], lives)
  {
    StaysOk(jobs[call.job], RecordSuccess(jobs[call.job], call.run, call.manifest), lives[call.job]);
  }

  lemma NewJobOk(id: Identity)
    ensures LiveOk(FreshJob(id), NewLive)
  {
  }

  lemma InsertingKept(x: Full, p: ProfileId, revision: nat, job: JobId, answered: bool)
    requires LivesOk(x.ledger.jobs, x.lives)
    ensures var x' := Inserted(x, p, revision, job, answered); LivesOk(x'.ledger.jobs, x'.lives)
  {
    InsertedIs(x.ledger, p, revision, job, answered);
  }

  /** acceptJob's batch inserts a new job or no job. */
  lemma InsertedIs(s: State, p: ProfileId, revision: nat, job: JobId, answered: bool)
    ensures var s' := InsertedJob(s, p, revision, job, answered);
      || s'.jobs == s.jobs
      || (job !in s.jobs && job in s'.jobs && s'.jobs == s.jobs[job := s'.jobs[job]] && LiveOk(s'.jobs[job], NewLive))
  {
    if (p, revision) in s.intake.reserved { NewJobOk(IdentityOf(s.intake.reserved[(p, revision)], revision)); }
    assert forall j :: j in RowsOf(s.jobs) <==> j in s.jobs;
  }

  /** What a step leads to is in order; kept closed, so that a caller need not look at the step. */
  ghost predicate Keeps(x: Full, step: FullStep) {
    forall y {:trigger FullOk(y)} :: y == FullNext(x, step) ==> FullOk(y)
  }

  lemma LivingKeeps(x: Full, j: JobId, life: LifeStep)
    requires FullOk(x)
    ensures Keeps(x, Living(j, life))
  {
    if Has(x, j) { LivingKept(x, j, life); }
  }

  lemma TakingKeeps(x: Full, intake: IntakeStep)
    requires FullOk(x)
    ensures Keeps(x, Taking(intake))
  {
    ApplyOk(x.ledger, OnIntake(intake));
  }

  lemma InsertingKeeps(x: Full, p: ProfileId, revision: nat, job: JobId, answered: bool)
    requires FullOk(x)
    ensures Keeps(x, Inserting(p, revision, job, answered))
  {
    ApplyOk(x.ledger, InsertJob(p, revision, job, answered));
    InsertingKept(x, p, revision, job, answered);
  }

  lemma PreparingKeeps(x: Full, call: PublishCall)
    requires FullOk(x)
    ensures Keeps(x, Preparing(call))
  {
    ApplyOk(x.ledger, Prepare(call));
  }

  lemma PublishingKeeps(x: Full, call: PublishCall)
    requires FullOk(x)
    ensures Keeps(x, Publishing(call))
  {
    PublishedLedgerOk(x.ledger, call);
    PublishingKept(x.ledger, x.lives, call);
    OkUnder(x, Published(x.ledger, call));
  }

  lemma PublishedLedgerOk(s: State, call: PublishCall)
    requires LedgerOk(s)
    ensures LedgerOk(Published(s, call))
  {
    assert Ledger.Apply(s, Publish(call)) == Published(s, call);
    ApplyOk(s, Publish(call));
  }

  lemma OkUnder(x: Full, s: State)
    requires LedgerOk(s) && LivesOk(s.jobs, x.lives)
    ensures FullOk(x.(ledger := s))
  {
  }

  lemma FullKeeps(x: Full, step: FullStep)
    requires FullOk(x)
    ensures Keeps(x, step)
  {
    match step
    case Living(j, life) => LivingKeeps(x, j, life);
    case Taking(intake) => TakingKeeps(x, intake);
    case Inserting(p, revision, job, answered) => InsertingKeeps(x, p, revision, job, answered);
    case Preparing(call) => PreparingKeeps(x, call);
    case Publishing(call) => PublishingKeeps(x, call);
  }

  // ----- Jobs that never end -------------------------------------------------------------------

  /** The recorder of the run's outcome has stopped halfway, or nobody is left to decide the run. */
  ghost predicate Lost(x: Full, j: JobId) {
    Has(x, j) && (Stranded(x.ledger.jobs[j]) || Abandoned(x.ledger.jobs[j], x.lives[j]))
  }

  /** A publish of the run needs the run's instance. */
  lemma LostPublish(x: Full, call: PublishCall, j: JobId)
    requires LedgerOk(x.ledger) && Lost(x, j) && Runs(x, call)
    ensures j in Published(x.ledger, call).jobs && Published(x.ledger, call).jobs[j] == x.ledger.jobs[j]
  {
    JobsAreOk(x.ledger);
    var s := x.ledger;
    if call in s.publishing && call.job in s.jobs && PublishBatch(s, call).Some? {
      BatchWrites(s, call);
      SuccessKeeps(s.jobs[call.job], call.run, call.manifest);
    }
  }

  lemma LostLife(x: Full, j: JobId, life: LifeStep)
    requires JobsOk(x.ledger.jobs) && LivesOk(x.ledger.jobs, x.lives) && Lost(x, j)
    ensures var y := JobLives.Next(LifeOf(x, j), life); Stranded(y.file) || Abandoned(y.file, y.live)
  {
    var f, l := x.ledger.jobs[j], x.lives[j];
    if Stranded(f) { StrandedStays(f, l, life); } else { AbandonedStays(f, l, life); }
  }

  lemma LostLiving(x: Full, i: JobId, y: Life, j: JobId)
    requires Lost(x, j) && Has(x, i) && (i == j ==> Stranded(y.file) || Abandoned(y.file, y.live))
    ensures Lost(WithLife(x, i, y), j)
  {
  }

  /** A lost job is lost after the step; kept closed as above. */
  ghost predicate StaysLost(x: Full, step: FullStep, j: JobId) {
    forall y {:trigger Lost(y, j)} :: y == FullNext(x, step) ==> Lost(y, j)
  }

  lemma LivingStaysLost(x: Full, i: JobId, life: LifeStep, j: JobId)
    requires FullOk(x) && Lost(x, j)
    ensures StaysLost(x, Living(i, life), j)
  {
    if Has(x, i) {
      JobsAreOk(x.ledger);
      if i == j { LostLife(x, j, life); }
      LostLiving(x, i, JobLives.Next(LifeOf(x, i), life), j);
    }
  }

  lemma PublishingStaysLost(x: Full, call: PublishCall, j: JobId)
    requires FullOk(x) && Lost(x, j)
    ensures StaysLost(x, Publishing(call), j)
  {
    if Runs(x, call) {
      LostPublish(x, call, j);
      LostUnder(x, Published(x.ledger, call), j);
    }
  }

  lemma LostUnder(x: Full, s: State, j: JobId)
    requires Lost(x, j) && j in s.jobs && s.jobs[j] == x.ledger.jobs[j]
    ensures Lost(x.(ledger := s), j)
  {
  }

  lemma InsertingStaysLost(x: Full, p: ProfileId, revision: nat, job: JobId, answered: bool, j: JobId)
    requires Lost(x, j)
    ensures StaysLost(x, Inserting(p, revision, job, answered), j)
  {
    InsertedIs(x.ledger, p, revision, job, answered);
  }

  lemma OtherStaysLost(x: Full, step: FullStep, j: JobId)
    requires FullOk(x) && Lost(x, j) && !step.Living?
    ensures StaysLost(x, step, j)
  {
    match step
    case Taking(_) =>
    case Inserting(p, revision, job, answered) => InsertingStaysLost(x, p, revision, job, answered, j);
    case Preparing(_) =>
    case Publishing(call) => PublishingStaysLost(x, call, j);
  }

  /** No call of any kind ends a lost job. */
  lemma {:induction false} LostForGood(x: Full, steps: seq<FullStep>, j: JobId)
    requires FullOk(x) && Lost(x, j)
    ensures Lost(RunAll(x, steps), j)
    decreases |steps|
  {
    if steps != [] {
      var y := FullNext(x, steps[0]);
      FullKeeps(x, steps[0]);
      assert FullOk(y);
      if steps[0].Living? {
        LivingStaysLost(x, steps[0].job, steps[0].life, j);
      } else {
        OtherStaysLost(x, steps[0], j);
      }
      assert Lost(y, j);
      LostForGood(y, steps[1..], j);
    }
  }

  // ----- Jobs that can end ---------------------------------------------------------------------

  function LivingAll(j: JobId, steps: seq<LifeStep>): (all: seq<FullStep>)
    ensures |all| == |steps| && forall i :: 0 <= i < |all| ==> all[i] == Living(j, steps[i])
  {
    seq(|steps|, i requires 0 <= i < |steps| => Living(j, steps[i]))
  }

  lemma {:induction false} LivingAllRuns(x: Full, j: JobId, steps: seq<LifeStep>)
    requires Has(x, j)
    ensures var x' := RunAll(x, LivingAll(j, steps)); var life := After(LifeOf(x, j), steps);
      Has(x', j) && x'.ledger.jobs[j] == life.file && x'.lives[j] == life.live
    decreases |steps|
  {
    if steps != [] {
      LivingAllRuns(FullNext(x, Living(j, steps[0])), j, steps[1..]);
      assert LivingAll(j, steps)[1..] == LivingAll(j, steps[1..]);
    }
  }

  ghost predicate Ends(x: Full, j: JobId) {
    exists steps :: j in RunAll(x, steps).ledger.jobs && Terminal(RunAll(x, steps).ledger.jobs[j].row.status)
  }

  /** When the ledger can still end a job: exactly when it is not lost. */
  lemma EndsUnlessLost(x: Full, j: JobId)
    requires FullOk(x) && j in x.ledger.jobs
    ensures Ends(x, j) <==> !Lost(x, j)
  {
    if Lost(x, j) {
      forall steps
        ensures !(j in RunAll(x, steps).ledger.jobs && Terminal(RunAll(x, steps).ledger.jobs[j].row.status))
      {
        LostForGood(x, steps, j);
      }
    } else {
      JobsAreOk(x.ledger);
      EndsUnlessAbandoned(LifeOf(x, j));
      var steps :| Terminal(After(LifeOf(x, j), steps).file.row.status);
      LivingAllRuns(x, j, steps);
    }
  }

  // ----- How a job comes to be lost --------------------------------------------------------------

  /** Some interleaving of calls leads here from the empty ledger. */
  ghost predicate Reached(x: Full) {
    exists steps :: x == RunAll(Start(), steps)
  }

  lemma {:induction false} RunAllOne(x: Full, steps: seq<FullStep>, step: FullStep)
    ensures RunAll(x, steps + [step]) == FullNext(RunAll(x, steps), step)
    decreases |steps|
  {
    if steps == [] {
      assert RunAll(FullNext(x, step), []) == FullNext(x, step);
    } else {
      assert (steps + [step])[1..] == steps[1..] + [step];
      RunAllOne(FullNext(x, steps[0]), steps[1..], step);
    }
  }

  lemma ReachedOn(x: Full, step: FullStep)
    requires Reached(x)
    ensures Reached(FullNext(x, step))
  {
    var steps :| x == RunAll(Start(), steps);
    RunAllOne(Start(), steps, step);
  }

  lemma {:induction false} ReachedAll(x: Full, steps: seq<FullStep>)
    requires Reached(x)
    ensures Reached(RunAll(x, steps))
    decreases |steps|
  {
    if steps != [] {
      ReachedOn(x, steps[0]);
      ReachedAll(FullNext(x, steps[0]), steps[1..]);
    }
  }

  lemma StartOk()
    ensures FullOk(Start()) && Reached(Start())
  {
    InitialOk();
    assert RunAll(Start(), []) == Start();
  }

  lemma TakingOne(x: Full, intake: IntakeStep) returns (x': Full)
    requires Reached(x)
    ensures Reached(x') && x' == x.(ledger := Ledger.Apply(x.ledger, OnIntake(intake)))
  {
    ReachedOn(x, Taking(intake));
    x' := FullNext(x, Taking(intake));
  }

  /** The first request of all finds no job and takes revision 1. */
  lemma FirstReservation(request: Request) returns (x: Full)
    ensures Reached(x) && x.lives == map[] && x.ledger == Initial().(intake := x.ledger.intake)
    ensures (request.profile, 1) in x.ledger.intake.reserved
      && x.ledger.intake.reserved[(request.profile, 1)] == request
    ensures (request.profile, 1) !in x.ledger.intake.revisions && LedgerCalls.Existing(x.ledger, request).None?
  {
    StartOk();
    var s := Initial();
    LedgerCalls.EventLookup(RowsOf(s.jobs), s.intake, request);
    x := TakingOne(Start(), LookupEvent(request));
    LedgerCalls.KeyLookup(RowsOf(s.jobs), x.ledger.intake, request);
    x := TakingOne(x, LookupKey(request));
    LedgerCalls.Reservation(x.ledger.intake, request);
    x := TakingOne(x, EnsureCounter(request));
    x := TakingOne(x, Reserve(request));
  }

  /** It gets a queued job. */
  lemma FirstJob(request: Request, job: JobId) returns (x: Full)
    ensures Reached(x) && Has(x, job) && LifeOf(x, job) == Life(FreshJob(IdentityOf(request, 1)), NewLive)
  {
    var reserved := FirstReservation(request);
    LedgerCalls.Insertion(reserved.ledger, request, 1, job);
    ReachedOn(reserved, Inserting(request.profile, 1, job, true));
    x := FullNext(reserved, Inserting(request.profile, 1, job, true));
  }

  /** What one job's calls lead to, the ledger reaches. */
  lemma LifeIsReached(request: Request, job: JobId, life: Life) returns (x: Full)
    requires Lived(IdentityOf(request, 1), life)
    ensures Reached(x) && Has(x, job) && LifeOf(x, job) == life
  {
    var first := FirstJob(request, job);
    var steps :| life == After(Life(FreshJob(IdentityOf(request, 1)), NewLive), steps);
    LivingAllRuns(first, job, steps);
    ReachedAll(first, LivingAll(job, steps));
    x := RunAll(first, LivingAll(job, steps));
  }

  /** A consumer that stops between its update of the job and startWorkflow leaves a job running for good. */
  lemma LostClaimRun(request: Request, job: JobId) returns (x: Full)
    ensures Reached(x) && Has(x, job) && Abandoned(x.ledger.jobs[job], x.lives[job])
    ensures x.ledger.jobs[job].row.run !in x.ledger.jobs[job].instances
  {
    var life := LostClaim(IdentityOf(request, 1));
    x := LifeIsReached(request, job, life);
  }

  /** So does a workflow instance that ends without an outcome. */
  lemma LostInstanceRun(request: Request, job: JobId) returns (x: Full)
    ensures Reached(x) && Has(x, job) && Abandoned(x.ledger.jobs[job], x.lives[job])
    ensures x.ledger.jobs[job].row.run in x.ledger.jobs[job].instances
  {
    var life := LostInstance(IdentityOf(request, 1));
    x := LifeIsReached(request, job, life);
  }

  lemma {:induction false} RunAllKeeps(x: Full, steps: seq<FullStep>)
    requires FullOk(x)
    ensures FullOk(RunAll(x, steps))
    decreases |steps|
  {
    if steps != [] {
      FullKeeps(x, steps[0]);
      assert FullOk(FullNext(x, steps[0]));
      RunAllKeeps(FullNext(x, steps[0]), steps[1..]);
    }
  }

  /** The law, for every state that the ledger reaches. */
  lemma ReachedEndsUnlessLost(x: Full, j: JobId)
    requires Reached(x) && j in x.ledger.jobs
    ensures Ends(x, j) <==> !Lost(x, j)
  {
    var steps :| x == RunAll(Start(), steps);
    StartOk();
    RunAllKeeps(Start(), steps);
    EndsUnlessLost(x, j);
  }
}
