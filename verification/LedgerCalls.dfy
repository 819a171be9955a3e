/**
 The calls of `D1JobLedger` and of the play route as the source sequences them, each statement one
 step of `Ledger.Apply`.  A contract here says what one call does when no other call comes between
 its statements; LedgerSafety and LedgerTheorems speak about every interleaving.
 */
module LedgerCalls {
  import opened Common
  import opened JobRuns
  import opened Ledger
  import opened LedgerSafety
  import opened LedgerTheorems

  datatype Acceptance = Accepted(job: JobId, revision: nat) | Duplicate(job: JobId, revision: nat) | Conflict

  datatype Publishing = Moved | Stale | Rejected

  /** The job `existingFor` finds: by event first, then by idempotency key. */
  ghost function Existing(s: State, request: Request): Option<JobId> {
    if (request.profile, request.event) in s.intake.events
    then Some(s.intake.events[(request.profile, request.event)])
    else if (request.profile, request.digest) in s.intake.digests
    then Some(s.intake.digests[(request.profile, request.digest)])
    else None
  }

  /** The row holds the request itself: what a job never changes, but for the revision it was given. */
  ghost predicate Holds(id: Identity, request: Request) {
    id == Identity(request.profile, request.event, request.digest, request.body, id.revision)
  }

  ghost function CounterOf(x: Intake, p: ProfileId): nat {
    if p in x.counters then x.counters[p] else 0
  }

  /** A lookup writes no table; it may only add to what calls in flight hold. */
  ghost predicate OnlyLookedUp(x: Intake, x': Intake) {
    && x'.events == x.events && x'.digests == x.digests && x'.revisions == x.revisions
    && x'.counters == x.counters && x'.reserved == x.reserved && x'.counting == x.counting
    && x'.stores == x.stores && x'.acks == x.acks
    && x.replies <= x'.replies && x.eventMissed <= x'.eventMissed && x.keyMissed <= x'.keyMissed
  }

  /** The row exists and, when it is the same request, the success is recorded. */
  ghost predicate Answers(rows: Rows, x: Intake, j: JobId, request: Request) {
    j in rows && (SameRequest(rows[j], request) ==> Reply(request, j, rows[j].revision) in x.replies)
  }

  lemma EventLookup(rows: Rows, x: Intake, request: Request)
    requires EventsOk(rows, x.events)
    ensures var x' := LookedUpEvent(rows, x, request);
      && OnlyLookedUp(x, x')
      && ((request.profile, request.event) !in x.events ==> request in x'.eventMissed)
      && ((request.profile, request.event) in x.events ==>
          Answers(rows, x', x.events[(request.profile, request.event)], request))
  {
  }

  lemma KeyLookup(rows: Rows, x: Intake, request: Request)
    requires DigestsOk(rows, x.digests) && request in x.eventMissed
    ensures var x' := LookedUpKey(rows, x, request);
      && OnlyLookedUp(x, x')
      && ((request.profile, request.digest) !in x.digests ==> request in x'.keyMissed)
      && ((request.profile, request.digest) in x.digests ==>
          Answers(rows, x', x.digests[(request.profile, request.digest)], request))
  {
  }

  /** The two statements of `reserveRevision`. */
  lemma Reservation(x: Intake, request: Request)
    requires request in x.keyMissed
    ensures var x' := Reserved(EnsuredCounter(x, request), request); var next := CounterOf(x, request.profile) + 1;
      && x'.counters == x.counters[request.profile := next]
      && (request.profile, next) in x'.reserved && x'.reserved[(request.profile, next)] == request
      && x'.events == x.events && x'.digests == x.digests && x'.revisions == x.revisions
      && x'.stores == x.stores && x'.acks == x.acks
  {
  }

  /** acceptJob's batch, when nothing came in between. */
  lemma Insertion(s: State, request: Request, revision: nat, job: JobId)
    requires job !in s.jobs && (request.profile, revision) !in s.intake.revisions
    requires (request.profile, revision) in s.intake.reserved
      && s.intake.reserved[(request.profile, revision)] == request
    requires Existing(s, request).None?
    ensures var s' := InsertedJob(s, request.profile, revision, job, true);
      && s'.jobs == s.jobs[job := FreshJob(IdentityOf(request, revision))]
      && s'.latest == s.latest && s'.catalog == s.catalog
      && s'.intake.counters == s.intake.counters
      && s'.intake.stores == s.intake.stores && s'.intake.acks == s.intake.acks
      && Reply(request, job, revision) in s'.intake.replies
      && Existing(s', request) == Some(job)
  {
    var id := IdentityOf(request, revision);
    assert KeysFree(RowsOf(s.jobs), s.intake.(reserved := s.intake.reserved - {(request.profile, revision)}), id, job);
  }

  // ----- Reachable states ----------------------------------------------------------------------

  /** Some interleaving of calls leads here; the theorems about runs apply to such a state. */
  ghost predicate Reachable(s: State) {
    exists steps :: s == Run(Initial(), steps)
  }

  lemma {:induction false} RunExtends(s: State, steps: seq<LedgerStep>, step: LedgerStep)
    ensures Run(s, steps + [step]) == Apply(Run(s, steps), step)
    decreases |steps|
  {
    if steps == [] {
      assert Run(Apply(s, step), []) == Apply(s, step);
    } else {
      assert (steps + [step])[1..] == steps[1..] + [step];
      RunExtends(Apply(s, steps[0]), steps[1..], step);
    }
  }

  lemma ReachableSteps(s: State, step: LedgerStep)
    requires Reachable(s)
    ensures Reachable(Apply(s, step))
  {
    var steps :| s == Run(Initial(), steps);
    RunExtends(Initial(), steps, step);
  }

  /** The facts about a reachable state that a call's own reads rely on. */
  lemma ReachableFacts(s: State)
    requires Reachable(s)
    ensures EventsOk(RowsOf(s.jobs), s.intake.events) && DigestsOk(RowsOf(s.jobs), s.intake.digests)
    ensures forall key :: key in s.intake.reserved ==> key !in s.intake.revisions
  {
    var steps :| s == Run(Initial(), steps);
    InitialOk();
    RunKeeps(Initial(), steps);
    assert CountersOk(s.intake.revisions, s.intake.counters, s.intake.reserved);
  }

  lemma ReachableJob(s: State, j: JobId)
    requires Reachable(s) && j in s.jobs
    ensures JobInv(s.jobs[j])
  {
    var steps :| s == Run(Initial(), steps);
    InitialOk();
    RunKeeps(Initial(), steps);
  }

  /** Both tables lie under the job's own key, and no stored table of this revision differs from them. */
  ghost predicate Publishable(s: State, call: PublishCall)
    requires call.job in s.jobs
  {
    var id := s.jobs[call.job].row.id;
    && (exists tail :: call.recommend.objectKey == TableHeader(id.profile, call.job, id.revision, Recommend, tail))
    && (exists tail :: call.today.objectKey == TableHeader(id.profile, call.job, id.revision, Today, tail))
    && ((id.profile, Recommend, id.revision) in s.catalog.artifacts ==>
          s.catalog.artifacts[(id.profile, Recommend, id.revision)] == call.recommend)
    && ((id.profile, Today, id.revision) in s.catalog.artifacts ==>
          s.catalog.artifacts[(id.profile, Today, id.revision)] == call.today)
  }

  lemma PreparedIsPublishable(s: State, call: PublishCall)
    requires call.job in s.jobs && call.run in s.jobs[call.job].passed
    ensures Prepared(s, call) <==> Publishable(s, call)
  {
  }

  /** One of the call's tables has content that another revision of the profile already has. */
  ghost predicate RepeatsContent(artifacts: map<(ProfileId, Kind, nat), TableRef>, id: Identity, call: PublishCall) {
    || HeldElsewhere(artifacts, id.profile, Recommend, id.revision, call.recommend.contentHash)
    || HeldElsewhere(artifacts, id.profile, Today, id.revision, call.today.contentHash)
  }

  /** The run's success, its two artifact rows, and the pointer and latest rows exactly for a newest revision. */
  ghost predicate PublishWrote(s: State, s': State, call: PublishCall)
    requires call.job in s.jobs
  {
    var f := s.jobs[call.job]; var id := f.row.id;
    && s'.jobs == s.jobs[call.job := f.(row := f.row.(status := Succeeded),
                                        outcomes := f.outcomes[call.run := Outcome(RunSucceeded, Some(call.manifest))])]
    && ArtifactWritten(s.catalog.artifacts, s'.catalog.artifacts, id.profile, Recommend, id.revision, call.recommend)
    && ArtifactWritten(s.catalog.artifacts, s'.catalog.artifacts, id.profile, Today, id.revision, call.today)
    && s'.catalog.artifacts - {(id.profile, Recommend, id.revision), (id.profile, Today, id.revision)}
       == s.catalog.artifacts
    && s'.latest == (if Newest(s.latest, id.profile, id.revision)
                     then s.latest[id.profile := Pointer(id.revision, call.job, call.manifest)] else s.latest)
    && s'.catalog.latest == (if Newest(s.latest, id.profile, id.revision)
                             then s.catalog.latest
                               [(id.profile, Recommend) := LatestTable(id.revision, call.recommend)]
                               [(id.profile, Today) := LatestTable(id.revision, call.today)]
                             else s.catalog.latest)
    && s'.intake == s.intake && s'.publishing == s.publishing
  }

  /** When and why a publish past its checks is refused, and what it writes otherwise. */
  lemma PublishEffect(s: State, call: PublishCall)
    requires Reachable(s) && call in s.publishing
    ensures call.job in s.jobs && (call.run !in s.jobs[call.job].outcomes ==> call.run == s.jobs[call.job].row.run)
    ensures var f := s.jobs[call.job]; var id := f.row.id;
      PublishBatch(s, call).None? <==>
        || call.run in f.outcomes
        || (Newest(s.latest, id.profile, id.revision) && RepeatsContent(s.catalog.artifacts, id, call))
    ensures PublishBatch(s, call).Some? ==> PublishWrote(s, PublishBatch(s, call).value, call)
  {
    var steps :| s == Run(Initial(), steps);
    InitialOk();
    RunKeeps(Initial(), steps);
    RefusedExactly(s, call);
    if call.run !in s.jobs[call.job].outcomes {
      SuccessKeeps(s.jobs[call.job], call.run, call.manifest);
    }
    if PublishBatch(s, call).Some? {
      NoArtifactYet(s, call.job);
      PublishWrites(s, call);
    }
  }

  lemma PublishWrites(s: State, call: PublishCall)
    requires call.job in s.jobs && JobInv(s.jobs[call.job]) && call.run in s.jobs[call.job].passed
    requires TablesOk(s.latest, s.catalog.latest)
    requires forall kind: Kind ::
      (s.jobs[call.job].row.id.profile, kind, s.jobs[call.job].row.id.revision) !in s.catalog.artifacts
    requires PublishBatch(s, call).Some?
    ensures PublishWrote(s, PublishBatch(s, call).value, call)
  {
    var id := s.jobs[call.job].row.id;
    BatchWrites(s, call);
    SuccessKeeps(s.jobs[call.job], call.run, call.manifest);
    ArtifactsOfBatch(s.catalog, id.profile, id.revision, call.recommend, call.today);
    TablesEffect(s.catalog, s.latest, id.profile, id.revision, call.recommend, call.today);
  }

  lemma RefusedExactly(s: State, call: PublishCall)
    requires Inv(s) && call in s.publishing
    ensures call.job in s.jobs && JobInv(s.jobs[call.job]) && call.run in s.jobs[call.job].passed
    ensures var f := s.jobs[call.job]; var id := f.row.id;
      PublishBatch(s, call).None? <==>
        || call.run in f.outcomes
        || (Newest(s.latest, id.profile, id.revision) && RepeatsContent(s.catalog.artifacts, id, call))
  {
    assert PublishingOk(s.jobs, s.publishing);
    if call.run !in s.jobs[call.job].outcomes {
      RefusedExactlyForRepeatedContent(s, call);
    }
  }

  /** A job as its first message finds it: queued at run 0, nothing asked, decided or sent. */
  ghost predicate IsNew(f: JobFile, request: Request, revision: nat) {
    && f.row.id == Identity(request.profile, request.event, request.digest, request.body, revision)
    && f.row == JobRow(f.row.id, Queued, 0, false)
    && f.outcomes == map[] && f.requeues == {} && f.deliveries == map[] && f.messages == {} && f.instances == {}
    && f.passed == {} && f.pending == map[]
  }

  /**
   What acceptance answers and writes, given the job `existingFor` found: a new request makes one new
   job at the profile's next revision, the same request again gets that job's answer, and any other
   request with its event or key is a conflict.  Neither of these changes a job or a counter.
   */
  ghost predicate AcceptedAs(found: Option<JobId>, jobs: map<JobId, JobFile>, counters: map<ProfileId, nat>,
                             s': State, request: Request, jobId: JobId, r: Acceptance) {
    match found
    case None =>
      var next := (if request.profile in counters then counters[request.profile] else 0) + 1;
      && r == Accepted(jobId, next)
      && jobId in s'.jobs && s'.jobs == jobs[jobId := s'.jobs[jobId]] && IsNew(s'.jobs[jobId], request, next)
      && s'.intake.counters == counters[request.profile := next]
    case Some(j) =>
      && s'.jobs == jobs && s'.intake.counters == counters && j in jobs
      && r == if Holds(jobs[j].row.id, request) then Duplicate(j, jobs[j].row.id.revision) else Conflict
  }

  lemma RetryEffect(f: JobFile)
    requires JobInv(f) && f.row.status == Failed
    ensures var f' := Step(Step(f, ReadForRetry), RetryBatch(f.row.run));
      f'.row == JobRow(f.row.id, Queued, f.row.run + 1, false) && f'.outcomes == f.outcomes
  {
  }

  lemma CancelEffect(f: JobFile)
    requires JobInv(f) && f.row.status == Queued
    ensures var k := f.row.run;
      var f' := Step(Step(Step(Step(f, ReadForCancel), MarkCancelled(k)), InsertCancelled(k)), ApplyOutcome(k));
      && f'.row == f.row.(status := Cancelled)
      && f'.outcomes == f.outcomes[k := Outcome(RunCancelled, None)]
  {
    var k := f.row.run;
    var marked := Step(Step(f, ReadForCancel), MarkCancelled(k));
    assert k in marked.cancelsMarked && marked.outcomes == f.outcomes && marked.row == f.row.(status := Cancelled);
  }

  lemma FailureEffect(f: JobFile, run: nat, cancelled: bool)
    requires JobInv(f) && run in f.passed
    ensures var status := if cancelled then RunCancelled else RunFailed;
      var f' := Step(Step(f, InsertFailure(run, cancelled)), ApplyOutcome(run));
      if run in f.outcomes
      then f'.outcomes == f.outcomes && (run !in f.pending ==> f' == f)
      else run == f.row.run && f'.row == f.row.(status := StatusOf(status))
           && f'.outcomes == f.outcomes[run := Outcome(status, None)]
  {
  }

  datatype PlayAnswer = Refused | Played(acceptance: Acceptance)

  /** The object takes a new play, or the same play again; a purged profile takes none. */
  predicate Admits(store: PlayStore, e: EventId, digest: Digest, device: nat) {
    && !store.tombstone
    && (e in store.plays ==> store.plays[e].digest == digest && store.plays[e].device == device)
  }

  /** Object and ledger hold the same play: stored, marked enqueued, and answered with its one job. */
  ghost predicate Mirrored(s: State, request: Request, a: Acceptance) {
    && !a.Conflict?
    && Stored(s.intake, request)
    && StoreOf(s.intake, request.profile).plays[request.event].enqueued
    && Existing(s, request) == Some(a.job)
    && Reply(request, a.job, a.revision) in s.intake.replies
  }

  /** The object holds the play and has acknowledged it. */
  ghost predicate Stored(x: Intake, request: Request) {
    && PlayAck(request.profile, request.event, request.digest) in x.acks
    && request.event in StoreOf(x, request.profile).plays
    && StoreOf(x, request.profile).plays[request.event].digest == request.digest
  }

  /** The other profiles' objects are left alone. */
  ghost predicate OtherStoresKept(x: Intake, x': Intake, p: ProfileId) {
    forall q :: q != p ==> StoreOf(x', q) == StoreOf(x, q)
  }

  /** The object with this play: a repeat keeps its revision, a new play takes the next. */
  ghost function WithPlay(store: PlayStore, request: Request, device: nat, enqueued: bool): PlayStore {
    var known := request.event in store.plays;
    var revision := if known then store.plays[request.event].revision else store.revision + 1;
    PlayStore(store.plays[request.event := PlayRecord(request.digest, device, revision, enqueued)],
              if known then store.revision else revision, store.tombstone, store.purged)
  }

  ghost predicate WasEnqueued(store: PlayStore, e: EventId) {
    e in store.plays && store.plays[e].enqueued
  }

  lemma ThenEnqueued(store: PlayStore, request: Request, device: nat)
    ensures var stored := WithPlay(store, request, device, WasEnqueued(store, request.event));
      && stored.plays[request.event].device == device
      && WithPlay(stored, request, device, true) == WithPlay(store, request, device, true)
  {
  }

  lemma StoredEffect(x: Intake, request: Request, device: nat)
    ensures var x' := AcceptedPlay(x, request.profile, request.event, request.digest, device);
      var store := StoreOf(x, request.profile);
      if Admits(store, request.event, request.digest, device)
      then
        && Stored(x', request) && x' == x.(stores := x'.stores, acks := x'.acks)
        && StoreOf(x', request.profile) == WithPlay(store, request, device, WasEnqueued(store, request.event))
        && OtherStoresKept(x, x', request.profile)
      else x' == x
  {
    var store := StoreOf(x, request.profile);
    if request.event in store.plays && store.plays[request.event].digest == request.digest {
      assert store.plays == store.plays[request.event := store.plays[request.event]];
    }
  }

  lemma EnqueuedEffect(x: Intake, request: Request, job: JobId, revision: nat)
    requires Stored(x, request) && Reply(request, job, revision) in x.replies
    ensures var x' := EnqueuedPlay(x, PlayAck(request.profile, request.event, request.digest));
      var store := StoreOf(x, request.profile);
      && x' == x.(stores := x'.stores) && Stored(x', request)
      && StoreOf(x', request.profile) == WithPlay(store, request, store.plays[request.event].device, true)
      && OtherStoresKept(x, x', request.profile)
  {
    assert Answered(x, PlayAck(request.profile, request.event, request.digest));
  }

  class D1JobLedger {
    var db: State

    constructor ()
      ensures db == Initial() && Reachable(db)
    {
      db := Initial();
      assert Run(Initial(), []) == Initial();
    }

    /** One awaited statement or batch. */
    method Take(step: LedgerStep)
      requires Reachable(db)
      modifies this
      ensures db == Apply(old(db), step) && Reachable(db)
    {
      ReachableSteps(db, step);
      db := Apply(db, step);
    }

    /** `existingFor`: the event's job, else the idempotency key's job. */
    method ExistingFor(request: Request) returns (found: Option<JobId>)
      requires Reachable(db)
      modifies this
      ensures Reachable(db) && db == old(db).(intake := db.intake) && OnlyLookedUp(old(db).intake, db.intake)
      ensures found == Existing(old(db), request)
      ensures found.None? ==> request in db.intake.keyMissed
      ensures found.Some? ==> Answers(RowsOf(db.jobs), db.intake, found.value, request)
    {
      ReachableFacts(db);
      EventLookup(RowsOf(db.jobs), db.intake, request);
      Take(OnIntake(LookupEvent(request)));
      if (request.profile, request.event) in db.intake.events {
        return Some(db.intake.events[(request.profile, request.event)]);
      }
      KeyLookup(RowsOf(db.jobs), db.intake, request);
      Take(OnIntake(LookupKey(request)));
      if (request.profile, request.digest) in db.intake.digests {
        return Some(db.intake.digests[(request.profile, request.digest)]);
      }
      return None;
    }

    method ReserveRevision(request: Request) returns (revision: nat)
      requires Reachable(db) && request in db.intake.keyMissed
      modifies this
      ensures Reachable(db) && db == old(db).(intake := db.intake)
      ensures revision == CounterOf(old(db).intake, request.profile) + 1
      ensures db.intake.counters == old(db).intake.counters[request.profile := revision]
      ensures (request.profile, revision) in db.intake.reserved
        && db.intake.reserved[(request.profile, revision)] == request
      ensures Existing(db, request) == Existing(old(db), request)
      ensures db.intake.stores == old(db).intake.stores && db.intake.acks == old(db).intake.acks
    {
      Reservation(db.intake, request);
      Take(OnIntake(EnsureCounter(request)));
      Take(OnIntake(Reserve(request)));
      revision := db.intake.counters[request.profile];
    }

    method InsertJobRows(request: Request, revision: nat, jobId: JobId)
      requires Reachable(db) && jobId !in db.jobs
      requires (request.profile, revision) in db.intake.reserved
        && db.intake.reserved[(request.profile, revision)] == request
      requires Existing(db, request).None?
      modifies this
      ensures Reachable(db)
      ensures db.jobs == old(db).jobs[jobId := FreshJob(IdentityOf(request, revision))]
      ensures db.latest == old(db).latest && db.catalog == old(db).catalog
      ensures db.intake.counters == old(db).intake.counters
      ensures db.intake.stores == old(db).intake.stores && db.intake.acks == old(db).intake.acks
      ensures Existing(db, request) == Some(jobId) && Reply(request, jobId, revision) in db.intake.replies
    {
      ReachableFacts(db);
      Insertion(db, request, revision, jobId);
      Take(InsertJob(request.profile, revision, jobId, true));
    }

    /** A new event and key make one queued job with the next revision; anything else changes no job. */
    method AcceptJob(request: Request, jobId: JobId) returns (r: Acceptance)
      requires Reachable(db) && jobId !in db.jobs
      modifies this
      ensures Reachable(db)
      ensures AcceptedAs(Existing(old(db), request), old(db).jobs, old(db).intake.counters, db, request, jobId, r)
      ensures !r.Conflict? ==>
        Existing(db, request) == Some(r.job) && Reply(request, r.job, r.revision) in db.intake.replies
      ensures db.latest == old(db).latest && db.catalog == old(db).catalog
      ensures db.intake.stores == old(db).intake.stores && db.intake.acks == old(db).intake.acks
    {
      var found := ExistingFor(request);
      if found.Some? {
        var row := db.jobs[found.value].row.id;
        r := if SameRequest(row, request) then Duplicate(found.value, row.revision) else Conflict;
        return;
      }
      var revision := ReserveRevision(request);
      InsertJobRows(request, revision, jobId);
      r := Accepted(jobId, revision);
    }

    /** One awaited statement about one job. */
    method TakeOn(j: JobId, step: JobStep)
      requires Reachable(db) && j in db.jobs
      modifies this
      ensures Reachable(db) && db == old(db).(jobs := old(db).jobs[j := Step(old(db).jobs[j], step)])
    {
      Take(OnJob(j, step));
    }

    /** Only a failed job is retried, once per failure, and always at the run after the failed one. */
    method ManualRetry(j: JobId) returns (retried: bool)
      requires Reachable(db) && j in db.jobs
      modifies this
      ensures Reachable(db) && j in db.jobs
      ensures retried <==> old(db).jobs[j].row.status == Failed
      ensures var row := old(db).jobs[j].row;
        && db.jobs[j].row == (if retried then JobRow(row.id, Queued, row.run + 1, false) else row)
        && db.jobs[j].outcomes == old(db).jobs[j].outcomes
      ensures db == old(db).(jobs := old(db).jobs[j := db.jobs[j]])
    {
      ReachableJob(db, j);
      var row := db.jobs[j].row;
      if row.status != Failed {
        return false;
      }
      RetryEffect(db.jobs[j]);
      TakeOn(j, ReadForRetry);
      TakeOn(j, RetryBatch(row.run));
      return true;
    }

    /** The guarded UPDATE of a queued row, then its outcome. */
    method CancelQueued(j: JobId)
      requires Reachable(db) && j in db.jobs && db.jobs[j].row.status == Queued
      modifies this
      ensures Reachable(db) && j in db.jobs && db == old(db).(jobs := old(db).jobs[j := db.jobs[j]])
      ensures var f := old(db).jobs[j];
        && db.jobs[j].row == f.row.(status := Cancelled)
        && db.jobs[j].outcomes == f.outcomes[f.row.run := Outcome(RunCancelled, None)]
    {
      ReachableJob(db, j);
      CancelEffect(db.jobs[j]);
      var run := db.jobs[j].row.run;
      TakeOn(j, ReadForCancel);
      TakeOn(j, MarkCancelled(run));
      TakeOn(j, InsertCancelled(run));
      TakeOn(j, ApplyOutcome(run));
    }

    /** A queued job ends cancelled with its outcome row; a running one is only asked to stop. */
    method Cancel(j: JobId) returns (status: Status)
      requires Reachable(db) && j in db.jobs
      modifies this
      ensures Reachable(db) && j in db.jobs
      ensures var row := old(db).jobs[j].row;
        && status == (if row.status == Queued then Cancelled else row.status)
        && db.jobs[j].row == row.(status := status, cancelRequested := row.status == Running || row.cancelRequested)
        && db.jobs[j].outcomes == (if row.status == Queued
                                   then old(db).jobs[j].outcomes[row.run := Outcome(RunCancelled, None)]
                                   else old(db).jobs[j].outcomes)
      ensures db == old(db).(jobs := old(db).jobs[j := db.jobs[j]])
    {
      var row := db.jobs[j].row;
      if row.status == Queued {
        CancelQueued(j);
        return Cancelled;
      }
      if row.status == Running {
        TakeOn(j, ReadForCancel);
        TakeOn(j, RequestCancel);
      }
      return row.status;
    }

    /** The workflow's catch block: an outcome the run already has is never replaced. */
    method RecordFailure(j: JobId, run: nat, cancelled: bool) returns (recorded: bool)
      requires Reachable(db) && j in db.jobs && run in db.jobs[j].passed
      modifies this
      ensures Reachable(db) && j in db.jobs
      ensures recorded <==> run !in old(db).jobs[j].outcomes
      ensures !recorded ==> db == old(db)
      ensures recorded ==>
        var status := if cancelled then RunCancelled else RunFailed;
        && run == old(db).jobs[j].row.run
        && db.jobs[j].row == old(db).jobs[j].row.(status := StatusOf(status))
        && db.jobs[j].outcomes == old(db).jobs[j].outcomes[run := Outcome(status, None)]
      ensures db == old(db).(jobs := old(db).jobs[j := db.jobs[j]])
    {
      ReachableJob(db, j);
      if run in db.jobs[j].outcomes {
        TakeOn(j, InsertFailure(run, cancelled));
        assert db.jobs == old(db).jobs;
        return false;
      }
      FailureEffect(db.jobs[j], run, cancelled);
      TakeOn(j, InsertFailure(run, cancelled));
      TakeOn(j, ApplyOutcome(run));
      return true;
    }

    /**
     Publishes a run's two tables, or rejects: for a table under another job's or revision's key, a
     run that is decided, or a newest revision whose table repeats an older revision's content.
     */
    method RecordSuccessAndPublish(call: PublishCall) returns (r: Publishing)
      requires Reachable(db) && call.job in db.jobs && call.run in db.jobs[call.job].passed
      modifies this
      ensures Reachable(db) && call.job in db.jobs
      ensures var f := old(db).jobs[call.job]; var id := f.row.id;
        r == Rejected <==>
          || !Publishable(old(db), call) || call.run in f.outcomes
          || (Newest(old(db).latest, id.profile, id.revision)
              && RepeatsContent(old(db).catalog.artifacts, id, call))
      ensures r == Rejected ==> db == old(db).(publishing := db.publishing)
      ensures r != Rejected ==>
        && call.run == old(db).jobs[call.job].row.run
        && PublishWrote(old(db).(publishing := db.publishing), db, call)
      ensures var id := old(db).jobs[call.job].row.id;
        r == Moved <==> r != Rejected && Newest(old(db).latest, id.profile, id.revision)
    {
      PreparedIsPublishable(db, call);
      if !Prepared(db, call) {
        return Rejected;
      }
      Take(Prepare(call));
      PublishEffect(db, call);
      var latest := db.latest;
      if PublishBatch(db, call).None? {
        return Rejected;
      }
      Take(Publish(call));
      r := if db.latest == latest then Stale else Moved;
    }

    method AcceptPlayEvent(request: Request, device: nat) returns (acknowledged: bool)
      requires Reachable(db)
      modifies this
      ensures Reachable(db) && db == old(db).(intake := db.intake)
        && Existing(db, request) == Existing(old(db), request)
      ensures acknowledged <==> Admits(StoreOf(old(db).intake, request.profile), request.event, request.digest, device)
      ensures !acknowledged ==> db == old(db)
      ensures acknowledged ==>
        var store := StoreOf(old(db).intake, request.profile);
        && Stored(db.intake, request) && db.intake.counters == old(db).intake.counters
        && StoreOf(db.intake, request.profile) == WithPlay(store, request, device, WasEnqueued(store, request.event))
        && OtherStoresKept(old(db).intake, db.intake, request.profile)
    {
      StoredEffect(db.intake, request, device);
      acknowledged := Admits(StoreOf(db.intake, request.profile), request.event, request.digest, device);
      Take(OnIntake(AcceptPlay(request.profile, request.event, request.digest, device)));
    }

    method MarkPlayEnqueued(request: Request, job: JobId, revision: nat)
      requires Reachable(db) && Stored(db.intake, request) && Reply(request, job, revision) in db.intake.replies
      modifies this
      ensures Reachable(db) && db == old(db).(intake := old(db).intake.(stores := db.intake.stores))
      ensures var store := StoreOf(old(db).intake, request.profile);
        && Stored(db.intake, request)
        && StoreOf(db.intake, request.profile) == WithPlay(store, request, store.plays[request.event].device, true)
        && OtherStoresKept(old(db).intake, db.intake, request.profile)
    {
      EnqueuedEffect(db.intake, request, job, revision);
      Take(OnIntake(MarkEnqueued(PlayAck(request.profile, request.event, request.digest))));
    }

    /** The play route: the profile object first, then the ledger, then the object's enqueued mark. */
    method HandlePlay(request: Request, device: nat, jobId: JobId) returns (r: PlayAnswer)
      requires Reachable(db) && jobId !in db.jobs
      modifies this
      ensures Reachable(db)
      ensures r.Refused? <==> !Admits(StoreOf(old(db).intake, request.profile), request.event, request.digest, device)
      ensures r.Refused? ==> db == old(db)
      ensures r.Played? ==>
        AcceptedAs(Existing(old(db), request), old(db).jobs, old(db).intake.counters, db, request, jobId, r.acceptance)
      ensures r.Played? ==>
        var store := StoreOf(old(db).intake, request.profile);
        && StoreOf(db.intake, request.profile)
           == WithPlay(store, request, device, !r.acceptance.Conflict? || WasEnqueued(store, request.event))
        && OtherStoresKept(old(db).intake, db.intake, request.profile)
      ensures r.Played? && !r.acceptance.Conflict? ==> Mirrored(db, request, r.acceptance)
      ensures db.latest == old(db).latest && db.catalog == old(db).catalog
    {
      var acknowledged := AcceptPlayEvent(request, device);
      if !acknowledged {
        return Refused;
      }
      var accepted := AcceptJob(request, jobId);
      if !accepted.Conflict? {
        ThenEnqueued(StoreOf(old(db).intake, request.profile), request, device);
        MarkPlayEnqueued(request, accepted.job, accepted.revision);
      }
      return Played(accepted);
    }
  }
}
