/**
 Runs of the ledger, from its initial state, that end where its rules let a job down: a job that can
 never end, and a publish that can never succeed.
 */
module LedgerExamples {
  import opened Common
  import opened JobRuns
  import opened Ledger
  import opened LedgerSafety
  import opened LedgerTheorems
  import opened LedgerCalls

  /** A request that nobody has made is accepted: its job is queued at the counter's next revision. */
  lemma Accepting(s: State, request: Request, job: JobId) returns (s': State)
    requires Reachable(s) && job !in s.jobs && Existing(s, request).None?
    ensures Reachable(s') && s'.latest == s.latest && s'.catalog == s.catalog && s'.publishing == s.publishing
    ensures var next := CounterOf(s.intake, request.profile) + 1;
      s'.jobs == s.jobs[job := FreshJob(IdentityOf(request, next))] && CounterOf(s'.intake, request.profile) == next
  {
    s' := Reserving(s, request);
    var revision := CounterOf(s'.intake, request.profile);
    ReachableFacts(s');
    Insertion(s', request, revision, job);
    ReachableSteps(s', InsertJob(request.profile, revision, job, true));
    s' := InsertedJob(s', request.profile, revision, job, true);
  }

  lemma Reserving(s: State, request: Request) returns (s': State)
    requires Reachable(s) && Existing(s, request).None?
    ensures Reachable(s') && s' == s.(intake := s'.intake) && Existing(s', request).None?
    ensures var next := CounterOf(s.intake, request.profile) + 1;
      && CounterOf(s'.intake, request.profile) == next
      && (request.profile, next) in s'.intake.reserved && s'.intake.reserved[(request.profile, next)] == request
  {
    ReachableFacts(s);
    EventLookup(RowsOf(s.jobs), s.intake, request);
    ReachableSteps(s, OnIntake(LookupEvent(request)));
    s' := Apply(s, OnIntake(LookupEvent(request)));
    KeyLookup(RowsOf(s'.jobs), s'.intake, request);
    ReachableSteps(s', OnIntake(LookupKey(request)));
    s' := Apply(s', OnIntake(LookupKey(request)));
    Reservation(s'.intake, request);
    ReachableSteps(s', OnIntake(EnsureCounter(request)));
    s' := Apply(s', OnIntake(EnsureCounter(request)));
    ReachableSteps(s', OnIntake(Reserve(request)));
    s' := Apply(s', OnIntake(Reserve(request)));
  }

  /** One more step of one job. */
  lemma Taking(s: State, job: JobId, f: JobFile, step: JobStep)
    requires job in s.jobs && Reachable(s.(jobs := s.jobs[job := f]))
    ensures Reachable(s.(jobs := s.jobs[job := Step(f, step)]))
  {
    var before := s.(jobs := s.jobs[job := f]);
    ReachableSteps(before, OnJob(job, step));
    assert Apply(before, OnJob(job, step)) == s.(jobs := s.jobs[job := Step(f, step)]);
  }

  /** A new job's first run is sent, claimed, started and past its checks. */
  lemma Starting(s: State, job: JobId) returns (s': State)
    requires Reachable(s) && job in s.jobs && s.jobs[job] == FreshJob(s.jobs[job].row.id)
    ensures Reachable(s') && job in s'.jobs && s' == s.(jobs := s.jobs[job := s'.jobs[job]])
    ensures var f := s'.jobs[job];
      f.row.id == s.jobs[job].row.id && f.row.run == 0 && f.row.status == Running && 0 in f.passed
        && f.outcomes == map[]
  {
    var id := s.jobs[job].row.id;
    var queued := FreshJob(id);
    assert s.(jobs := s.jobs[job := queued]) == s;
    Taking(s, job, queued, Send(0));
    var sent := Step(queued, Send(0));
    Taking(s, job, sent, SelectDelivery(1, 0));
    var seen := Step(sent, SelectDelivery(1, 0));
    Taking(s, job, seen, InsertDelivery(1, 0));
    var delivered := Step(seen, InsertDelivery(1, 0));
    FirstRunDelivered(id);
    ClaimedRunStarts(delivered);
    Taking(s, job, delivered, ReadForClaim(0));
    var read := Step(delivered, ReadForClaim(0));
    Taking(s, job, read, MarkRunning(0));
    var running := Step(read, MarkRunning(0));
    Taking(s, job, running, StartWorkflow(0));
    Taking(s, job, Step(running, StartWorkflow(0)), CheckRun(0));
    s' := s.(jobs := s.jobs[job := FirstRunStarted(id)]);
  }

  /** A run of the whole ledger in which a job is left running for good. */
  lemma StrandedRun(request: Request, job: JobId) returns (steps: seq<LedgerStep>)
    ensures var s := Run(Initial(), steps); job in s.jobs && Stranded(s.jobs[job])
  {
    assert Run(Initial(), []) == Initial();
    var accepted := Accepting(Initial(), request, job);
    var s := Starting(accepted, job);
    var f := s.jobs[job];
    assert s.(jobs := s.jobs[job := f]) == s;
    Taking(s, job, f, InsertFailure(0, false));
    Taking(s, job, Step(f, InsertFailure(0, false)), StopRecording(0));
    Stopping(f);
    var f' := Step(Step(f, InsertFailure(0, false)), StopRecording(0));
    steps :| s.(jobs := s.jobs[job := f']) == Run(Initial(), steps);
  }

  // ----- A publish that is refused ---------------------------------------------------------------

  /** The call of a job's first run that publishes these contents under the job's own keys. */
  function CallOf(id: Identity, job: JobId, manifest: Digest, recommend: Digest, today: Digest): PublishCall {
    PublishCall(job, 0, manifest,
                TableRef(recommend, TableHeader(id.profile, job, id.revision, Recommend, 0)),
                TableRef(today, TableHeader(id.profile, job, id.revision, Today, 0)))
  }

  /** A new request gets as far as its publish, which its reads let through. */
  lemma Preparing(s: State, request: Request, job: JobId, manifest: Digest, recommend: Digest, today: Digest)
    returns (s': State, call: PublishCall)
    requires Reachable(s) && job !in s.jobs && Existing(s, request).None?
    ensures Reachable(s') && s'.latest == s.latest && s'.catalog == s.catalog
      && CounterOf(s'.intake, request.profile) > 0
    ensures var id := IdentityOf(request, CounterOf(s.intake, request.profile) + 1);
      && call == CallOf(id, job, manifest, recommend, today) && call in s'.publishing
      && job in s'.jobs && s'.jobs == s.jobs[job := s'.jobs[job]]
      && s'.jobs[job].row.id == id && s'.jobs[job].row.status == Running && s'.jobs[job].outcomes == map[]
  {
    var accepted := Accepting(s, request, job);
    s' := Starting(accepted, job);
    var id := s'.jobs[job].row.id;
    call := CallOf(id, job, manifest, recommend, today);
    NothingStored(s', job);
    ReachableSteps(s', Prepare(call));
    s' := Apply(s', Prepare(call));
  }

  lemma NothingStored(s: State, j: JobId)
    requires Reachable(s) && j in s.jobs && s.jobs[j].row.status != Succeeded
    ensures forall kind: Kind :: (s.jobs[j].row.id.profile, kind, s.jobs[j].row.id.revision) !in s.catalog.artifacts
  {
    var steps :| s == Run(Initial(), steps);
    InitialOk();
    RunKeeps(Initial(), steps);
    NoArtifactYet(s, j);
  }

  /** Only a job of the same profile with the request's event or digest stands in its way. */
  lemma NobodyAsked(s: State, request: Request)
    requires Reachable(s)
    requires forall j :: j in s.jobs && s.jobs[j].row.id.profile == request.profile ==>
      s.jobs[j].row.id.event != request.event && s.jobs[j].row.id.digest != request.digest
    ensures Existing(s, request).None?
  {
    ReachableFacts(s);
    assert forall j :: j in s.jobs ==> RowsOf(s.jobs)[j] == s.jobs[j].row.id;
  }

  /** The first publish of an empty catalog goes through. */
  lemma FirstPublish(s: State, call: PublishCall)
    requires call.job in s.jobs && call.run !in s.jobs[call.job].outcomes && s.catalog == Catalog(map[], map[])
    ensures var id := s.jobs[call.job].row.id; var r := PublishBatch(s, call);
      && r.Some? && r.value.intake == s.intake && r.value.publishing == s.publishing
      && r.value.jobs == s.jobs[call.job := RecordSuccess(s.jobs[call.job], call.run, call.manifest)]
      && r.value.latest == MovePointer(s.latest, id.profile, Pointer(id.revision, call.job, call.manifest))
      && (id.profile, Recommend, id.revision) in r.value.catalog.artifacts
      && r.value.catalog.artifacts[(id.profile, Recommend, id.revision)] == call.recommend
  {
  }

  /** A request's job is accepted, run and published in an empty ledger. */
  lemma Publishing(request: Request, job: JobId, manifest: Digest, recommend: Digest, today: Digest) returns (s: State)
    ensures Reachable(s) && s.jobs.Keys == {job} && Wins(s.jobs, job)
    ensures var id := s.jobs[job].row.id;
      && id == IdentityOf(request, id.revision)
      && s.latest == map[request.profile := Pointer(id.revision, job, manifest)]
      && ContentTaken(s.catalog, request.profile, Recommend, recommend)
      && CounterOf(s.intake, request.profile) >= id.revision
  {
    assert Run(Initial(), []) == Initial();
    var call;
    s, call := Preparing(Initial(), request, job, manifest, recommend, today);
    FirstPublish(s, call);
    ReachableSteps(s, Publish(call));
    s := Apply(s, Publish(call));
  }

  lemma RefusedHere(s: State, call: PublishCall, winner: JobId)
    requires Reachable(s) && call in s.publishing && call.job in s.jobs && call.run !in s.jobs[call.job].outcomes
    requires Wins(s.jobs, winner)
    requires var id := s.jobs[call.job].row.id;
      Newest(s.latest, id.profile, id.revision)
        && ContentTaken(s.catalog, id.profile, Recommend, call.recommend.contentHash)
    ensures PublishBatch(s, call).None? && Won(s, winner)
  {
    var steps :| s == Run(Initial(), steps);
    InitialOk();
    RunKeeps(Initial(), steps);
    WonIsWins(s, winner);
    RefusedExactlyForRepeatedContent(s, call);
  }

  /**
   A run in which a job has won, and another of the same profile has passed every check with the
   same table content at a newer revision: its publish is refused.
   */
  lemma RefusedRun(first: Request, second: Request, winner: JobId, loser: JobId, manifest: Digest, recommend: Digest,
                   today: Digest, other: Digest)
    returns (steps: seq<LedgerStep>, call: PublishCall)
    requires first.profile == second.profile && first.event != second.event && first.digest != second.digest
      && winner != loser
    ensures var s := Run(Initial(), steps);
      && call in s.publishing && call.job == loser && {winner, loser} <= s.jobs.Keys
      && Won(s, winner) && first.profile in s.latest && s.latest[first.profile].job == winner
        && call.run !in s.jobs[loser].outcomes
      && s.jobs[loser].row.id.profile == s.jobs[winner].row.id.profile
      && s.jobs[winner].row.id.revision < s.jobs[loser].row.id.revision
      && call.recommend.contentHash == recommend && call.today.contentHash == other
      && PublishBatch(s, call).None?
  {
    var s := Publishing(first, winner, manifest, recommend, today);
    NobodyAsked(s, second);
    var s', c := Preparing(s, second, loser, manifest, recommend, other);
    call := c;
    RefusedHere(s', call, winner);
    steps :| s' == Run(Initial(), steps);
  }
}
