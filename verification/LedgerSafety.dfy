/** Safety of the job ledger over every run. */
module LedgerSafety {
  import opened Common
  import opened JobRuns
  import opened Ledger

  // ----- One job moves on ----------------------------------------------------------------------

  lemma PointersFollowJob(jobs: map<JobId, JobFile>, latest: map<ProfileId, Pointer>, j: JobId, f: JobFile)
    requires PointersOk(jobs, latest) && j in jobs && Continues(jobs[j], f)
    ensures PointersOk(jobs[j := f], latest)
  {
    var jobs' := jobs[j := f];
    forall i | Wins(jobs', i)
      ensures jobs'[i].row.id.profile in latest
      ensures jobs'[i].row.id.revision <= latest[jobs'[i].row.id.profile].revision
    { assert Wins(jobs, i); }
    forall p | p in latest ensures Named(jobs', p, latest[p]) {
      assert Named(jobs, p, latest[p]);
      if latest[p].job == j { WinnerStays(jobs[j], f); }
    }
  }

  lemma ArtifactsFollowJob(s: State, j: JobId, f: JobFile)
    requires ArtifactsOk(s.jobs, s.intake.revisions, s.catalog.artifacts)
    requires j in s.jobs && (s.jobs[j].row.status == Succeeded ==> f.row.status == Succeeded)
    ensures ArtifactsOk(s.jobs[j := f], s.intake.revisions, s.catalog.artifacts)
  {
    forall i | Wins(s.jobs, i) ensures Wins(s.jobs[j := f], i) {}
  }

  lemma RowsFollowJob(jobs: map<JobId, JobFile>, j: JobId, f: JobFile)
    requires j in jobs && f.row.id == jobs[j].row.id
    ensures RowsOf(jobs[j := f]) == RowsOf(jobs)
  {
  }

  lemma JobsFollowJob(jobs: map<JobId, JobFile>, j: JobId, f: JobFile)
    requires JobsOk(jobs) && JobInv(f)
    ensures JobsOk(jobs[j := f])
  {
  }

  lemma PublishingFollowsJob(s: State, j: JobId, f: JobFile)
    requires PublishingOk(s.jobs, s.publishing)
    requires j in s.jobs && f.row.id == s.jobs[j].row.id && s.jobs[j].passed <= f.passed
    ensures PublishingOk(s.jobs[j := f], s.publishing)
  {
  }

  lemma OnJobKeeps(s: State, j: JobId, step: JobStep)
    requires Inv(s) && j in s.jobs
    ensures Inv(s.(jobs := s.jobs[j := Step(s.jobs[j], step)]))
  {
    var f := Step(s.jobs[j], step);
    StepKeeps(s.jobs[j], step);
    RowsFollowJob(s.jobs, j, f);
    PointersFollowJob(s.jobs, s.latest, j, f);
    ArtifactsFollowJob(s, j, f);
    JobsFollowJob(s.jobs, j, f);
    PublishingFollowsJob(s, j, f);
  }

  // ----- A publish batch commits ---------------------------------------------------------------

  /** Whether this revision is the one the profile should show from now on. */
  predicate Newest(latest: map<ProfileId, Pointer>, p: ProfileId, revision: nat) {
    p in latest ==> latest[p].revision < revision
  }

  predicate NewestTable(c: Catalog, p: ProfileId, kind: Kind, revision: nat) {
    (p, kind) in c.latest ==> c.latest[(p, kind)].revision < revision
  }

  /** One table's committed statements: its latest row moves exactly to a newest revision. */
  lemma TableEffect(c: Catalog, p: ProfileId, kind: Kind, revision: nat, table: TableRef)
    requires PublishTable(c, p, kind, revision, table).Some?
    ensures var c' := PublishTable(c, p, kind, revision, table).value;
      && c'.latest == (if NewestTable(c, p, kind, revision)
                       then c.latest[(p, kind) := LatestTable(revision, table)] else c.latest)
      && c'.artifacts.Keys <= c.artifacts.Keys + {(p, kind, revision)}
  {
  }

  /** Both tables follow the profile's pointer. */
  lemma TablesEffect(c: Catalog, latest: map<ProfileId, Pointer>, p: ProfileId, revision: nat,
                     recommend: TableRef, today: TableRef)
    requires TablesOk(latest, c.latest) && PublishTables(c, p, revision, recommend, today).Some?
    ensures var c' := PublishTables(c, p, revision, recommend, today).value;
      && c'.latest == (if Newest(latest, p, revision)
                       then c.latest[(p, Recommend) := LatestTable(revision, recommend)]
                                    [(p, Today) := LatestTable(revision, today)]
                       else c.latest)
      && c'.artifacts.Keys <= c.artifacts.Keys + {(p, Recommend, revision), (p, Today, revision)}
  {
    TableEffect(c, p, Recommend, revision, recommend);
    TableEffect(PublishTable(c, p, Recommend, revision, recommend).value, p, Today, revision, today);
    if p in latest { assert (p, Recommend) in c.latest && (p, Today) in c.latest; }
  }

  /** A new winner: pointer and rows move together or, for an older revision, not at all. */
  lemma WinnerKeepsPointers(jobs: map<JobId, JobFile>, latest: map<ProfileId, Pointer>, j: JobId, f: JobFile,
                            manifest: Digest)
    requires PointersOk(jobs, latest) && j in jobs && f.row.id == jobs[j].row.id
    requires jobs[j].row.status != Succeeded && f.row.status == Succeeded
    requires f.row.run in f.outcomes && f.outcomes[f.row.run] == Outcome(RunSucceeded, Some(manifest))
    ensures PointersOk(jobs[j := f], MovePointer(latest, f.row.id.profile, Pointer(f.row.id.revision, j, manifest)))
  {
    var latest' := MovePointer(latest, f.row.id.profile, Pointer(f.row.id.revision, j, manifest));
    var jobs' := jobs[j := f];
    forall i | Wins(jobs', i)
      ensures jobs'[i].row.id.profile in latest'
      ensures jobs'[i].row.id.revision <= latest'[jobs'[i].row.id.profile].revision
    {
      if i != j { assert Wins(jobs, i); }
    }
    forall p | p in latest' ensures Named(jobs', p, latest'[p]) {
      if p in latest && latest'[p] == latest[p] { assert Named(jobs, p, latest[p]); }
    }
  }

  lemma WinnerKeepsTables(c: Catalog, latest: map<ProfileId, Pointer>, j: JobId, id: Identity, manifest: Digest,
                          recommend: TableRef, today: TableRef)
    requires TablesOk(latest, c.latest) && PublishTables(c, id.profile, id.revision, recommend, today).Some?
    requires KeyMatches(recommend, id, j, Recommend) && KeyMatches(today, id, j, Today)
    ensures TablesOk(MovePointer(latest, id.profile, Pointer(id.revision, j, manifest)),
                     PublishTables(c, id.profile, id.revision, recommend, today).value.latest)
  {
    TablesEffect(c, latest, id.profile, id.revision, recommend, today);
    var latest' := MovePointer(latest, id.profile, Pointer(id.revision, j, manifest));
    var tables' := PublishTables(c, id.profile, id.revision, recommend, today).value.latest;
    forall p, kind: Kind | p in latest'
      ensures (p, kind) in tables' && TableNamed(p, kind, latest'[p], tables'[(p, kind)])
    {
      if p in latest { assert (p, kind) in c.latest && TableNamed(p, kind, latest[p], c.latest[(p, kind)]); }
      assert kind == Recommend || kind == Today;
    }
  }

  lemma WinnerKeepsArtifacts(s: State, j: JobId, f: JobFile, artifacts: map<(ProfileId, Kind, nat), TableRef>)
    requires ArtifactsOk(s.jobs, s.intake.revisions, s.catalog.artifacts)
      && RevisionsOk(RowsOf(s.jobs), s.intake.revisions)
    requires j in s.jobs && f.row.status == Succeeded && f.row.id == s.jobs[j].row.id
    requires artifacts.Keys <= s.catalog.artifacts.Keys
                + {(f.row.id.profile, Recommend, f.row.id.revision), (f.row.id.profile, Today, f.row.id.revision)}
    ensures ArtifactsOk(s.jobs[j := f], s.intake.revisions, artifacts)
  {
    assert RowsOf(s.jobs)[j] == f.row.id;
    forall i | Wins(s.jobs, i) ensures Wins(s.jobs[j := f], i) {}
  }

  lemma PublishKeeps(s: State, call: PublishCall)
    requires Inv(s) && call in s.publishing && PublishBatch(s, call).Some?
    ensures Inv(PublishBatch(s, call).value)
  {
    var f := s.jobs[call.job];
    var id := f.row.id;
    SuccessKeeps(f, call.run, call.manifest);
    var f' := RecordSuccess(f, call.run, call.manifest);
    TablesEffect(s.catalog, s.latest, id.profile, id.revision, call.recommend, call.today);
    WinnerKeepsPointers(s.jobs, s.latest, call.job, f', call.manifest);
    WinnerKeepsTables(s.catalog, s.latest, call.job, id, call.manifest, call.recommend, call.today);
    WinnerKeepsArtifacts(s, call.job, f', PublishBatch(s, call).value.catalog.artifacts);
    RowsFollowJob(s.jobs, call.job, f');
    JobsFollowJob(s.jobs, call.job, f');
    PublishingFollowsJob(s, call.job, f');
  }

  // ----- Acceptance and the profile object -----------------------------------------------------

  lemma EventTaken(rows: Rows, events: map<(ProfileId, EventId), JobId>, id: Identity, job: JobId)
    requires EventsOk(rows, events) && job !in rows && (id.profile, id.event) !in events
    ensures EventsOk(rows[job := id], events[(id.profile, id.event) := job])
  {
  }

  lemma DigestTaken(rows: Rows, digests: map<(ProfileId, Digest), JobId>, id: Identity, job: JobId)
    requires DigestsOk(rows, digests) && job !in rows && (id.profile, id.digest) !in digests
    ensures DigestsOk(rows[job := id], digests[(id.profile, id.digest) := job])
  {
  }

  lemma RevisionTaken(rows: Rows, revisions: map<(ProfileId, nat), JobId>, id: Identity, job: JobId)
    requires RevisionsOk(rows, revisions) && job !in rows && (id.profile, id.revision) !in revisions
    ensures RevisionsOk(rows[job := id], revisions[(id.profile, id.revision) := job])
  {
  }

  lemma StoresKeepJobs(rows: Rows, events: map<(ProfileId, EventId), JobId>, stores: map<ProfileId, PlayStore>,
                       id: Identity, job: JobId)
    requires StoresOk(rows, events, stores) && job !in rows && (id.profile, id.event) !in events
    ensures StoresOk(rows[job := id], events[(id.profile, id.event) := job], stores)
  {
  }

  lemma ReservationUsed(x: Intake, p: ProfileId, revision: nat, job: JobId)
    requires CountersOk(x.revisions, x.counters, x.reserved) && (p, revision) in x.reserved
    ensures CountersOk(x.revisions, x.counters, x.reserved - {(p, revision)})
    ensures CountersOk(x.revisions[(p, revision) := job], x.counters, x.reserved - {(p, revision)})
  {
  }

  lemma CounterAdvanced(x: Intake, request: Request)
    requires CountersOk(x.revisions, x.counters, x.reserved) && request.profile in x.counters
    ensures var next := x.counters[request.profile] + 1;
      CountersOk(x.revisions, x.counters[request.profile := next], x.reserved[(request.profile, next) := request])
  {
  }

  lemma IntakeTakesKeys(rows: Rows, x: Intake, id: Identity, job: JobId)
    requires IntakeOk(rows, x) && KeysFree(rows, x, id, job)
    requires CountersOk(x.revisions[(id.profile, id.revision) := job], x.counters, x.reserved)
    ensures IntakeOk(rows[job := id], KeysTaken(x, id, job))
  {
    EventTaken(rows, x.events, id, job);
    DigestTaken(rows, x.digests, id, job);
    RevisionTaken(rows, x.revisions, id, job);
    StoresKeepJobs(rows, x.events, x.stores, id, job);
    RepliesKeepJobs(rows, x.replies, id, job);
  }

  lemma RepliesKeepJobs(rows: Rows, replies: set<Reply>, id: Identity, job: JobId)
    requires RepliesOk(rows, replies) && job !in rows
    ensures RepliesOk(rows[job := id], replies)
  {
  }

  lemma AnswerIsRight(rows: Rows, x: Intake, job: JobId, request: Request)
    requires RepliesOk(rows, x.replies)
    ensures RepliesOk(rows, AnswerFrom(rows, x, job, request).replies)
  {
  }

  lemma AnswerKeeps(rows: Rows, x: Intake, job: JobId, request: Request)
    requires IntakeOk(rows, x)
    ensures IntakeOk(rows, AnswerFrom(rows, x, job, request))
  {
    assert RepliesOk(rows, AnswerFrom(rows, x, job, request).replies) by { AnswerIsRight(rows, x, job, request); }
  }

  lemma InsertKeepsPointers(jobs: map<JobId, JobFile>, latest: map<ProfileId, Pointer>, id: Identity, job: JobId)
    requires PointersOk(jobs, latest) && job !in jobs
    ensures PointersOk(jobs[job := FreshJob(id)], latest)
  {
    var jobs' := jobs[job := FreshJob(id)];
    forall i | Wins(jobs', i)
      ensures jobs'[i].row.id.profile in latest
      ensures jobs'[i].row.id.revision <= latest[jobs'[i].row.id.profile].revision
    { assert Wins(jobs, i); }
    forall p | p in latest ensures Named(jobs', p, latest[p]) { assert Named(jobs, p, latest[p]); }
  }

  lemma InsertKeepsArtifacts(s: State, id: Identity, job: JobId)
    requires ArtifactsOk(s.jobs, s.intake.revisions, s.catalog.artifacts)
    requires job !in s.jobs && (id.profile, id.revision) !in s.intake.revisions
    ensures ArtifactsOk(s.jobs[job := FreshJob(id)], s.intake.revisions[(id.profile, id.revision) := job],
      s.catalog.artifacts)
  {
    forall i | Wins(s.jobs, i) ensures Wins(s.jobs[job := FreshJob(id)], i) {}
  }

  lemma InsertKeepsPublishing(s: State, id: Identity, job: JobId)
    requires PublishingOk(s.jobs, s.publishing) && job !in s.jobs
    ensures PublishingOk(s.jobs[job := FreshJob(id)], s.publishing)
  {
  }

  lemma InsertKeepsPublication(s: State, id: Identity, job: JobId)
    requires PublicationOk(s.jobs, s.intake.revisions, s.latest, s.catalog, s.publishing)
    requires job !in s.jobs && (id.profile, id.revision) !in s.intake.revisions
    ensures PublicationOk(s.jobs[job := FreshJob(id)], s.intake.revisions[(id.profile, id.revision) := job],
                          s.latest, s.catalog, s.publishing)
  {
    FreshJobOk(id);
    JobsFollowJob(s.jobs, job, FreshJob(id));
    InsertKeepsPointers(s.jobs, s.latest, id, job);
    InsertKeepsArtifacts(s, id, job);
    InsertKeepsPublishing(s, id, job);
  }

  lemma ReservationSpent(rows: Rows, x: Intake, p: ProfileId, revision: nat)
    requires IntakeOk(rows, x) && (p, revision) in x.reserved
    ensures IntakeOk(rows, x.(reserved := x.reserved - {(p, revision)}))
  {
    ReservationUsed(x, p, revision, 0);
  }

  lemma RowsGrow(jobs: map<JobId, JobFile>, job: JobId, id: Identity)
    ensures RowsOf(jobs[job := FreshJob(id)]) == RowsOf(jobs)[job := id]
  {
  }

  lemma InsertedJobKeeps(s: State, p: ProfileId, revision: nat, job: JobId, answered: bool)
    requires Inv(s)
    ensures Inv(InsertedJob(s, p, revision, job, answered))
  {
    if (p, revision) in s.intake.reserved {
      var request := s.intake.reserved[(p, revision)];
      var id := IdentityOf(request, revision);
      var rows := RowsOf(s.jobs);
      var x := s.intake.(reserved := s.intake.reserved - {(p, revision)});
      ReservationSpent(rows, s.intake, p, revision);
      if KeysFree(rows, x, id, job) {
        CommittedInsertKeeps(s, p, revision, job);
        AnswerKeeps(rows[job := id], KeysTaken(x, id, job), job, request);
        RowsGrow(s.jobs, job, id);
      }
    }
  }

  lemma CommittedInsertKeeps(s: State, p: ProfileId, revision: nat, job: JobId)
    requires Inv(s) && (p, revision) in s.intake.reserved
    requires KeysFree(RowsOf(s.jobs), s.intake, IdentityOf(s.intake.reserved[(p, revision)], revision), job)
    ensures var id := IdentityOf(s.intake.reserved[(p, revision)], revision);
      var x := s.intake.(reserved := s.intake.reserved - {(p, revision)});
      && IntakeOk(RowsOf(s.jobs)[job := id], KeysTaken(x, id, job))
      && PublicationOk(s.jobs[job := FreshJob(id)], KeysTaken(x, id, job).revisions, s.latest, s.catalog, s.publishing)
  {
    var id := IdentityOf(s.intake.reserved[(p, revision)], revision);
    var x := s.intake.(reserved := s.intake.reserved - {(p, revision)});
    ReservationUsed(s.intake, p, revision, job);
    ReservationSpent(RowsOf(s.jobs), s.intake, p, revision);
    IntakeTakesKeys(RowsOf(s.jobs), x, id, job);
    InsertKeepsPublication(s, id, job);
  }

  lemma LookupEventKeeps(rows: Rows, x: Intake, request: Request)
    requires IntakeOk(rows, x)
    ensures IntakeOk(rows, LookedUpEvent(rows, x, request))
  {
    if (request.profile, request.event) in x.events {
      AnswerKeeps(rows, x, x.events[(request.profile, request.event)], request);
    }
  }

  lemma LookupKeyKeeps(rows: Rows, x: Intake, request: Request)
    requires IntakeOk(rows, x)
    ensures IntakeOk(rows, LookedUpKey(rows, x, request))
  {
    if request in x.eventMissed && (request.profile, request.digest) in x.digests {
      AnswerKeeps(rows, x, x.digests[(request.profile, request.digest)], request);
    }
  }

  lemma CounterEnsured(x: Intake, request: Request)
    requires CountersOk(x.revisions, x.counters, x.reserved)
    ensures CountersOk(x.revisions, EnsuredCounter(x, request).counters, x.reserved)
  {
  }

  lemma CountingKeeps(rows: Rows, x: Intake, request: Request)
    requires IntakeOk(rows, x)
    ensures IntakeOk(rows, EnsuredCounter(x, request)) && IntakeOk(rows, Reserved(x, request))
  {
    EnsuringKeeps(rows, x, request);
    ReservingKeeps(rows, x, request);
  }

  lemma EnsuringKeeps(rows: Rows, x: Intake, request: Request)
    requires IntakeOk(rows, x)
    ensures IntakeOk(rows, EnsuredCounter(x, request))
  {
    CounterEnsured(x, request);
  }

  lemma ReservingKeeps(rows: Rows, x: Intake, request: Request)
    requires IntakeOk(rows, x)
    ensures IntakeOk(rows, Reserved(x, request))
  {
    if request.profile in x.counters { CounterAdvanced(x, request); }
  }

  /** A new play takes the next revision of its object; the count of plays follows. */
  lemma PlayStored(rows: Rows, events: map<(ProfileId, EventId), JobId>, p: ProfileId, store: PlayStore,
                   e: EventId, digest: Digest, device: nat)
    requires StoreOk(rows, events, p, store) && e !in store.plays
    ensures StoreOk(rows, events, p, StoredPlay(store, e, digest, device))
  {
  }

  /** The route marks a play only after the ledger answered for its event, with the digest it stored. */
  lemma PlayEnqueued(rows: Rows, x: Intake, ack: PlayAck)
    requires EventsOk(rows, x.events) && RepliesOk(rows, x.replies) && Answered(x, ack)
    requires ack.profile in x.stores && !x.stores[ack.profile].purged
    requires StoreOk(rows, x.events, ack.profile, x.stores[ack.profile]) && AckOk(x.stores[ack.profile], ack)
    ensures StoreOk(rows, x.events, ack.profile, Enqueued(x.stores[ack.profile], ack.event))
  {
    var plays, plays' := x.stores[ack.profile].plays, Enqueued(x.stores[ack.profile], ack.event).plays;
    assert plays'.Keys == plays.Keys;
    assert |plays'| == |plays'.Keys| && |plays| == |plays.Keys|;
    var r :| r in x.replies && r.request.profile == ack.profile && r.request.event == ack.event
             && r.request.digest == ack.digest;
    assert r.job in rows;
  }

  lemma StoreReplaced(rows: Rows, x: Intake, p: ProfileId, store: PlayStore, acks: set<PlayAck>)
    requires IntakeOk(rows, x)
    requires !store.purged ==> StoreOk(rows, x.events, p, store)
    requires AcksOk(x.stores[p := store], acks)
    ensures IntakeOk(rows, x.(stores := x.stores[p := store], acks := acks))
  {
  }

  lemma AcksFollow(stores: map<ProfileId, PlayStore>, acks: set<PlayAck>, p: ProfileId, store: PlayStore, ack: PlayAck)
    requires AcksOk(stores, acks) && ack.profile == p && AckOk(store, ack)
    requires p in stores && !store.purged ==>
      !stores[p].purged && forall e :: e in stores[p].plays ==>
        e in store.plays && store.plays[e].digest == stores[p].plays[e].digest
    ensures AcksOk(stores[p := store], acks + {ack})
  {
  }

  lemma AckAdded(rows: Rows, x: Intake, ack: PlayAck)
    requires IntakeOk(rows, x) && ack.profile in x.stores && AckOk(x.stores[ack.profile], ack)
    ensures IntakeOk(rows, x.(acks := x.acks + {ack}))
  {
  }

  lemma NewPlayKeeps(rows: Rows, x: Intake, p: ProfileId, e: EventId, digest: Digest, device: nat)
    requires IntakeOk(rows, x) && !StoreOf(x, p).tombstone && e !in StoreOf(x, p).plays
    ensures IntakeOk(rows, AcceptedPlay(x, p, e, digest, device))
  {
    var store, ack := StoreOf(x, p), PlayAck(p, e, digest);
    if !store.purged { PlayStored(rows, x.events, p, store, e, digest, device); }
    AcksFollow(x.stores, x.acks, p, StoredPlay(store, e, digest, device), ack);
    StoreReplaced(rows, x, p, StoredPlay(store, e, digest, device), x.acks + {ack});
  }

  lemma AcceptedPlayKeeps(rows: Rows, x: Intake, p: ProfileId, e: EventId, digest: Digest, device: nat)
    requires IntakeOk(rows, x)
    ensures IntakeOk(rows, AcceptedPlay(x, p, e, digest, device))
  {
    var store, ack := StoreOf(x, p), PlayAck(p, e, digest);
    if !store.tombstone && e !in store.plays {
      NewPlayKeeps(rows, x, p, e, digest, device);
    } else if !store.tombstone && store.plays[e].digest == digest {
      AckAdded(rows, x, ack);
    }
  }

  lemma EnqueuedAcksOk(stores: map<ProfileId, PlayStore>, acks: set<PlayAck>, p: ProfileId, e: EventId)
    requires AcksOk(stores, acks) && p in stores && e in stores[p].plays
    ensures AcksOk(stores[p := Enqueued(stores[p], e)], acks)
  {
  }

  lemma EnqueuedPlayKeeps(rows: Rows, x: Intake, ack: PlayAck)
    requires IntakeOk(rows, x)
    ensures IntakeOk(rows, EnqueuedPlay(x, ack))
  {
    var store := StoreOf(x, ack.profile);
    if ack in x.acks && Answered(x, ack) && ack.event in store.plays {
      var store' := Enqueued(store, ack.event);
      assert !store.purged ==> StoreOk(rows, x.events, ack.profile, store') by {
        if !store.purged { PlayEnqueued(rows, x, ack); }
      }
      EnqueuedAcksOk(x.stores, x.acks, ack.profile, ack.event);
      StoreReplaced(rows, x, ack.profile, store', x.acks);
    }
  }

  lemma PurgeKeeps(rows: Rows, x: Intake, p: ProfileId)
    requires IntakeOk(rows, x)
    ensures IntakeOk(rows, PurgedStore(x, p)) && IntakeOk(rows, TombstonedStore(x, p))
  {
    PurgedAcksOk(x.stores, x.acks, p, PlayStore(map[], 0, false, true));
    StoreReplaced(rows, x, p, PlayStore(map[], 0, false, true), x.acks);
    if StoreOf(x, p).purged {
      PurgedAcksOk(x.stores, x.acks, p, StoreOf(x, p).(tombstone := true));
      StoreReplaced(rows, x, p, StoreOf(x, p).(tombstone := true), x.acks);
    }
  }

  lemma PurgedAcksOk(stores: map<ProfileId, PlayStore>, acks: set<PlayAck>, p: ProfileId, store: PlayStore)
    requires AcksOk(stores, acks) && store.purged
    ensures AcksOk(stores[p := store], acks)
  {
  }

  // ----- Every step, every run -----------------------------------------------------------------

  lemma IntakeStepKeeps(s: State, x: Intake)
    requires Inv(s) && IntakeOk(RowsOf(s.jobs), x) && x.revisions == s.intake.revisions
    ensures Inv(s.(intake := x))
  {
  }

  predicate OfObject(step: IntakeStep) {
    step.AcceptPlay? || step.MarkEnqueued? || step.PurgeStore? || step.PlaceTombstone?
  }

  lemma ObjectStepKeeps(rows: Rows, x: Intake, step: IntakeStep)
    requires IntakeOk(rows, x) && OfObject(step)
    ensures IntakeOk(rows, TakeIntake(rows, x, step))
  {
    match step
    case AcceptPlay(p, e, digest, device) =>
      AcceptedPlayKeeps(rows, x, p, e, digest, device);
      assert TakeIntake(rows, x, step) == AcceptedPlay(x, p, e, digest, device);
    case MarkEnqueued(ack) =>
      EnqueuedPlayKeeps(rows, x, ack);
      assert TakeIntake(rows, x, step) == EnqueuedPlay(x, ack);
    case PurgeStore(p) =>
      PurgeKeeps(rows, x, p);
      assert TakeIntake(rows, x, step) == PurgedStore(x, p);
    case PlaceTombstone(p) =>
      PurgeKeeps(rows, x, p);
      assert TakeIntake(rows, x, step) == TombstonedStore(x, p);
  }

  lemma RevisionsUntouched(rows: Rows, x: Intake, step: IntakeStep)
    ensures TakeIntake(rows, x, step).revisions == x.revisions
  {
  }

  lemma TakeIntakeKeeps(rows: Rows, x: Intake, step: IntakeStep)
    requires IntakeOk(rows, x)
    ensures IntakeOk(rows, TakeIntake(rows, x, step))
  {
    match step
    case LookupEvent(request) => LookupEventKeeps(rows, x, request);
    case LookupKey(request) => LookupKeyKeeps(rows, x, request);
    case EnsureCounter(request) => CountingKeeps(rows, x, request);
    case Reserve(request) => CountingKeeps(rows, x, request);
    case _ => ObjectStepKeeps(rows, x, step);
  }

  lemma PreparedKeeps(s: State, call: PublishCall)
    requires PublishingOk(s.jobs, s.publishing) && Prepared(s, call)
    ensures PublishingOk(s.jobs, s.publishing + {call})
  {
  }

  lemma PublishedKeeps(s: State, call: PublishCall)
    requires Inv(s)
    ensures Inv(Published(s, call))
  {
    if call in s.publishing && call.job in s.jobs && PublishBatch(s, call).Some? { PublishKeeps(s, call); }
  }

  lemma OnIntakeKeeps(s: State, step: IntakeStep)
    requires Inv(s)
    ensures Inv(s.(intake := TakeIntake(RowsOf(s.jobs), s.intake, step)))
  {
    var x := TakeIntake(RowsOf(s.jobs), s.intake, step);
    TakeIntakeKeeps(RowsOf(s.jobs), s.intake, step);
    RevisionsUntouched(RowsOf(s.jobs), s.intake, step);
    IntakeStepKeeps(s, x);
  }

  lemma ApplyKeeps(s: State, step: LedgerStep)
    requires Inv(s)
    ensures Inv(Apply(s, step))
  {
    match step
    case OnJob(j, jobStep) =>
      if j in s.jobs {
        OnJobKeeps(s, j, jobStep);
        assert Apply(s, step) == s.(jobs := s.jobs[j := Step(s.jobs[j], jobStep)]);
      } else {
        assert Apply(s, step) == s;
      }
    case Prepare(call) =>
      if Prepared(s, call) {
        PreparedKeeps(s, call);
        assert Apply(s, step) == s.(publishing := s.publishing + {call});
      } else {
        assert Apply(s, step) == s;
      }
    case Publish(call) =>
      PublishedKeeps(s, call);
      assert Apply(s, step) == Published(s, call);
    case InsertJob(p, revision, job, answered) =>
      InsertedJobKeeps(s, p, revision, job, answered);
      assert Apply(s, step) == InsertedJob(s, p, revision, job, answered);
    case OnIntake(intakeStep) =>
      OnIntakeKeeps(s, intakeStep);
      assert Apply(s, step) == s.(intake := TakeIntake(RowsOf(s.jobs), s.intake, intakeStep));
  }

  lemma InitialOk()
    ensures Inv(Initial())
  {
  }

  lemma {:induction false} RunKeeps(s: State, steps: seq<LedgerStep>)
    requires Inv(s)
    ensures Inv(Run(s, steps))
    decreases |steps|
  {
    if steps != [] {
      ApplyKeeps(s, steps[0]);
      RunKeeps(Apply(s, steps[0]), steps[1..]);
    }
  }
}
