/**
 The job ledger as one protocol: acceptance with reserved revisions, the runs of every job, the
 publish batch, and the profile object that stores plays before the ledger sees them
 (cloudflare/worker/src/job-ledger.ts, profile-do.ts, index.ts; migrations 0001, 0006, 0007).

 Tables are maps on their unique keys.  Tables whose key starts with a job id are held in that
 job's `JobFile`.  `Apply` is one atomic D1 or storage step of any call in flight.
 */
module Ledger {
  import opened Common
  import opened JobRuns

  type JobId = nat

  datatype Kind = Recommend | Today

  /** A table header's key, split at `profiles/<p>/jobs/<j>/revisions/<r>/table/<kind>/.../header.json`. */
  datatype ObjectKey =
    | TableHeader(profile: ProfileId, job: JobId, revision: nat, kind: Kind, tail: nat)
    | OtherKey(text: nat)

  datatype TableRef = TableRef(contentHash: Digest, objectKey: ObjectKey)

  datatype Pointer = Pointer(revision: nat, job: JobId, manifest: Digest)

  datatype LatestTable = LatestTable(revision: nat, table: TableRef)

  datatype Catalog = Catalog(
    artifacts: map<(ProfileId, Kind, nat), TableRef>,  // artifact_revisions UNIQUE(profile_id, table_kind, revision)
    latest: map<(ProfileId, Kind), LatestTable>)       // artifact_latest

  /** `recordSuccessAndPublish` past its reads and checks, about to send its batch. */
  datatype PublishCall = PublishCall(job: JobId, run: nat, manifest: Digest, recommend: TableRef, today: TableRef)

  datatype Request = Request(profile: ProfileId, event: EventId, digest: Digest, body: RequestBody)

  /** A success `acceptJob` returned; accepted and duplicate answers carry the same envelope. */
  datatype Reply = Reply(request: Request, job: JobId, revision: nat)

  datatype PlayRecord = PlayRecord(digest: Digest, device: nat, revision: nat, enqueued: bool)

  /** The storage of one profile's durable object; `purged` is history, not storage. */
  datatype PlayStore = PlayStore(plays: map<EventId, PlayRecord>, revision: nat, tombstone: bool, purged: bool)

  datatype PlayAck = PlayAck(profile: ProfileId, event: EventId, digest: Digest)

  /** What acceptance reads and writes: unique keys, revision counters, and its calls in flight. */
  datatype Intake = Intake(
    events: map<(ProfileId, EventId), JobId>,          // job_events UNIQUE(profile_id, event_id)
    digests: map<(ProfileId, Digest), JobId>,          // jobs UNIQUE(profile_id, idempotency_key)
    revisions: map<(ProfileId, nat), JobId>,           // job_revisions UNIQUE(owner, revision)
    counters: map<ProfileId, nat>,                     // profile_revision_counters
    eventMissed: set<Request>,                         // acceptJob read no job for the event
    keyMissed: set<Request>,                           // ... nor for the idempotency key
    counting: set<Request>,                            // ... and made sure the counter row exists
    reserved: map<(ProfileId, nat), Request>,          // ... and holds this revision
    replies: set<Reply>,
    stores: map<ProfileId, PlayStore>,
    acks: set<PlayAck>)                                // handlePlayRoute holds this answer of the object

  datatype State = State(
    jobs: map<JobId, JobFile>,
    intake: Intake,
    latest: map<ProfileId, Pointer>,                   // latest_pointers
    catalog: Catalog,
    publishing: set<PublishCall>)

  datatype IntakeStep =
    | LookupEvent(request: Request)
    | LookupKey(request: Request)
    | EnsureCounter(request: Request)
    | Reserve(request: Request)
    | AcceptPlay(profile: ProfileId, event: EventId, digest: Digest, device: nat)
    | MarkEnqueued(ack: PlayAck)
    | PurgeStore(profile: ProfileId)
    | PlaceTombstone(profile: ProfileId)

  datatype LedgerStep =
    | OnJob(job: JobId, step: JobStep)
    | OnIntake(intakeStep: IntakeStep)
    | InsertJob(profile: ProfileId, revision: nat, job: JobId, answered: bool)
    | Prepare(call: PublishCall)
    | Publish(call: PublishCall)

  function Initial(): State {
    State(map[], Intake(map[], map[], map[], map[], {}, {}, {}, map[], {}, map[], {}), map[], Catalog(map[], map[]), {})
  }

  // ----- Publication ---------------------------------------------------------------------------

  predicate KeyMatches(table: TableRef, id: Identity, job: JobId, kind: Kind) {
    table.objectKey.TableHeader?
    && table.objectKey == TableHeader(id.profile, job, id.revision, kind, table.objectKey.tail)
  }

  /** A stored artifact of this revision that the call would have to contradict. */
  predicate Contradicts(s: State, id: Identity, kind: Kind, table: TableRef) {
    (id.profile, kind, id.revision) in s.catalog.artifacts
      && s.catalog.artifacts[(id.profile, kind, id.revision)] != table
  }

  predicate Prepared(s: State, call: PublishCall) {
    && call.job in s.jobs
    && var f := s.jobs[call.job];
    && call.run in f.passed
    && KeyMatches(call.recommend, f.row.id, call.job, Recommend) && !Contradicts(s, f.row.id, Recommend, call.recommend)
    && KeyMatches(call.today, f.row.id, call.job, Today) && !Contradicts(s, f.row.id, Today, call.today)
  }

  /** UNIQUE(profile_id, table_kind, content_hash): another revision already has this content. */
  predicate ContentTaken(c: Catalog, p: ProfileId, kind: Kind, content: Digest) {
    exists key :: key in c.artifacts && key.0 == p && key.1 == kind && c.artifacts[key].contentHash == content
  }

  /**
   One table's two statements: INSERT OR IGNORE into artifact_revisions, then the guarded upsert of
   artifact_latest, whose foreign key wants exactly that artifact row.  None rolls the batch back.
   */
  function PublishTable(c: Catalog, p: ProfileId, kind: Kind, revision: nat, table: TableRef): Option<Catalog> {
    var ignored := (p, kind, revision) in c.artifacts || ContentTaken(c, p, kind, table.contentHash);
    var artifacts := if ignored then c.artifacts else c.artifacts[(p, kind, revision) := table];
    if (p, kind) in c.latest && revision <= c.latest[(p, kind)].revision then
      Some(Catalog(artifacts, c.latest))
    else if (p, kind, revision) in artifacts && artifacts[(p, kind, revision)] == table then
      Some(Catalog(artifacts, c.latest[(p, kind) := LatestTable(revision, table)]))
    else None
  }

  function PublishTables(c: Catalog, p: ProfileId, revision: nat, recommend: TableRef,
                         today: TableRef): Option<Catalog> {
    var first := PublishTable(c, p, Recommend, revision, recommend);
    if first.None? then None else PublishTable(first.value, p, Today, revision, today)
  }

  /** The pointer upsert: it moves only to a greater revision. */
  function MovePointer(latest: map<ProfileId, Pointer>, p: ProfileId, pointer: Pointer): map<ProfileId, Pointer> {
    if p in latest && pointer.revision <= latest[p].revision then latest else latest[p := pointer]
  }

  /** The batch of `recordSuccessAndPublish`; None when a key refuses it and nothing is written. */
  function PublishBatch(s: State, call: PublishCall): Option<State>
    requires call.job in s.jobs
  {
    var f := s.jobs[call.job];
    var catalog := PublishTables(s.catalog, f.row.id.profile, f.row.id.revision, call.recommend, call.today);
    if call.run in f.outcomes || catalog.None? then None
    else Some(s.(
      jobs := s.jobs[call.job := RecordSuccess(f, call.run, call.manifest)],
      latest := MovePointer(s.latest, f.row.id.profile, Pointer(f.row.id.revision, call.job, call.manifest)),
      catalog := catalog.value))
  }

  // ----- Acceptance ----------------------------------------------------------------------------

  type Rows = map<JobId, Identity>

  function RowsOf(jobs: map<JobId, JobFile>): Rows {
    map j | j in jobs :: jobs[j].row.id
  }

  predicate SameRequest(id: Identity, request: Request) {
    id.profile == request.profile && id.event == request.event
    && id.digest == request.digest && id.body == request.body
  }

  /** An existing row answers the request or, when it differs, is a conflict and answers nothing. */
  function AnswerFrom(rows: Rows, x: Intake, job: JobId, request: Request): Intake {
    if job in rows && SameRequest(rows[job], request)
    then x.(replies := x.replies + {Reply(request, job, rows[job].revision)}) else x
  }

  function LookedUpEvent(rows: Rows, x: Intake, request: Request): Intake {
    if (request.profile, request.event) in x.events
    then AnswerFrom(rows, x, x.events[(request.profile, request.event)], request)
    else x.(eventMissed := x.eventMissed + {request})
  }

  function LookedUpKey(rows: Rows, x: Intake, request: Request): Intake {
    if request !in x.eventMissed then x
    else if (request.profile, request.digest) in x.digests
    then AnswerFrom(rows, x, x.digests[(request.profile, request.digest)], request)
    else x.(keyMissed := x.keyMissed + {request})
  }

  function EnsuredCounter(x: Intake, request: Request): Intake {
    if request !in x.keyMissed then x
    else x.(counting := x.counting + {request},
            counters := if request.profile in x.counters then x.counters else x.counters[request.profile := 0])
  }

  function Reserved(x: Intake, request: Request): Intake {
    if request !in x.counting || request.profile !in x.counters then x
    else
      var next := x.counters[request.profile] + 1;
      x.(counters := x.counters[request.profile := next], reserved := x.reserved[(request.profile, next) := request])
  }

  function IdentityOf(request: Request, revision: nat): Identity {
    Identity(request.profile, request.event, request.digest, request.body, revision)
  }

  predicate KeysFree(rows: Rows, x: Intake, id: Identity, job: JobId) {
    && job !in rows
    && (id.profile, id.event) !in x.events
    && (id.profile, id.digest) !in x.digests
    && (id.profile, id.revision) !in x.revisions
  }

  /** acceptJob's batch: the row's three keys, or nothing. */
  function KeysTaken(x: Intake, id: Identity, job: JobId): Intake {
    x.(events := x.events[(id.profile, id.event) := job],
       digests := x.digests[(id.profile, id.digest) := job],
       revisions := x.revisions[(id.profile, id.revision) := job])
  }

  /** The batch commits when every key is free; a failed or unanswered call looks the event up again. */
  function InsertedJob(s: State, p: ProfileId, revision: nat, job: JobId, answered: bool): State {
    if (p, revision) !in s.intake.reserved then s
    else
      var request := s.intake.reserved[(p, revision)];
      var id := IdentityOf(request, revision);
      var x := s.intake.(reserved := s.intake.reserved - {(p, revision)});
      if !KeysFree(RowsOf(s.jobs), x, id, job) then s.(intake := x)
      else
        var rows := RowsOf(s.jobs)[job := id];
        var x' := KeysTaken(x, id, job);
        s.(jobs := s.jobs[job := FreshJob(id)],
           intake := if answered then AnswerFrom(rows, x', job, request) else x')
  }

  // ----- The profile object --------------------------------------------------------------------

  function StoreOf(x: Intake, p: ProfileId): PlayStore {
    if p in x.stores then x.stores[p] else PlayStore(map[], 0, false, false)
  }

  function StoredPlay(store: PlayStore, e: EventId, digest: Digest, device: nat): PlayStore {
    store.(plays := store.plays[e := PlayRecord(digest, device, store.revision + 1, false)],
           revision := store.revision + 1)
  }

  /** The object's transaction: a tombstone or a contradiction refuses, a repeat is acknowledged. */
  function AcceptedPlay(x: Intake, p: ProfileId, e: EventId, digest: Digest, device: nat): Intake {
    var store := StoreOf(x, p);
    var acks := x.acks + {PlayAck(p, e, digest)};
    if store.tombstone then x
    else if e in store.plays then
      if store.plays[e].digest == digest && store.plays[e].device == device then x.(acks := acks) else x
    else x.(stores := x.stores[p := StoredPlay(store, e, digest, device)], acks := acks)
  }

  predicate Answered(x: Intake, ack: PlayAck) {
    exists r :: r in x.replies && r.request.profile == ack.profile && r.request.event == ack.event
                && r.request.digest == ack.digest
  }

  function Enqueued(store: PlayStore, e: EventId): PlayStore
    requires e in store.plays
  {
    store.(plays := store.plays[e := store.plays[e].(enqueued := true)])
  }

  function EnqueuedPlay(x: Intake, ack: PlayAck): Intake {
    var store := StoreOf(x, ack.profile);
    if ack in x.acks && Answered(x, ack) && ack.event in store.plays
    then x.(stores := x.stores[ack.profile := Enqueued(store, ack.event)]) else x
  }

  /** `purge` erases the storage and only then writes the tombstone. */
  function PurgedStore(x: Intake, p: ProfileId): Intake {
    if StoreOf(x, p).tombstone then x
    else x.(stores := x.stores[p := PlayStore(map[], 0, false, true)])
  }

  function TombstonedStore(x: Intake, p: ProfileId): Intake {
    if StoreOf(x, p).purged then x.(stores := x.stores[p := StoreOf(x, p).(tombstone := true)]) else x
  }

  // ----- Steps and runs ------------------------------------------------------------------------

  function Published(s: State, call: PublishCall): State {
    if call in s.publishing && call.job in s.jobs && PublishBatch(s, call).Some?
    then PublishBatch(s, call).value else s
  }

  function TakeIntake(rows: Rows, x: Intake, step: IntakeStep): Intake {
    match step
    case LookupEvent(request) => LookedUpEvent(rows, x, request)
    case LookupKey(request) => LookedUpKey(rows, x, request)
    case EnsureCounter(request) => EnsuredCounter(x, request)
    case Reserve(request) => Reserved(x, request)
    case AcceptPlay(p, e, digest, device) => AcceptedPlay(x, p, e, digest, device)
    case MarkEnqueued(ack) => EnqueuedPlay(x, ack)
    case PurgeStore(p) => PurgedStore(x, p)
    case PlaceTombstone(p) => TombstonedStore(x, p)
  }

  function Apply(s: State, step: LedgerStep): State {
    match step
    case OnJob(j, jobStep) => if j in s.jobs then s.(jobs := s.jobs[j := Step(s.jobs[j], jobStep)]) else s
    case OnIntake(intakeStep) => s.(intake := TakeIntake(RowsOf(s.jobs), s.intake, intakeStep))
    case InsertJob(p, revision, job, answered) => InsertedJob(s, p, revision, job, answered)
    case Prepare(call) => if Prepared(s, call) then s.(publishing := s.publishing + {call}) else s
    case Publish(call) => Published(s, call)
  }

  function Run(s: State, steps: seq<LedgerStep>): State
    decreases |steps|
  {
    if steps == [] then s else Run(Apply(s, steps[0]), steps[1..])
  }

  // ----- What every step keeps -----------------------------------------------------------------

  ghost predicate JobsOk(jobs: map<JobId, JobFile>) {
    forall j :: j in jobs ==> JobInv(jobs[j])
  }

  /** The unique keys name exactly the jobs that own them. */
  ghost predicate EventsOk(rows: Rows, events: map<(ProfileId, EventId), JobId>) {
    && (forall j :: j in rows ==>
        (rows[j].profile, rows[j].event) in events && events[(rows[j].profile, rows[j].event)] == j)
    && (forall key :: key in events ==>
          events[key] in rows && rows[events[key]].profile == key.0 && rows[events[key]].event == key.1)
  }

  ghost predicate DigestsOk(rows: Rows, digests: map<(ProfileId, Digest), JobId>) {
    && (forall j :: j in rows ==>
        (rows[j].profile, rows[j].digest) in digests && digests[(rows[j].profile, rows[j].digest)] == j)
    && (forall key :: key in digests ==>
          digests[key] in rows && rows[digests[key]].profile == key.0 && rows[digests[key]].digest == key.1)
  }

  ghost predicate RevisionsOk(rows: Rows, revisions: map<(ProfileId, nat), JobId>) {
    && (forall j :: j in rows ==>
          (rows[j].profile, rows[j].revision) in revisions && revisions[(rows[j].profile, rows[j].revision)] == j)
    && (forall key :: key in revisions ==>
          revisions[key] in rows && rows[revisions[key]].profile == key.0 && rows[revisions[key]].revision == key.1)
  }

  /** Used and reserved revisions were all handed out by the counter, and none is both. */
  ghost predicate CountersOk(revisions: map<(ProfileId, nat), JobId>, counters: map<ProfileId, nat>,
                             reserved: map<(ProfileId, nat), Request>) {
    && (forall key :: key in revisions ==> key.0 in counters && 1 <= key.1 <= counters[key.0])
    && (forall key :: key in reserved ==>
          key !in revisions && reserved[key].profile == key.0 && key.0 in counters && 1 <= key.1 <= counters[key.0])
  }

  ghost predicate RepliesOk(rows: Rows, replies: set<Reply>) {
    forall r :: r in replies ==>
      r.job in rows && SameRequest(rows[r.job], r.request) && r.revision == rows[r.job].revision
  }

  ghost predicate Wins(jobs: map<JobId, JobFile>, j: JobId) {
    j in jobs && jobs[j].row.status == Succeeded
  }

  /** No winner is newer than its profile's pointer, and every pointer names a winner. */
  ghost predicate PointersOk(jobs: map<JobId, JobFile>, latest: map<ProfileId, Pointer>) {
    && (forall j :: Wins(jobs, j) ==>
          jobs[j].row.id.profile in latest && jobs[j].row.id.revision <= latest[jobs[j].row.id.profile].revision)
    && (forall p :: p in latest ==> Named(jobs, p, latest[p]))
  }

  ghost predicate Named(jobs: map<JobId, JobFile>, p: ProfileId, l: Pointer) {
    && Wins(jobs, l.job)
    && var f := jobs[l.job];
    && f.row.id.profile == p && f.row.id.revision == l.revision
    && f.row.run in f.outcomes && f.outcomes[f.row.run] == Outcome(RunSucceeded, Some(l.manifest))
  }

  /** Both table rows of a profile exist exactly when its pointer does, and name the same job. */
  ghost predicate TablesOk(latest: map<ProfileId, Pointer>, tables: map<(ProfileId, Kind), LatestTable>) {
    && (forall key :: key in tables ==> key.0 in latest)
    && (forall p, kind: Kind :: p in latest ==>
        (p, kind) in tables && TableNamed(p, kind, latest[p], tables[(p, kind)]))
  }

  ghost predicate TableNamed(p: ProfileId, kind: Kind, l: Pointer, t: LatestTable) {
    && t.revision == l.revision
    && t.table.objectKey.TableHeader?
    && t.table.objectKey == TableHeader(p, l.job, l.revision, kind, t.table.objectKey.tail)
  }

  /** Artifact rows are written by winning batches only. */
  ghost predicate ArtifactsOk(jobs: map<JobId, JobFile>, revisions: map<(ProfileId, nat), JobId>,
                              artifacts: map<(ProfileId, Kind, nat), TableRef>) {
    forall key :: key in artifacts ==> (key.0, key.2) in revisions && Wins(jobs, revisions[(key.0, key.2)])
  }

  ghost predicate PublishingOk(jobs: map<JobId, JobFile>, publishing: set<PublishCall>) {
    forall call :: call in publishing ==>
      && call.job in jobs
      && call.run in jobs[call.job].passed
      && KeyMatches(call.recommend, jobs[call.job].row.id, call.job, Recommend)
      && KeyMatches(call.today, jobs[call.job].row.id, call.job, Today)
  }

  /** Before a purge: one revision per stored play, and an enqueued play has its job. */
  ghost predicate StoresOk(rows: Rows, events: map<(ProfileId, EventId), JobId>, stores: map<ProfileId, PlayStore>) {
    forall p :: p in stores && !stores[p].purged ==> StoreOk(rows, events, p, stores[p])
  }

  ghost predicate StoreOk(rows: Rows, events: map<(ProfileId, EventId), JobId>, p: ProfileId, store: PlayStore) {
    && |store.plays| == store.revision
    && (forall e :: e in store.plays ==> 1 <= store.plays[e].revision <= store.revision)
    && (forall e, e' :: e in store.plays && e' in store.plays && store.plays[e].revision == store.plays[e'].revision
          ==> e == e')
    && (forall e :: e in store.plays && store.plays[e].enqueued ==>
          (p, e) in events && events[(p, e)] in rows && rows[events[(p, e)]].digest == store.plays[e].digest)
  }

  ghost predicate AcksOk(stores: map<ProfileId, PlayStore>, acks: set<PlayAck>) {
    forall ack :: ack in acks ==> ack.profile in stores && AckOk(stores[ack.profile], ack)
  }

  ghost predicate AckOk(store: PlayStore, ack: PlayAck) {
    !store.purged ==> ack.event in store.plays && store.plays[ack.event].digest == ack.digest
  }

  /** The half of the state that acceptance owns. */
  ghost predicate IntakeOk(rows: Rows, x: Intake) {
    && EventsOk(rows, x.events) && DigestsOk(rows, x.digests) && RevisionsOk(rows, x.revisions)
    && CountersOk(x.revisions, x.counters, x.reserved)
    && RepliesOk(rows, x.replies)
    && StoresOk(rows, x.events, x.stores) && AcksOk(x.stores, x.acks)
  }

  /** The half that runs and publication own. */
  ghost predicate PublicationOk(jobs: map<JobId, JobFile>, revisions: map<(ProfileId, nat), JobId>,
                                latest: map<ProfileId, Pointer>, catalog: Catalog, publishing: set<PublishCall>) {
    && JobsOk(jobs)
    && PointersOk(jobs, latest) && TablesOk(latest, catalog.latest)
    && ArtifactsOk(jobs, revisions, catalog.artifacts)
    && PublishingOk(jobs, publishing)
  }

  ghost predicate Inv(s: State) {
    && IntakeOk(RowsOf(s.jobs), s.intake)
    && PublicationOk(s.jobs, s.intake.revisions, s.latest, s.catalog, s.publishing)
  }
}
