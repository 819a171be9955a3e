/** What the ledger promises, for every interleaving of every call. */
module LedgerTheorems {
  import opened Common
  import opened JobRuns
  import opened Ledger
  import opened LedgerSafety

  /** Some run of the job has a succeeded outcome row. */
  ghost predicate Won(s: State, j: JobId) {
    j in s.jobs && exists k :: k in s.jobs[j].outcomes && s.jobs[j].outcomes[k].status == RunSucceeded
  }

  lemma WonIsWins(s: State, j: JobId)
    requires JobsOk(s.jobs)
    ensures Won(s, j) <==> Wins(s.jobs, j)
  {
  }

  /** One job's outcomes and its status column, in every reachable state. */
  lemma OutcomeLaw(steps: seq<LedgerStep>, j: JobId)
    requires j in Run(Initial(), steps).jobs
    ensures var f := Run(Initial(), steps).jobs[j];
      && (forall k :: 0 <= k < f.row.run ==> k in f.outcomes && f.outcomes[k].status == RunFailed)
      && (forall k :: k in f.outcomes ==> k <= f.row.run)
      && (f.row.status == Succeeded <==> f.row.run in f.outcomes && f.outcomes[f.row.run].status == RunSucceeded)
      && (f.row.status == Failed ==> f.row.run in f.outcomes && f.outcomes[f.row.run].status == RunFailed)
  {
    InitialOk();
    RunKeeps(Initial(), steps);
    assert JobInv(Run(Initial(), steps).jobs[j]);
  }

  /**
   Publication: a profile's pointer and both table rows exist exactly when some job of the profile
   has won, they name one and the same winner, and it is the winner with the greatest revision.
   */
  lemma Publication(steps: seq<LedgerStep>, p: ProfileId)
    ensures var s := Run(Initial(), steps);
      && (p in s.latest <==> exists j :: Won(s, j) && s.jobs[j].row.id.profile == p)
      && (forall kind: Kind :: (p, kind) in s.catalog.latest <==> p in s.latest)
      && (p in s.latest ==>
            var l := s.latest[p];
            && Won(s, l.job) && s.jobs[l.job].row.id.profile == p && s.jobs[l.job].row.id.revision == l.revision
            && (forall j :: Won(s, j) && s.jobs[j].row.id.profile == p && j != l.job ==>
                  s.jobs[j].row.id.revision < l.revision)
            && (forall kind: Kind :: TableNamed(p, kind, l, s.catalog.latest[(p, kind)])))
  {
    InitialOk();
    RunKeeps(Initial(), steps);
    var s := Run(Initial(), steps);
    forall j ensures Won(s, j) <==> Wins(s.jobs, j) { WonIsWins(s, j); }
    PublicationOfInv(s, p);
  }

  lemma PublicationOfInv(s: State, p: ProfileId)
    requires PointersOk(s.jobs, s.latest) && TablesOk(s.latest, s.catalog.latest)
    requires RevisionsOk(RowsOf(s.jobs), s.intake.revisions)
    ensures p in s.latest <==> exists j :: Wins(s.jobs, j) && s.jobs[j].row.id.profile == p
    ensures forall kind: Kind :: (p, kind) in s.catalog.latest <==> p in s.latest
    ensures p in s.latest ==>
      var l := s.latest[p];
      && Wins(s.jobs, l.job) && s.jobs[l.job].row.id.profile == p && s.jobs[l.job].row.id.revision == l.revision
      && (forall j :: Wins(s.jobs, j) && s.jobs[j].row.id.profile == p && j != l.job ==>
            s.jobs[j].row.id.revision < l.revision)
      && (forall kind: Kind :: TableNamed(p, kind, l, s.catalog.latest[(p, kind)]))
  {
    if p in s.latest {
      var l := s.latest[p];
      assert Named(s.jobs, p, l);
      forall j | Wins(s.jobs, j) && s.jobs[j].row.id.profile == p && j != l.job
        ensures s.jobs[j].row.id.revision < l.revision
      {
        assert RowsOf(s.jobs)[j] == s.jobs[j].row.id && RowsOf(s.jobs)[l.job] == s.jobs[l.job].row.id;
      }
    }
  }

  /** No job's victory is lost and no pointer moves to an older revision. */
  ghost predicate Advances(s: State, s': State) {
    && (forall j :: Wins(s.jobs, j) ==> Wins(s'.jobs, j))
    && (forall p :: p in s.latest ==> p in s'.latest && s.latest[p].revision <= s'.latest[p].revision)
  }

  lemma JobStepAdvances(s: State, j: JobId, step: JobStep)
    requires JobsOk(s.jobs) && j in s.jobs
    ensures Advances(s, s.(jobs := s.jobs[j := Step(s.jobs[j], step)]))
  {
    StepKeepsVictory(s.jobs[j], step);
    VictoryAdvances(s, j, Step(s.jobs[j], step));
  }

  lemma VictoryAdvances(s: State, j: JobId, f: JobFile)
    requires j in s.jobs && (s.jobs[j].row.status == Succeeded ==> f.row.status == Succeeded)
    ensures Advances(s, s.(jobs := s.jobs[j := f]))
  {
  }

  lemma WinnersStay(jobs: map<JobId, JobFile>, j: JobId, f: JobFile)
    requires j in jobs && f.row.status == Succeeded
    ensures forall i :: Wins(jobs, i) ==> Wins(jobs[j := f], i)
  {
  }

  lemma PointersAdvance(latest: map<ProfileId, Pointer>, p: ProfileId, pointer: Pointer)
    ensures forall q :: q in latest ==>
      q in MovePointer(latest, p, pointer) && latest[q].revision <= MovePointer(latest, p, pointer)[q].revision
  {
  }

  /** What the batch does to the two tables of winners and pointers. */
  lemma BatchWrites(s: State, call: PublishCall)
    requires call.job in s.jobs && PublishBatch(s, call).Some?
    ensures var f := s.jobs[call.job]; var s' := PublishBatch(s, call).value;
      && s'.jobs == s.jobs[call.job := RecordSuccess(f, call.run, call.manifest)]
      && s'.latest == MovePointer(s.latest, f.row.id.profile, Pointer(f.row.id.revision, call.job, call.manifest))
      && call.run !in f.outcomes
  {
  }

  lemma PublishAdvances(s: State, call: PublishCall)
    requires JobsOk(s.jobs) && PublishingOk(s.jobs, s.publishing) && call in s.publishing && PublishBatch(s, call).Some?
    ensures Advances(s, PublishBatch(s, call).value)
  {
    var f := s.jobs[call.job];
    BatchWrites(s, call);
    SuccessKeeps(f, call.run, call.manifest);
    WinnersStay(s.jobs, call.job, RecordSuccess(f, call.run, call.manifest));
    PointersAdvance(s.latest, f.row.id.profile, Pointer(f.row.id.revision, call.job, call.manifest));
  }

  lemma InsertAdvances(s: State, p: ProfileId, revision: nat, job: JobId, answered: bool)
    ensures Advances(s, InsertedJob(s, p, revision, job, answered))
  {
  }

  lemma StepAdvances(s: State, step: LedgerStep)
    requires Inv(s)
    ensures Advances(s, Apply(s, step))
  {
    match step
    case OnJob(j, jobStep) => if j in s.jobs { JobStepAdvances(s, j, jobStep); }
    case Publish(call) =>
      if call in s.publishing && call.job in s.jobs && PublishBatch(s, call).Some? { PublishAdvances(s, call); }
    case InsertJob(p, revision, job, answered) => InsertAdvances(s, p, revision, job, answered);
    case OnIntake(_) =>
    case Prepare(_) =>
  }

  /** Succeeded is absorbing and pointers are monotone, over any continuation of any run. */
  lemma {:induction false} RunsOnlyAdvance(s: State, steps: seq<LedgerStep>)
    requires Inv(s)
    ensures Advances(s, Run(s, steps))
    decreases |steps|
  {
    if steps != [] {
      StepAdvances(s, steps[0]);
      ApplyKeeps(s, steps[0]);
      RunsOnlyAdvance(Apply(s, steps[0]), steps[1..]);
    }
  }

  // ----- Jobs that never end -------------------------------------------------------------------

  lemma StrandedOnJob(s: State, i: JobId, step: JobStep, j: JobId)
    requires j in s.jobs && JobInv(s.jobs[j]) && Stranded(s.jobs[j])
    ensures j in Apply(s, OnJob(i, step)).jobs && Stranded(Apply(s, OnJob(i, step)).jobs[j])
  {
    StrandedKept(s.jobs[j], step);
  }

  /** A publish that is past its checks belongs to an undecided run, and so to another job. */
  lemma StrandedPublish(s: State, call: PublishCall, j: JobId)
    requires JobsOk(s.jobs) && PublishingOk(s.jobs, s.publishing)
    requires j in s.jobs && Stranded(s.jobs[j])
    ensures j in Published(s, call).jobs && Published(s, call).jobs[j] == s.jobs[j]
  {
    if call in s.publishing && call.job in s.jobs && PublishBatch(s, call).Some? {
      BatchWrites(s, call);
      SuccessKeeps(s.jobs[call.job], call.run, call.manifest);
    }
  }

  lemma StrandedStep(s: State, step: LedgerStep, j: JobId)
    requires JobsOk(s.jobs) && PublishingOk(s.jobs, s.publishing) && j in s.jobs && Stranded(s.jobs[j])
    ensures j in Apply(s, step).jobs && Stranded(Apply(s, step).jobs[j])
  {
    match step
    case OnJob(i, jobStep) => StrandedOnJob(s, i, jobStep, j);
    case Publish(call) => StrandedPublish(s, call, j);
    case InsertJob(p, revision, job, answered) => InsertLeavesJob(s, p, revision, job, answered, j);
    case OnIntake(_) =>
    case Prepare(_) =>
  }

  lemma InsertLeavesJob(s: State, p: ProfileId, revision: nat, job: JobId, answered: bool, j: JobId)
    requires j in s.jobs
    ensures var s' := InsertedJob(s, p, revision, job, answered); j in s'.jobs && s'.jobs[j] == s.jobs[j]
  {
  }

  /** No call of any kind, a publish included, ever ends a stranded job. */
  lemma {:induction false} StrandedForGood(s: State, steps: seq<LedgerStep>, j: JobId)
    requires Inv(s) && j in s.jobs && Stranded(s.jobs[j])
    ensures j in Run(s, steps).jobs && Stranded(Run(s, steps).jobs[j])
    decreases |steps|
  {
    if steps != [] {
      ApplyKeeps(s, steps[0]);
      StrandedStep(s, steps[0], j);
      StrandedForGood(Apply(s, steps[0]), steps[1..], j);
    }
  }

  /** Another revision of the profile already has a stored table of this kind with this content. */
  ghost predicate HeldElsewhere(artifacts: map<(ProfileId, Kind, nat), TableRef>, p: ProfileId, kind: Kind,
                                revision: nat, content: Digest) {
    exists other: nat :: other != revision && (p, kind, other) in artifacts
                         && artifacts[(p, kind, other)].contentHash == content
  }

  lemma TakenIsHeldElsewhere(c: Catalog, p: ProfileId, kind: Kind, revision: nat, content: Digest)
    requires (p, kind, revision) !in c.artifacts
    ensures ContentTaken(c, p, kind, content) <==> HeldElsewhere(c.artifacts, p, kind, revision, content)
  {
    if ContentTaken(c, p, kind, content) {
      var key :| key in c.artifacts && key.0 == p && key.1 == kind && c.artifacts[key].contentHash == content;
      assert key == (p, kind, key.2);
    }
    if HeldElsewhere(c.artifacts, p, kind, revision, content) {
      var other: nat :| other != revision && (p, kind, other) in c.artifacts
                        && c.artifacts[(p, kind, other)].contentHash == content;
      assert (p, kind, other).0 == p && (p, kind, other).1 == kind;
    }
  }

  /**
   When a prepared publish of an undecided run is refused: exactly when its revision is the newest
   of its profile and one of its two tables repeats the content of another revision.  INSERT OR
   IGNORE then skips the artifact row that the latest row's foreign key needs.
   */
  lemma RefusedExactlyForRepeatedContent(s: State, call: PublishCall)
    requires Inv(s) && call in s.publishing && call.run !in s.jobs[call.job].outcomes
    ensures var id := s.jobs[call.job].row.id;
      PublishBatch(s, call).None? <==>
        && Newest(s.latest, id.profile, id.revision)
        && (|| HeldElsewhere(s.catalog.artifacts, id.profile, Recommend, id.revision, call.recommend.contentHash)
            || HeldElsewhere(s.catalog.artifacts, id.profile, Today, id.revision, call.today.contentHash))
  {
    var f := s.jobs[call.job];
    SuccessKeeps(f, call.run, call.manifest);
    NoArtifactYet(s, call.job);
    TakenIsHeldElsewhere(s.catalog, f.row.id.profile, Recommend, f.row.id.revision, call.recommend.contentHash);
    TakenIsHeldElsewhere(s.catalog, f.row.id.profile, Today, f.row.id.revision, call.today.contentHash);
    TablesRefusedExactly(s.catalog, s.latest, f.row.id.profile, f.row.id.revision, call.recommend, call.today);
  }

  /** INSERT OR IGNORE of one table: stored unless another revision holds the content. */
  ghost predicate ArtifactWritten(artifacts: map<(ProfileId, Kind, nat), TableRef>,
                                  artifacts': map<(ProfileId, Kind, nat), TableRef>,
                                  p: ProfileId, kind: Kind, revision: nat, table: TableRef) {
    var key := (p, kind, revision);
    if HeldElsewhere(artifacts, p, kind, revision, table.contentHash) then key !in artifacts'
    else key in artifacts' && artifacts'[key] == table
  }

  lemma TableWritten(c: Catalog, p: ProfileId, kind: Kind, revision: nat, table: TableRef)
    requires (p, kind, revision) !in c.artifacts && PublishTable(c, p, kind, revision, table).Some?
    ensures var c' := PublishTable(c, p, kind, revision, table).value;
      && ArtifactWritten(c.artifacts, c'.artifacts, p, kind, revision, table)
      && c'.artifacts - {(p, kind, revision)} == c.artifacts
  {
    TakenIsHeldElsewhere(c, p, kind, revision, table.contentHash);
  }

  /** The artifact rows a committed batch leaves: its own two, by the rule above, and every earlier row. */
  lemma ArtifactsOfBatch(c: Catalog, p: ProfileId, revision: nat, recommend: TableRef, today: TableRef)
    requires forall kind: Kind :: (p, kind, revision) !in c.artifacts
    requires PublishTables(c, p, revision, recommend, today).Some?
    ensures var artifacts' := PublishTables(c, p, revision, recommend, today).value.artifacts;
      && ArtifactWritten(c.artifacts, artifacts', p, Recommend, revision, recommend)
      && ArtifactWritten(c.artifacts, artifacts', p, Today, revision, today)
      && artifacts' - {(p, Recommend, revision), (p, Today, revision)} == c.artifacts
  {
    var first := PublishTable(c, p, Recommend, revision, recommend).value;
    TableWritten(c, p, Recommend, revision, recommend);
    TableWritten(first, p, Today, revision, today);
    SameHolders(c.artifacts, first.artifacts, p, revision, today.contentHash);
  }

  /** A row of the other kind does not matter to what today's tables hold. */
  lemma SameHolders(artifacts: map<(ProfileId, Kind, nat), TableRef>,
                    artifacts': map<(ProfileId, Kind, nat), TableRef>, p: ProfileId, revision: nat, content: Digest)
    requires artifacts' - {(p, Recommend, revision)} == artifacts
    ensures HeldElsewhere(artifacts, p, Today, revision, content)
      <==> HeldElsewhere(artifacts', p, Today, revision, content)
  {
    assert forall other: nat :: (p, Today, other) in artifacts' <==> (p, Today, other) in artifacts;
    assert forall other: nat :: (p, Today, other) in artifacts ==>
      artifacts[(p, Today, other)] == artifacts'[(p, Today, other)];
  }

  lemma NoArtifactYet(s: State, j: JobId)
    requires Inv(s) && j in s.jobs && s.jobs[j].row.status != Succeeded
    ensures forall kind: Kind :: (s.jobs[j].row.id.profile, kind, s.jobs[j].row.id.revision) !in s.catalog.artifacts
  {
    var id := s.jobs[j].row.id;
    assert RowsOf(s.jobs)[j] == id;
    assert RevisionsOk(RowsOf(s.jobs), s.intake.revisions);
    assert s.intake.revisions[(id.profile, id.revision)] == j;
    assert ArtifactsOk(s.jobs, s.intake.revisions, s.catalog.artifacts);
  }

  lemma TablesRefusedExactly(c: Catalog, latest: map<ProfileId, Pointer>, p: ProfileId, revision: nat,
                             recommend: TableRef, today: TableRef)
    requires TablesOk(latest, c.latest)
    requires forall kind: Kind :: (p, kind, revision) !in c.artifacts
    ensures PublishTables(c, p, revision, recommend, today).None? <==>
      && Newest(latest, p, revision)
      && (ContentTaken(c, p, Recommend, recommend.contentHash) || ContentTaken(c, p, Today, today.contentHash))
  {
  }

  // ----- Exactly-once acceptance ---------------------------------------------------------------

  /** All successes for one event answer with one job and one revision, and agree on the digest. */
  lemma AnswersAgree(steps: seq<LedgerStep>, a: Reply, b: Reply)
    requires a in Run(Initial(), steps).intake.replies && b in Run(Initial(), steps).intake.replies
    requires a.request.profile == b.request.profile && a.request.event == b.request.event
    ensures a == b
  {
    InitialOk();
    RunKeeps(Initial(), steps);
    var s := Run(Initial(), steps);
    assert RepliesOk(RowsOf(s.jobs), s.intake.replies) && EventsOk(RowsOf(s.jobs), s.intake.events);
  }

  /** Distinct jobs of a profile differ in event, digest and revision; the counter bounds revisions. */
  lemma JobsAreDistinct(steps: seq<LedgerStep>, i: JobId, j: JobId)
    requires i in Run(Initial(), steps).jobs && j in Run(Initial(), steps).jobs && i != j
    requires Run(Initial(), steps).jobs[i].row.id.profile == Run(Initial(), steps).jobs[j].row.id.profile
    ensures var s := Run(Initial(), steps);
      var a, b := s.jobs[i].row.id, s.jobs[j].row.id;
      && a.event != b.event && a.digest != b.digest && a.revision != b.revision
      && a.profile in s.intake.counters && 1 <= a.revision <= s.intake.counters[a.profile]
  {
    InitialOk();
    RunKeeps(Initial(), steps);
    var s := Run(Initial(), steps);
    var rows := RowsOf(s.jobs);
    assert rows[i] == s.jobs[i].row.id && rows[j] == s.jobs[j].row.id;
    assert EventsOk(rows, s.intake.events) && DigestsOk(rows, s.intake.digests)
      && RevisionsOk(rows, s.intake.revisions);
    assert CountersOk(s.intake.revisions, s.intake.counters, s.intake.reserved);
  }

  /** Some job of the ledger was accepted for this stored play. */
  ghost predicate HasJob(rows: Rows, p: ProfileId, e: EventId, digest: Digest) {
    exists j :: j in rows && rows[j].profile == p && rows[j].event == e && rows[j].digest == digest
  }

  /** Before a purge a profile object counts its plays, and an enqueued play has its ledger job. */
  lemma StoreLaw(steps: seq<LedgerStep>, p: ProfileId)
    requires p in Run(Initial(), steps).intake.stores && !Run(Initial(), steps).intake.stores[p].purged
    ensures var store := Run(Initial(), steps).intake.stores[p];
      && |store.plays| == store.revision
      && (forall e, e' :: e in store.plays && e' in store.plays && e != e' ==>
            store.plays[e].revision != store.plays[e'].revision)
      && (forall e :: e in store.plays && store.plays[e].enqueued ==>
            HasJob(RowsOf(Run(Initial(), steps).jobs), p, e, store.plays[e].digest))
  {
    InitialOk();
    RunKeeps(Initial(), steps);
    var s := Run(Initial(), steps);
    StoreFacts(RowsOf(s.jobs), s.intake, p);
  }

  lemma StoreFacts(rows: Rows, x: Intake, p: ProfileId)
    requires EventsOk(rows, x.events) && StoresOk(rows, x.events, x.stores) && p in x.stores && !x.stores[p].purged
    ensures |x.stores[p].plays| == x.stores[p].revision
    ensures forall e, e' :: e in x.stores[p].plays && e' in x.stores[p].plays && e != e' ==>
              x.stores[p].plays[e].revision != x.stores[p].plays[e'].revision
    ensures forall e :: e in x.stores[p].plays && x.stores[p].plays[e].enqueued ==>
              HasJob(rows, p, e, x.stores[p].plays[e].digest)
  {
  }
}
