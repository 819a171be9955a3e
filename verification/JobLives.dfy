/**
 One job again, with the calls that are alive on it.  JobRuns lets every call go on, be repeated or be
 resent for ever, which is right for what must never happen.  Here a send goes through the job's
 `job_dispatches` row, a message has one run, a delivery one claim, a run one workflow instance, and
 every call can stop; so this also says what can still happen (cloudflare/worker/src/job-ledger.ts:
 533-682, 877-955, 990-1089; index.ts:948-961; workflow.ts:238-268).

 Leases and delays only wait for time to pass, and are not modelled.
 */
module JobLives {
  import opened Common
  import opened JobRuns

  type CallId = nat

  /** job_dispatches.status */
  datatype Dispatch = Pending | Sending | Sent

  /** `dispatch`: before its claim, before its send, before it marks the row sent, in its catch block. */
  datatype SenderStage = Ready | Holding | Posted | Failing

  datatype Sender = Sender(run: nat, stage: SenderStage)

  /**
   `consumeQueueMessage`: past the delivery read, holding its delivery row, past the job read, past the
   update of the job, past startWorkflow; closing a terminal job's delivery; in its catch block.
   */
  datatype ConsumerStage = SawNone | SawRetry | Holds | HasRead | HasMarked | Started | Closing | Erring

  datatype Consumer = Consumer(message: MessageId, stage: ConsumerStage)

  /** `cancel` that read a queued row at this run, before or after its update. */
  datatype Canceller = Canceller(run: nat, marked: bool)

  datatype Live = Live(
    dispatch: Dispatch,
    senders: map<CallId, Sender>,
    posted: map<MessageId, nat>,          // every message ever sent, with its run
    queue: set<MessageId>,                // those that may still be delivered
    consumers: map<CallId, Consumer>,
    alive: set<nat>,                      // workflow instances that have not ended
    cancels: map<CallId, Canceller>)

  const NewLive: Live := Live(Pending, map[], map[], {}, map[], {}, map[])

  datatype SenderStep =
    | BeginDispatch(call: CallId)
    | ClaimDispatch(call: CallId)
    | Post(call: CallId, message: MessageId, seen: bool)
    | PostFails(call: CallId)
    | MarkSent(call: CallId, took: bool, threw: bool)
    | MarkPending(call: CallId)
    | StopSender(call: CallId)

  datatype ConsumerStep =
    | Deliver(call: CallId, message: MessageId)
    | ClaimNew(call: CallId)
    | ClaimAgain(call: CallId)
    | ReadJob(call: CallId)
    | SetRunning(call: CallId)
    | Create(call: CallId, took: bool, threw: bool)
    | FinishFails(call: CallId)
    | Finish(call: CallId)
    | RecordRetry(call: CallId)
    | StopConsumer(call: CallId)
    | LoseMessage(message: MessageId)

  datatype WorkflowStep =
    | Check(run: nat)
    | Fail(run: nat, cancelled: bool)
    | Apply(run: nat)
    | StopRecorder(run: nat)
    | StopInstance(run: nat)

  datatype OperatorStep =
    | BeginCancel(call: CallId)
    | MarkCancel(call: CallId)
    | RecordCancel(call: CallId)
    | StopCancel(call: CallId)
    | AskToStop
    | ReadRetry
    | CommitRetry(run: nat)

  datatype LifeStep =
    | OnSender(sender: SenderStep)
    | OnConsumer(consumer: ConsumerStep)
    | OnWorkflow(workflow: WorkflowStep)
    | OnOperator(operator: OperatorStep)

  // ----- Senders -------------------------------------------------------------------------------

  predicate SenderAt(l: Live, c: CallId, stage: SenderStage) {
    c in l.senders && l.senders[c].stage == stage
  }

  function SenderTo(l: Live, c: CallId, stage: SenderStage): Live
    requires c in l.senders
  {
    l.(senders := l.senders[c := l.senders[c].(stage := stage)])
  }

  function SenderGone(l: Live, c: CallId): Live {
    l.(senders := l.senders - {c})
  }

  predicate CanPost(l: Live, c: CallId, m: MessageId) {
    SenderAt(l, c, Holding) && m !in l.posted
  }

  /** What a sender's step does to its own side of things. */
  function SenderLive(f: JobFile, l: Live, step: SenderStep): Live {
    match step
    case BeginDispatch(c) => if c in l.senders then l else l.(senders := l.senders[c := Sender(f.row.run, Ready)])
    case ClaimDispatch(c) =>
      if !SenderAt(l, c, Ready) then l
      else if l.dispatch == Sent then SenderGone(l, c)
      else SenderTo(l, c, Holding).(dispatch := Sending)
    case Post(c, m, seen) =>
      if !CanPost(l, c, m) then l
      else SenderTo(l, c, if seen then Posted else Failing)
           .(posted := l.posted[m := l.senders[c].run], queue := l.queue + {m})
    case PostFails(c) => if SenderAt(l, c, Holding) then SenderTo(l, c, Failing) else l
    case MarkSent(c, took, threw) =>
      if !SenderAt(l, c, Posted) || (!took && !threw) then l
      else (if threw then SenderTo(l, c, Failing) else SenderGone(l, c)).(dispatch := if took then Sent else l.dispatch)
    case MarkPending(c) => if SenderAt(l, c, Failing) then SenderGone(l, c).(dispatch := Pending) else l
    case StopSender(c) => SenderGone(l, c)
  }

  function SenderJobStep(l: Live, step: SenderStep): Option<JobStep> {
    if step.Post? && CanPost(l, step.call, step.message) then Some(Send(l.senders[step.call].run)) else None
  }

  // ----- Consumers -----------------------------------------------------------------------------

  predicate ConsumerAt(l: Live, c: CallId, stage: ConsumerStage) {
    c in l.consumers && l.consumers[c].stage == stage && l.consumers[c].message in l.posted
  }

  function RunOf(l: Live, c: CallId): nat
    requires c in l.consumers && l.consumers[c].message in l.posted
  {
    l.posted[l.consumers[c].message]
  }

  function ConsumerTo(l: Live, c: CallId, stage: ConsumerStage): Live
    requires c in l.consumers
  {
    l.(consumers := l.consumers[c := l.consumers[c].(stage := stage)])
  }

  function ConsumerGone(l: Live, c: CallId): Live {
    l.(consumers := l.consumers - {c})
  }

  /** The message is acknowledged, and its consumer done. */
  function AckedBy(l: Live, c: CallId): Live
    requires c in l.consumers
  {
    ConsumerGone(l, c).(queue := l.queue - {l.consumers[c].message})
  }

  predicate CanDeliver(l: Live, c: CallId, m: MessageId) {
    c !in l.consumers && m in l.queue && m in l.posted
  }

  function ConsumerLive(f: JobFile, l: Live, step: ConsumerStep): Live {
    match step
    case Deliver(c, m) =>
      if !CanDeliver(l, c, m) then l
      else if m !in f.deliveries then l.(consumers := l.consumers[c := Consumer(m, SawNone)])
      else if f.deliveries[m] == Retry then l.(consumers := l.consumers[c := Consumer(m, SawRetry)])
      else l.(queue := l.queue - {m})
    case ClaimNew(c) =>
      if !ConsumerAt(l, c, SawNone) then l
      else if l.consumers[c].message in f.deliveries then AckedBy(l, c)
      else ConsumerTo(l, c, Holds)
    case ClaimAgain(c) => if ConsumerAt(l, c, SawRetry) then ConsumerTo(l, c, Holds) else l
    case ReadJob(c) =>
      if ConsumerAt(l, c, Holds) then ConsumerTo(l, c, if Terminal(f.row.status) then Closing else HasRead) else l
    case SetRunning(c) => if ConsumerAt(l, c, HasRead) then ConsumerTo(l, c, HasMarked) else l
    case Create(c, took, threw) =>
      if !ConsumerAt(l, c, HasMarked) || (!took && !threw) then l
      else ConsumerTo(l, c, if threw then Erring else Started)
           .(alive := if took && RunOf(l, c) !in f.instances then l.alive + {RunOf(l, c)} else l.alive)
    case FinishFails(c) => if ConsumerAt(l, c, Started) then ConsumerTo(l, c, Erring) else l
    case Finish(c) => if ConsumerAt(l, c, Started) || ConsumerAt(l, c, Closing) then AckedBy(l, c) else l
    case RecordRetry(c) => if ConsumerAt(l, c, Erring) then ConsumerGone(l, c) else l
    case StopConsumer(c) => ConsumerGone(l, c)
    case LoseMessage(m) => l.(queue := l.queue - {m})
  }

  function ConsumerJobStep(l: Live, step: ConsumerStep): Option<JobStep> {
    match step
    case Deliver(c, m) => if CanDeliver(l, c, m) then Some(SelectDelivery(m, l.posted[m])) else None
    case ClaimNew(c) => if ConsumerAt(l, c, SawNone) then Some(InsertDelivery(l.consumers[c].message, RunOf(l, c)))
      else None
    case ClaimAgain(c) =>
      if ConsumerAt(l, c, SawRetry) then Some(ReclaimDelivery(l.consumers[c].message, RunOf(l, c))) else None
    case ReadJob(c) => if ConsumerAt(l, c, Holds) then Some(ReadForClaim(RunOf(l, c))) else None
    case SetRunning(c) => if ConsumerAt(l, c, HasRead) then Some(MarkRunning(RunOf(l, c))) else None
    case Create(c, took, _) => if ConsumerAt(l, c, HasMarked) && took then Some(StartWorkflow(RunOf(l, c))) else None
    case Finish(c) =>
      if ConsumerAt(l, c, Started) || ConsumerAt(l, c, Closing) then Some(SettleDelivery(l.consumers[c].message, true))
        else None
    case RecordRetry(c) => if ConsumerAt(l, c, Erring) then Some(SettleDelivery(l.consumers[c].message, false))
      else None
    case _ => None
  }

  // ----- Workflows and operators ---------------------------------------------------------------

  predicate Checks(f: JobFile, l: Live, run: nat) {
    run in l.alive && f.row.run == run && !Terminal(f.row.status)
  }

  predicate Fails(f: JobFile, l: Live, run: nat) {
    run in l.alive && run in f.passed
  }

  /** An instance whose check fails, or that records a failure, has ended. */
  function WorkflowLive(f: JobFile, l: Live, step: WorkflowStep): Live {
    match step
    case Check(k) => if Checks(f, l, k) then l else l.(alive := l.alive - {k})
    case Fail(k, _) => if Fails(f, l, k) then l.(alive := l.alive - {k}) else l
    case Apply(_) => l
    case StopRecorder(_) => l
    case StopInstance(k) => l.(alive := l.alive - {k})
  }

  function WorkflowJobStep(f: JobFile, l: Live, step: WorkflowStep): Option<JobStep> {
    match step
    case Check(k) => if Checks(f, l, k) then Some(CheckRun(k)) else None
    case Fail(k, cancelled) => if Fails(f, l, k) then Some(InsertFailure(k, cancelled)) else None
    case Apply(k) => Some(ApplyOutcome(k))
    case StopRecorder(k) => Some(StopRecording(k))
    case StopInstance(_) => None
  }

  predicate CancelAt(l: Live, c: CallId, marked: bool) {
    c in l.cancels && l.cancels[c].marked == marked
  }

  /** A committed retry makes the dispatch row pending again. */
  function OperatorLive(f: JobFile, l: Live, step: OperatorStep): Live {
    match step
    case BeginCancel(c) =>
      if c !in l.cancels && f.row.status == Queued then l.(cancels := l.cancels[c := Canceller(f.row.run, false)])
        else l
    case MarkCancel(c) =>
      if CancelAt(l, c, false) then l.(cancels := l.cancels[c := Canceller(l.cancels[c].run, true)]) else l
    case RecordCancel(c) => if CancelAt(l, c, true) then l.(cancels := l.cancels - {c}) else l
    case StopCancel(c) => l.(cancels := l.cancels - {c})
    case AskToStop => l
    case ReadRetry => l
    case CommitRetry(k) => if k in f.retriesSeen && k + 1 !in f.requeues then l.(dispatch := Pending) else l
  }

  function OperatorJobStep(l: Live, step: OperatorStep): Option<JobStep> {
    match step
    case BeginCancel(_) => Some(ReadForCancel)
    case MarkCancel(c) => if CancelAt(l, c, false) then Some(MarkCancelled(l.cancels[c].run)) else None
    case RecordCancel(c) => if CancelAt(l, c, true) then Some(InsertCancelled(l.cancels[c].run)) else None
    case StopCancel(_) => None
    case AskToStop => Some(RequestCancel)
    case ReadRetry => Some(ReadForRetry)
    case CommitRetry(k) => Some(RetryBatch(k))
  }

  // ----- Lives ---------------------------------------------------------------------------------

  function LiveStep(f: JobFile, l: Live, step: LifeStep): Live {
    match step
    case OnSender(s) => SenderLive(f, l, s)
    case OnConsumer(s) => ConsumerLive(f, l, s)
    case OnWorkflow(s) => WorkflowLive(f, l, s)
    case OnOperator(s) => OperatorLive(f, l, s)
  }

  /** The step of JobRuns that this step is, if it is one. */
  function JobStepOf(f: JobFile, l: Live, step: LifeStep): Option<JobStep> {
    match step
    case OnSender(s) => SenderJobStep(l, s)
    case OnConsumer(s) => ConsumerJobStep(l, s)
    case OnWorkflow(s) => WorkflowJobStep(f, l, s)
    case OnOperator(s) => OperatorJobStep(l, s)
  }

  function FileStep(f: JobFile, l: Live, step: LifeStep): JobFile {
    var js := JobStepOf(f, l, step);
    if js.Some? then Step(f, js.value) else f
  }

  // ----- What every step keeps -----------------------------------------------------------------

  /** What a consumer's stage says of the calls that JobRuns has seen. */
  ghost predicate ConsumerOk(f: JobFile, l: Live, c: Consumer) {
    && c.message in l.posted
    && var k := l.posted[c.message];
    match c.stage
    case SawNone => (c.message, k) in f.sawNoDelivery
    case SawRetry => (c.message, k) in f.sawRetryDelivery
    case Holds => k in f.claims
    case HasRead => k in f.claimsPastRead
    case HasMarked => k in f.started
    case Started => k in f.instances
    case Closing => true
    case Erring => true
  }

  ghost predicate MessagesOk(f: JobFile, l: Live) {
    && l.queue <= l.posted.Keys && f.deliveries.Keys <= l.posted.Keys
    && (forall m :: m in l.posted ==> l.posted[m] in f.messages)
    && (forall c :: c in l.senders ==> l.senders[c].run <= f.row.run)
  }

  ghost predicate CancelsOk(f: JobFile, l: Live) {
    forall c :: c in l.cancels ==>
      if l.cancels[c].marked then l.cancels[c].run in f.cancelsMarked else l.cancels[c].run in f.cancelsSeen
  }

  ghost predicate LiveOk(f: JobFile, l: Live) {
    && MessagesOk(f, l)
    && (forall c :: c in l.consumers ==> ConsumerOk(f, l, l.consumers[c]))
    && l.alive <= f.instances
    && CancelsOk(f, l)
  }

  /** What calls have read and done is never forgotten. */
  ghost predicate Grown(f: JobFile, f': JobFile) {
    && f.row.run <= f'.row.run && f.deliveries.Keys <= f'.deliveries.Keys
    && f.messages <= f'.messages && f.instances <= f'.instances
    && f.sawNoDelivery <= f'.sawNoDelivery && f.sawRetryDelivery <= f'.sawRetryDelivery
    && f.claims <= f'.claims && f.claimsPastRead <= f'.claimsPastRead && f.started <= f'.started
    && f.cancelsSeen <= f'.cancelsSeen && f.cancelsMarked <= f'.cancelsMarked
  }

  lemma StepGrows(f: JobFile, step: JobStep)
    requires JobInv(f)
    ensures Grown(f, Step(f, step))
  {
    StepKeepsIdentity(f, step);
    DeliveryCallsGrow(f, step);
    LaterCallsGrow(f, step);
  }

  lemma DeliveryCallsGrow(f: JobFile, step: JobStep)
    ensures var f' := Step(f, step);
      && f.deliveries.Keys <= f'.deliveries.Keys && f.messages <= f'.messages
      && f.sawNoDelivery <= f'.sawNoDelivery && f.sawRetryDelivery <= f'.sawRetryDelivery && f.claims <= f'.claims
  {
  }

  lemma LaterCallsGrow(f: JobFile, step: JobStep)
    ensures var f' := Step(f, step);
      && f.instances <= f'.instances && f.claimsPastRead <= f'.claimsPastRead && f.started <= f'.started
      && f.cancelsSeen <= f'.cancelsSeen && f.cancelsMarked <= f'.cancelsMarked
  {
  }

  lemma StaysOk(f: JobFile, f': JobFile, l: Live)
    requires LiveOk(f, l) && Grown(f, f') && f'.deliveries.Keys <= l.posted.Keys
    ensures LiveOk(f', l)
  {
    forall c | c in l.consumers ensures ConsumerOk(f', l, l.consumers[c]) { assert ConsumerOk(f, l, l.consumers[c]); }
  }

  /** A step that is no step of JobRuns, or one about messages that have been sent. */
  lemma FileStays(f: JobFile, l: Live, step: LifeStep)
    requires JobInv(f) && LiveOk(f, l)
    ensures Grown(f, FileStep(f, l, step)) && LiveOk(FileStep(f, l, step), l)
  {
    var js := JobStepOf(f, l, step);
    if js.Some? {
      StepGrows(f, js.value);
      DeliveriesPosted(f, l, step);
      StaysOk(f, Step(f, js.value), l);
    }
  }

  lemma DeliveriesPosted(f: JobFile, l: Live, step: LifeStep)
    requires MessagesOk(f, l) && JobStepOf(f, l, step).Some?
    ensures FileStep(f, l, step).deliveries.Keys <= l.posted.Keys
  {
    if !step.OnConsumer? { OtherDeliveries(f, l, step); }
  }

  lemma OtherDeliveries(f: JobFile, l: Live, step: LifeStep)
    requires !step.OnConsumer?
    ensures FileStep(f, l, step).deliveries == f.deliveries
  {
    if JobStepOf(f, l, step).Some? {
      NoDeliveryStep(f, l, step);
      DeliveriesUntouched(f, JobStepOf(f, l, step).value);
    }
  }

  predicate TouchesDeliveries(step: JobStep) {
    step.InsertDelivery? || step.ReclaimDelivery? || step.SettleDelivery?
  }

  lemma NoDeliveryStep(f: JobFile, l: Live, step: LifeStep)
    requires !step.OnConsumer? && JobStepOf(f, l, step).Some?
    ensures !TouchesDeliveries(JobStepOf(f, l, step).value)
  {
  }

  lemma DeliveriesUntouched(f: JobFile, step: JobStep)
    requires !TouchesDeliveries(step)
    ensures Step(f, step).deliveries == f.deliveries
  {
  }

  lemma SenderKeeps(f: JobFile, l: Live, step: SenderStep)
    requires JobInv(f) && LiveOk(f, l)
    ensures LiveOk(FileStep(f, l, OnSender(step)), SenderLive(f, l, step))
  {
    FileStays(f, l, OnSender(step));
    SenderMoves(f, FileStep(f, l, OnSender(step)), l, step);
  }

  lemma ConsumersStay(f: JobFile, l: Live, l': Live)
    requires forall c :: c in l.consumers ==> ConsumerOk(f, l, l.consumers[c])
    requires l'.consumers == l.consumers && forall m :: m in l.posted ==> m in l'.posted && l'.posted[m] == l.posted[m]
    ensures forall c :: c in l'.consumers ==> ConsumerOk(f, l', l'.consumers[c])
  {
    forall c | c in l.consumers ensures ConsumerOk(f, l', l.consumers[c]) { assert ConsumerOk(f, l, l.consumers[c]); }
  }

  lemma SenderMoves(f: JobFile, f': JobFile, l: Live, step: SenderStep)
    requires Grown(f, f') && LiveOk(f', l) && f' == FileStep(f, l, OnSender(step))
    requires forall c :: c in l.senders ==> l.senders[c].run <= f.row.run
    ensures LiveOk(f', SenderLive(f, l, step))
  {
    ConsumersStay(f', l, SenderLive(f, l, step));
    SenderMessages(f, f', l, step);
  }

  lemma SenderMessages(f: JobFile, f': JobFile, l: Live, step: SenderStep)
    requires f.row.run <= f'.row.run && MessagesOk(f', l) && f' == FileStep(f, l, OnSender(step))
    requires forall c :: c in l.senders ==> l.senders[c].run <= f.row.run
    ensures MessagesOk(f', SenderLive(f, l, step))
  {
  }

  lemma ConsumerKeeps(f: JobFile, l: Live, step: ConsumerStep)
    requires JobInv(f) && LiveOk(f, l)
    ensures LiveOk(FileStep(f, l, OnConsumer(step)), ConsumerLive(f, l, step))
  {
    FileStays(f, l, OnConsumer(step));
    if c :| c in l.consumers && ConsumerCall(step) == Some(c) { assert ConsumerOk(f, l, l.consumers[c]); }
    ConsumerMoves(f, FileStep(f, l, OnConsumer(step)), l, step);
  }

  function ConsumerCall(step: ConsumerStep): Option<CallId> {
    if step.LoseMessage? then None else Some(step.call)
  }

  lemma ConsumerMoves(f: JobFile, f': JobFile, l: Live, step: ConsumerStep)
    requires LiveOk(f', l) && f' == FileStep(f, l, OnConsumer(step)) && MessagesOk(f, l)
    requires forall c :: c in l.consumers ==> ConsumerOk(f, l, l.consumers[c])
    ensures LiveOk(f', ConsumerLive(f, l, step))
  {
    var l' := ConsumerLive(f, l, step);
    ConsumerFrame(f, l, step);
    forall c | c in l'.consumers ensures ConsumerOk(f', l', l'.consumers[c]) {
      if ConsumerCall(step) == Some(c) {
        if c in l.consumers { assert ConsumerOk(f, l, l.consumers[c]) && ConsumerOk(f', l, l.consumers[c]); }
        CallMoves(f, f', l, step, c);
      } else {
        assert ConsumerOk(f', l, l.consumers[c]);
      }
    }
    AliveMoves(f, f', l, step);
  }

  /** A consumer's step is about its own call. */
  lemma ConsumerFrame(f: JobFile, l: Live, step: ConsumerStep)
    ensures var l' := ConsumerLive(f, l, step);
      && l' == l.(consumers := l'.consumers, queue := l'.queue, alive := l'.alive) && l'.queue <= l.queue
      && forall c :: c in l'.consumers && ConsumerCall(step) != Some(c) ==>
        c in l.consumers && l'.consumers[c] == l.consumers[c]
  {
  }

  lemma CallMoves(f: JobFile, f': JobFile, l: Live, step: ConsumerStep, c: CallId)
    requires f' == FileStep(f, l, OnConsumer(step)) && ConsumerCall(step) == Some(c) && MessagesOk(f, l)
    requires c in l.consumers ==> ConsumerOk(f, l, l.consumers[c]) && ConsumerOk(f', l, l.consumers[c])
    ensures var l' := ConsumerLive(f, l, step); c in l'.consumers ==> ConsumerOk(f', l', l'.consumers[c])
  {
    match step
    case Deliver(_, m) => DeliverMoves(f, f', l, c, m);
    case _ =>
  }

  lemma DeliverMoves(f: JobFile, f': JobFile, l: Live, c: CallId, m: MessageId)
    requires f' == FileStep(f, l, OnConsumer(Deliver(c, m))) && MessagesOk(f, l)
    requires c in l.consumers ==> ConsumerOk(f', l, l.consumers[c])
    ensures var l' := ConsumerLive(f, l, Deliver(c, m)); c in l'.consumers ==> ConsumerOk(f', l', l'.consumers[c])
  {
    if CanDeliver(l, c, m) {
      assert f' == Step(f, SelectDelivery(m, l.posted[m])) && l.posted[m] in f.messages;
    }
  }

  lemma AliveMoves(f: JobFile, f': JobFile, l: Live, step: ConsumerStep)
    requires f' == FileStep(f, l, OnConsumer(step)) && l.alive <= f'.instances
    requires forall c :: c in l.consumers ==> ConsumerOk(f, l, l.consumers[c])
    ensures ConsumerLive(f, l, step).alive <= f'.instances
  {
    if c :| c in l.consumers && ConsumerCall(step) == Some(c) { assert ConsumerOk(f, l, l.consumers[c]); }
  }

  lemma WorkflowKeeps(f: JobFile, l: Live, step: WorkflowStep)
    requires JobInv(f) && LiveOk(f, l)
    ensures LiveOk(FileStep(f, l, OnWorkflow(step)), WorkflowLive(f, l, step))
  {
    FileStays(f, l, OnWorkflow(step));
    WorkflowMoves(f, FileStep(f, l, OnWorkflow(step)), l, step);
  }

  lemma WorkflowMoves(f: JobFile, f': JobFile, l: Live, step: WorkflowStep)
    requires LiveOk(f', l)
    ensures LiveOk(f', WorkflowLive(f, l, step))
  {
    forall c | c in l.consumers ensures ConsumerOk(f', WorkflowLive(f, l, step), l.consumers[c]) {
      assert ConsumerOk(f', l, l.consumers[c]);
    }
  }

  lemma OperatorKeeps(f: JobFile, l: Live, step: OperatorStep)
    requires JobInv(f) && LiveOk(f, l)
    ensures LiveOk(FileStep(f, l, OnOperator(step)), OperatorLive(f, l, step))
  {
    FileStays(f, l, OnOperator(step));
    OperatorMoves(f, FileStep(f, l, OnOperator(step)), l, step);
  }

  lemma OperatorMoves(f: JobFile, f': JobFile, l: Live, step: OperatorStep)
    requires LiveOk(f', l) && CancelsOk(f, l) && f' == FileStep(f, l, OnOperator(step))
    ensures LiveOk(f', OperatorLive(f, l, step))
  {
    forall c | c in l.consumers ensures ConsumerOk(f', OperatorLive(f, l, step), l.consumers[c]) {
      assert ConsumerOk(f', l, l.consumers[c]);
    }
  }

  lemma LifeKeeps(f: JobFile, l: Live, step: LifeStep)
    requires JobInv(f) && LiveOk(f, l)
    ensures JobInv(FileStep(f, l, step)) && LiveOk(FileStep(f, l, step), LiveStep(f, l, step))
  {
    if JobStepOf(f, l, step).Some? { StepKeeps(f, JobStepOf(f, l, step).value); }
    match step
    case OnSender(s) => SenderKeeps(f, l, s);
    case OnConsumer(s) => ConsumerKeeps(f, l, s);
    case OnWorkflow(s) => WorkflowKeeps(f, l, s);
    case OnOperator(s) => OperatorKeeps(f, l, s);
  }

  // ----- Jobs that nothing can end any more ------------------------------------------------------

  predicate Past(stage: SenderStage) {
    stage != Ready
  }

  /** A delivery of the message would be claimed. */
  predicate Claimable(f: JobFile, m: MessageId) {
    m !in f.deliveries || f.deliveries[m] == Retry
  }

  /** The consumer may still start its run, or hand its message back. */
  predicate MayStart(f: JobFile, l: Live, c: Consumer) {
    match c.stage
    case SawNone => c.message !in f.deliveries
    case SawRetry => true
    case Holds => true
    case HasRead => true
    case HasMarked => true
    case Started => false
    case Closing => false
    case Erring => c.message in l.queue
  }

  /** Nothing is under way that could create this run's workflow instance, and nothing will be. */
  ghost predicate Unstartable(f: JobFile, l: Live, k: nat) {
    && l.dispatch == Sent
    && (forall c :: c in l.senders ==> !Past(l.senders[c].stage))
    && (forall m :: m in l.queue && m in l.posted && l.posted[m] == k ==> !Claimable(f, m))
    && (forall c :: c in l.consumers && l.consumers[c].message in l.posted && l.posted[l.consumers[c].message] == k ==>
          !MayStart(f, l, l.consumers[c]))
  }

  /**
   A running job whose run is undecided, with no instance alive: it has ended without an outcome, or
   there never was one and never will be.  No cancel is under way that read the row when it was queued.
   */
  ghost predicate Abandoned(f: JobFile, l: Live) {
    && f.row.status == Running && f.row.run !in f.outcomes && f.row.run !in l.alive
    && (forall c :: c in l.cancels ==> l.cancels[c].run != f.row.run)
    && (f.row.run in f.instances || Unstartable(f, l, f.row.run))
  }

  /** Only these steps of JobRuns change the row of a running job whose run is undecided. */
  lemma RunningStays(f: JobFile, step: JobStep)
    requires JobInv(f) && f.row.status == Running && f.row.run !in f.outcomes
    requires step.InsertFailure? || step.InsertCancelled? ==> step.run != f.row.run
    ensures var f' := Step(f, step);
      f'.row.status == Running && f'.row.run == f.row.run && f'.row.run !in f'.outcomes
  {
  }

  lemma AbandonedRow(f: JobFile, l: Live, step: LifeStep)
    requires JobInv(f) && LiveOk(f, l) && Abandoned(f, l)
    ensures var f' := FileStep(f, l, step);
      f'.row.status == Running && f'.row.run == f.row.run && f'.row.run !in f'.outcomes
  {
    if JobStepOf(f, l, step).Some? { RunningStays(f, JobStepOf(f, l, step).value); }
  }

  /** No cancel of the run begins. */
  lemma NoCancelBegins(f: JobFile, l: Live, step: LifeStep)
    requires f.row.status == Running && forall c :: c in l.cancels ==> l.cancels[c].run != f.row.run
    ensures forall c :: c in LiveStep(f, l, step).cancels ==> LiveStep(f, l, step).cancels[c].run != f.row.run
  {
  }

  /** No instance of the run comes to life. */
  lemma NothingRevives(f: JobFile, l: Live, step: LifeStep, k: nat)
    requires k !in l.alive && (k in f.instances || Unstartable(f, l, k))
    ensures k !in LiveStep(f, l, step).alive
  {
    if step.OnConsumer? { NothingCreated(f, l, step.consumer, k); }
  }

  lemma NothingCreated(f: JobFile, l: Live, step: ConsumerStep, k: nat)
    requires k !in l.alive && (k in f.instances || Unstartable(f, l, k))
    ensures k !in ConsumerLive(f, l, step).alive
  {
    if step.Create? && ConsumerAt(l, step.call, HasMarked) && k !in f.instances {
      assert RunOf(l, step.call) == k ==> !MayStart(f, l, l.consumers[step.call]);
    }
  }

  /** A message of the run that is queued has its claim. */
  lemma StaysClaimed(f: JobFile, l: Live, step: ConsumerStep, k: nat, m: MessageId)
    requires LiveOk(f, l) && Unstartable(f, l, k) && m in ConsumerLive(f, l, step).queue && m in l.posted
      && l.posted[m] == k
    ensures !Claimable(FileStep(f, l, OnConsumer(step)), m)
  {
    assert m in l.queue && !Claimable(f, m);
  }

  lemma DeliveredClaimable(f: JobFile, l: Live, step: ConsumerStep, c: CallId)
    requires c !in l.consumers && c in ConsumerLive(f, l, step).consumers
    ensures var m := ConsumerLive(f, l, step).consumers[c].message; m in l.queue && Claimable(f, m)
  {
  }

  lemma StaysHopeless(f: JobFile, l: Live, step: ConsumerStep, k: nat, c: CallId)
    requires LiveOk(f, l) && Unstartable(f, l, k) && k !in f.instances && c in ConsumerLive(f, l, step).consumers
    requires var m := ConsumerLive(f, l, step).consumers[c].message; m in l.posted && l.posted[m] == k
    ensures !MayStart(FileStep(f, l, OnConsumer(step)), ConsumerLive(f, l, step), ConsumerLive(f, l, step).consumers[c])
  {
    var l' := ConsumerLive(f, l, step);
    ConsumerFrame(f, l, step);
    if c in l.consumers {
      assert l'.consumers[c].message == l.consumers[c].message && !MayStart(f, l, l.consumers[c]);
      assert ConsumerOk(f, l, l.consumers[c]);
    } else {
      DeliveredClaimable(f, l, step, c);
      assert false;
    }
    DeliveriesStay(f, l, step);
  }

  /** Delivery rows are never deleted. */
  lemma DeliveriesStay(f: JobFile, l: Live, step: ConsumerStep)
    ensures f.deliveries.Keys <= FileStep(f, l, OnConsumer(step)).deliveries.Keys
  {
  }

  lemma ConsumerStaysUnstartable(f: JobFile, l: Live, step: ConsumerStep, k: nat)
    requires LiveOk(f, l) && Unstartable(f, l, k) && k !in f.instances
    ensures Unstartable(FileStep(f, l, OnConsumer(step)), ConsumerLive(f, l, step), k)
  {
    var f', l' := FileStep(f, l, OnConsumer(step)), ConsumerLive(f, l, step);
    ConsumerFrame(f, l, step);
    forall m | m in l'.queue && m in l'.posted && l'.posted[m] == k
      ensures !Claimable(f', m)
    {
      StaysClaimed(f, l, step, k, m);
    }
    forall c | c in l'.consumers && l'.consumers[c].message in l'.posted && l'.posted[l'.consumers[c].message] == k
      ensures !MayStart(f', l', l'.consumers[c])
    {
      StaysHopeless(f, l, step, k, c);
    }
  }

  lemma SenderStaysUnstartable(f: JobFile, l: Live, step: SenderStep, k: nat)
    requires Unstartable(f, l, k)
    ensures Unstartable(FileStep(f, l, OnSender(step)), SenderLive(f, l, step), k)
  {
    OtherDeliveries(f, l, OnSender(step));
  }

  lemma WorkflowStaysUnstartable(f: JobFile, l: Live, step: WorkflowStep, k: nat)
    requires Unstartable(f, l, k)
    ensures Unstartable(FileStep(f, l, OnWorkflow(step)), WorkflowLive(f, l, step), k)
  {
    OtherDeliveries(f, l, OnWorkflow(step));
  }

  /** A retry commits only for a failed job, so the dispatch row of a running one stays sent. */
  lemma OperatorStaysUnstartable(f: JobFile, l: Live, step: OperatorStep, k: nat)
    requires JobInv(f) && f.row.status == Running && Unstartable(f, l, k)
    ensures Unstartable(FileStep(f, l, OnOperator(step)), OperatorLive(f, l, step), k)
  {
    OtherDeliveries(f, l, OnOperator(step));
  }

  lemma StaysUnstartable(f: JobFile, l: Live, step: LifeStep, k: nat)
    requires JobInv(f) && LiveOk(f, l) && f.row.status == Running && Unstartable(f, l, k) && k !in f.instances
    ensures Unstartable(FileStep(f, l, step), LiveStep(f, l, step), k)
  {
    match step
    case OnSender(s) => SenderStaysUnstartable(f, l, s, k);
    case OnConsumer(s) => ConsumerStaysUnstartable(f, l, s, k);
    case OnWorkflow(s) => WorkflowStaysUnstartable(f, l, s, k);
    case OnOperator(s) => OperatorStaysUnstartable(f, l, s, k);
  }

  lemma AbandonedStays(f: JobFile, l: Live, step: LifeStep)
    requires JobInv(f) && LiveOk(f, l) && Abandoned(f, l)
    ensures Abandoned(FileStep(f, l, step), LiveStep(f, l, step))
  {
    AbandonedRow(f, l, step);
    NoCancelBegins(f, l, step);
    NothingRevives(f, l, step, f.row.run);
    FileStays(f, l, step);
    if f.row.run !in f.instances { StaysUnstartable(f, l, step, f.row.run); }
  }

  lemma StrandedStays(f: JobFile, l: Live, step: LifeStep)
    requires JobInv(f) && Stranded(f)
    ensures Stranded(FileStep(f, l, step))
  {
    if JobStepOf(f, l, step).Some? { StrandedKept(f, JobStepOf(f, l, step).value); }
  }

  // ----- Jobs that can still end -----------------------------------------------------------------

  datatype Life = Life(file: JobFile, live: Live)

  function Next(x: Life, step: LifeStep): Life {
    Life(FileStep(x.file, x.live, step), LiveStep(x.file, x.live, step))
  }

  function After(x: Life, steps: seq<LifeStep>): Life
    decreases |steps|
  {
    if steps == [] then x else After(Next(x, steps[0]), steps[1..])
  }

  ghost predicate CanEnd(x: Life) {
    exists steps :: Terminal(After(x, steps).file.row.status)
  }

  lemma EndsFrom(x: Life, step: LifeStep)
    requires CanEnd(Next(x, step))
    ensures CanEnd(x)
  {
    var steps :| Terminal(After(Next(x, step), steps).file.row.status);
    var all := [step] + steps;
    assert all[0] == step && all[1..] == steps;
    assert Terminal(After(x, all).file.row.status);
  }

  lemma EndedCanEnd(x: Life)
    requires Terminal(x.file.row.status)
    ensures CanEnd(x)
  {
    assert After(x, []) == x;
  }

  /** A recorded outcome is written to the row. */
  lemma PendingCanEnd(x: Life)
    requires x.file.row.run in x.file.pending
    ensures CanEnd(x)
  {
    EndedCanEnd(Next(x, OnWorkflow(Apply(x.file.row.run))));
    EndsFrom(x, OnWorkflow(Apply(x.file.row.run)));
  }

  ghost predicate Undecided(x: Life) {
    x.file.row.status == Running && x.file.row.run !in x.file.outcomes
  }

  /** An instance that is alive passes its checks and fails. */
  lemma AliveCanEnd(x: Life)
    requires Undecided(x) && x.file.row.run in x.live.alive && x.live.alive <= x.file.instances
    ensures CanEnd(x)
  {
    var k := x.file.row.run;
    var passed := Next(x, OnWorkflow(Check(k)));
    PendingCanEnd(Next(passed, OnWorkflow(Fail(k, false))));
    EndsFrom(passed, OnWorkflow(Fail(k, false)));
    EndsFrom(x, OnWorkflow(Check(k)));
  }

  /** A queued job is cancelled. */
  lemma QueuedCanEnd(x: Life)
    requires x.file.row.status == Queued
    ensures CanEnd(x)
  {
    var c := UnusedId(x.live.cancels.Keys);
    var begun := Next(x, OnOperator(BeginCancel(c)));
    EndedCanEnd(Next(begun, OnOperator(MarkCancel(c))));
    EndsFrom(begun, OnOperator(MarkCancel(c)));
    EndsFrom(x, OnOperator(BeginCancel(c)));
  }

  lemma {:induction false} UnusedId(used: set<nat>) returns (id: nat)
    ensures forall x :: x in used ==> x < id
    decreases |used|
  {
    id := 0;
    if used != {} {
      var x :| x in used;
      var n := UnusedId(used - {x});
      id := if n <= x then x + 1 else n;
      assert forall y :: y in used ==> y == x || y in used - {x};
    }
  }

  /** A cancel that read the row queued records its outcome, though the row is running by now. */
  lemma CancelCanEnd(x: Life, c: CallId)
    requires Undecided(x) && CancelsOk(x.file, x.live) && c in x.live.cancels && x.live.cancels[c].run == x.file.row.run
    ensures CanEnd(x)
    decreases !x.live.cancels[c].marked
  {
    if x.live.cancels[c].marked {
      PendingCanEnd(Next(x, OnOperator(RecordCancel(c))));
      EndsFrom(x, OnOperator(RecordCancel(c)));
    } else {
      CancelCanEnd(Next(x, OnOperator(MarkCancel(c))), c);
      EndsFrom(x, OnOperator(MarkCancel(c)));
    }
  }

  ghost predicate ConsumerOf(x: Life, c: CallId, stage: ConsumerStage) {
    ConsumerAt(x.live, c, stage) && RunOf(x.live, c) == x.file.row.run
  }

  /** A consumer past the update of the job starts the workflow. */
  lemma MarkedCanEnd(x: Life, c: CallId)
    requires Undecided(x) && ConsumerOf(x, c, HasMarked) && x.file.row.run !in x.file.instances
      && x.live.alive <= x.file.instances
    requires x.file.row.run in x.file.started
    ensures CanEnd(x)
  {
    AliveCanEnd(Next(x, OnConsumer(Create(c, true, false))));
    EndsFrom(x, OnConsumer(Create(c, true, false)));
  }

  lemma ReadCanEnd(x: Life, c: CallId)
    requires Undecided(x) && ConsumerOf(x, c, HasRead) && x.file.row.run !in x.file.instances
      && x.live.alive <= x.file.instances
    requires x.file.row.run in x.file.claimsPastRead
    ensures CanEnd(x)
  {
    MarkedCanEnd(Next(x, OnConsumer(SetRunning(c))), c);
    EndsFrom(x, OnConsumer(SetRunning(c)));
  }

  lemma HoldingCanEnd(x: Life, c: CallId)
    requires Undecided(x) && ConsumerOf(x, c, Holds) && x.file.row.run !in x.file.instances
      && x.live.alive <= x.file.instances
    requires x.file.row.run in x.file.claims
    ensures CanEnd(x)
  {
    ReadCanEnd(Next(x, OnConsumer(ReadJob(c))), c);
    EndsFrom(x, OnConsumer(ReadJob(c)));
  }

  /** A consumer that read no delivery row, or one to be retried, claims it. */
  lemma SeenCanEnd(x: Life, c: CallId)
    requires Undecided(x) && x.file.row.run !in x.file.instances && x.live.alive <= x.file.instances
    requires ConsumerOf(x, c, SawNone) || ConsumerOf(x, c, SawRetry)
    requires ConsumerOk(x.file, x.live, x.live.consumers[c])
    requires ConsumerAt(x.live, c, SawNone) ==> x.live.consumers[c].message !in x.file.deliveries
    ensures CanEnd(x)
  {
    var step := OnConsumer(if ConsumerAt(x.live, c, SawNone) then ClaimNew(c) else ClaimAgain(c));
    HoldingCanEnd(Next(x, step), c);
    EndsFrom(x, step);
  }

  /** A message of the run is delivered, and claimed. */
  lemma MessageCanEnd(x: Life, m: MessageId)
    requires Undecided(x) && x.file.row.run !in x.file.instances && x.live.alive <= x.file.instances
    requires m in x.live.queue && m in x.live.posted && x.live.posted[m] == x.file.row.run && Claimable(x.file, m)
    requires x.live.posted[m] in x.file.messages
    ensures CanEnd(x)
  {
    var c := UnusedId(x.live.consumers.Keys);
    SeenCanEnd(Next(x, OnConsumer(Deliver(c, m))), c);
    EndsFrom(x, OnConsumer(Deliver(c, m)));
  }

  /** A consumer in its catch block hands its message back. */
  lemma ErringCanEnd(x: Life, c: CallId)
    requires Undecided(x) && x.file.row.run !in x.file.instances && x.live.alive <= x.file.instances
    requires ConsumerOf(x, c, Erring) && x.live.consumers[c].message in x.live.queue && MessagesOk(x.file, x.live)
    ensures CanEnd(x)
  {
    var m := x.live.consumers[c].message;
    if m in x.file.deliveries {
      MessageCanEnd(Next(x, OnConsumer(RecordRetry(c))), m);
      EndsFrom(x, OnConsumer(RecordRetry(c)));
    } else {
      MessageCanEnd(x, m);
    }
  }

  /** While the dispatch row is not sent, the message can be sent again. */
  lemma UnsentCanEnd(x: Life)
    requires Undecided(x) && x.file.row.run !in x.file.instances && x.live.alive <= x.file.instances
    requires x.live.dispatch != Sent && MessagesOk(x.file, x.live)
    ensures CanEnd(x)
  {
    var c := UnusedId(x.live.senders.Keys);
    var m := UnusedId(x.live.posted.Keys);
    var begun := Next(x, OnSender(BeginDispatch(c)));
    var holding := Next(begun, OnSender(ClaimDispatch(c)));
    MessageCanEnd(Next(holding, OnSender(Post(c, m, true))), m);
    EndsFrom(holding, OnSender(Post(c, m, true)));
    EndsFrom(begun, OnSender(ClaimDispatch(c)));
    EndsFrom(x, OnSender(BeginDispatch(c)));
  }

  /** A sender past its claim can fail, and then its catch block makes the dispatch row pending. */
  lemma SenderCanEnd(x: Life, c: CallId)
    requires Undecided(x) && x.file.row.run !in x.file.instances && x.live.alive <= x.file.instances
    requires c in x.live.senders && Past(x.live.senders[c].stage) && MessagesOk(x.file, x.live)
    ensures CanEnd(x)
  {
    var failing := x;
    if !SenderAt(x.live, c, Failing) {
      var step := OnSender(if SenderAt(x.live, c, Holding) then PostFails(c) else MarkSent(c, false, true));
      failing := Next(x, step);
      UnsentCanEnd(Next(failing, OnSender(MarkPending(c))));
      EndsFrom(failing, OnSender(MarkPending(c)));
      EndsFrom(x, step);
    } else {
      UnsentCanEnd(Next(x, OnSender(MarkPending(c))));
      EndsFrom(x, OnSender(MarkPending(c)));
    }
  }

  /** A run that is undecided and has no instance, while something could still create one. */
  lemma StartableCanEnd(x: Life)
    requires LiveOk(x.file, x.live) && Undecided(x) && x.file.row.run !in x.file.instances
    requires !Unstartable(x.file, x.live, x.file.row.run)
    ensures CanEnd(x)
  {
    var f, l, k := x.file, x.live, x.file.row.run;
    if l.dispatch != Sent {
      UnsentCanEnd(x);
    } else if c :| c in l.senders && Past(l.senders[c].stage) {
      SenderCanEnd(x, c);
    } else if m :| m in l.queue && m in l.posted && l.posted[m] == k && Claimable(f, m) {
      MessageCanEnd(x, m);
    } else {
      var c :| c in l.consumers && l.consumers[c].message in l.posted && l.posted[l.consumers[c].message] == k
               && MayStart(f, l, l.consumers[c]);
      ConsumerCanEnd(x, c);
    }
  }

  lemma ConsumerCanEnd(x: Life, c: CallId)
    requires LiveOk(x.file, x.live) && Undecided(x) && x.file.row.run !in x.file.instances
    requires c in x.live.consumers && x.live.consumers[c].message in x.live.posted && RunOf(x.live, c) == x.file.row.run
    requires MayStart(x.file, x.live, x.live.consumers[c])
    ensures CanEnd(x)
  {
    assert ConsumerOk(x.file, x.live, x.live.consumers[c]);
    match x.live.consumers[c].stage
    case SawNone => SeenCanEnd(x, c);
    case SawRetry => SeenCanEnd(x, c);
    case Holds => HoldingCanEnd(x, c);
    case HasRead => ReadCanEnd(x, c);
    case HasMarked => MarkedCanEnd(x, c);
    case Erring => ErringCanEnd(x, c);
  }

  lemma AbandonedNeverEnds(x: Life, steps: seq<LifeStep>)
    requires JobInv(x.file) && LiveOk(x.file, x.live) && (Abandoned(x.file, x.live) || Stranded(x.file))
    ensures !Terminal(After(x, steps).file.row.status)
    decreases |steps|
  {
    if steps != [] {
      LifeKeeps(x.file, x.live, steps[0]);
      if Abandoned(x.file, x.live) {
        AbandonedStays(x.file, x.live, steps[0]);
      } else {
        StrandedStays(x.file, x.live, steps[0]);
      }
      AbandonedNeverEnds(Next(x, steps[0]), steps[1..]);
    }
  }

  /** When a job can still end: unless a recorder has stopped halfway, or nobody is left to end it. */
  lemma EndsUnlessAbandoned(x: Life)
    requires JobInv(x.file) && LiveOk(x.file, x.live)
    ensures CanEnd(x) <==> !Stranded(x.file) && !Abandoned(x.file, x.live)
  {
    var k := x.file.row.run;
    if Stranded(x.file) || Abandoned(x.file, x.live) {
      forall steps ensures !Terminal(After(x, steps).file.row.status) { AbandonedNeverEnds(x, steps); }
    } else if Terminal(x.file.row.status) {
      EndedCanEnd(x);
    } else if x.file.row.status == Queued {
      QueuedCanEnd(x);
    } else if k in x.file.outcomes {
      PendingCanEnd(x);
    } else if k in x.live.alive {
      AliveCanEnd(x);
    } else if c :| c in x.live.cancels && x.live.cancels[c].run == k {
      CancelCanEnd(x, c);
    } else {
      StartableCanEnd(x);
    }
  }

  // ----- How a job comes to be abandoned ---------------------------------------------------------

  lemma {:induction false} AfterOne(x: Life, steps: seq<LifeStep>, step: LifeStep)
    ensures After(x, steps + [step]) == Next(After(x, steps), step)
    decreases |steps|
  {
    if steps == [] {
      assert After(Next(x, step), []) == Next(x, step);
    } else {
      assert (steps + [step])[1..] == steps[1..] + [step];
      AfterOne(Next(x, steps[0]), steps[1..], step);
    }
  }

  /** Some calls lead from a new job here. */
  ghost predicate Lived(id: Identity, x: Life) {
    exists steps :: x == After(Life(FreshJob(id), NewLive), steps)
  }

  lemma LivesOn(id: Identity, x: Life, step: LifeStep)
    requires Lived(id, x)
    ensures Lived(id, Next(x, step))
  {
    var steps :| x == After(Life(FreshJob(id), NewLive), steps);
    AfterOne(Life(FreshJob(id), NewLive), steps, step);
  }

  const SentLive: Live := Live(Sent, map[], map[0 := 0], {0}, map[], {}, map[])

  /** A new job's message is sent, and its dispatch row marked. */
  lemma FirstSend(id: Identity)
    ensures Lived(id, Life(FreshJob(id).(messages := {0}), SentLive))
  {
    var f := FreshJob(id);
    assert After(Life(f, NewLive), []) == Life(f, NewLive);
    LivesOn(id, Life(f, NewLive), OnSender(BeginDispatch(0)));
    var ready := Life(f, NewLive.(senders := map[0 := Sender(0, Ready)]));
    assert Next(Life(f, NewLive), OnSender(BeginDispatch(0))) == ready;
    LivesOn(id, ready, OnSender(ClaimDispatch(0)));
    var holding := Life(f, NewLive.(senders := map[0 := Sender(0, Holding)], dispatch := Sending));
    assert Next(ready, OnSender(ClaimDispatch(0))) == holding;
    LivesOn(id, holding, OnSender(Post(0, 0, true)));
    var posted := Life(f.(messages := {0}), SentLive.(dispatch := Sending, senders := map[0 := Sender(0, Posted)]));
    assert Next(holding, OnSender(Post(0, 0, true))) == posted;
    LivesOn(id, posted, OnSender(MarkSent(0, true, false)));
    assert Next(posted, OnSender(MarkSent(0, true, false))).live == SentLive;
  }

  function ClaimedFile(id: Identity): JobFile {
    FreshJob(id).(messages := {0}, sawNoDelivery := {(0, 0)}, deliveries := map[0 := Claimed], claims := {0})
  }

  function RunningFile(id: Identity): JobFile {
    ClaimedFile(id).(claimsPastRead := {0}, started := {0}, row := JobRow(id, Running, 0, false))
  }

  function ConsumingLive(stage: ConsumerStage): Live {
    SentLive.(consumers := map[0 := Consumer(0, stage)])
  }

  /** It is delivered and claimed, and the job marked running. */
  lemma FirstClaim(id: Identity)
    ensures Lived(id, Life(RunningFile(id), ConsumingLive(HasMarked)))
  {
    FirstSend(id);
    var sent := Life(FreshJob(id).(messages := {0}), SentLive);
    LivesOn(id, sent, OnConsumer(Deliver(0, 0)));
    var seen := Life(FreshJob(id).(messages := {0}, sawNoDelivery := {(0, 0)}), ConsumingLive(SawNone));
    assert Next(sent, OnConsumer(Deliver(0, 0))) == seen;
    LivesOn(id, seen, OnConsumer(ClaimNew(0)));
    assert Next(seen, OnConsumer(ClaimNew(0))) == Life(ClaimedFile(id), ConsumingLive(Holds));
    FirstRead(id);
  }

  lemma FirstRead(id: Identity)
    requires Lived(id, Life(ClaimedFile(id), ConsumingLive(Holds)))
    ensures Lived(id, Life(RunningFile(id), ConsumingLive(HasMarked)))
  {
    var holding := Life(ClaimedFile(id), ConsumingLive(Holds));
    LivesOn(id, holding, OnConsumer(ReadJob(0)));
    var read := Life(ClaimedFile(id).(claimsPastRead := {0}), ConsumingLive(HasRead));
    assert Next(holding, OnConsumer(ReadJob(0))) == read;
    LivesOn(id, read, OnConsumer(SetRunning(0)));
    assert Next(read, OnConsumer(SetRunning(0))) == Life(RunningFile(id), ConsumingLive(HasMarked));
  }

  /** The consumer stops between its update of the job and startWorkflow. */
  lemma LostClaim(id: Identity) returns (x: Life)
    ensures Lived(id, x) && Abandoned(x.file, x.live) && x.file.row.run !in x.file.instances
  {
    FirstClaim(id);
    var marked := Life(RunningFile(id), ConsumingLive(HasMarked));
    LivesOn(id, marked, OnConsumer(StopConsumer(0)));
    x := Next(marked, OnConsumer(StopConsumer(0)));
    assert x == Life(RunningFile(id), SentLive);
  }

  /** The instance ends without an outcome: the insert in its catch block throws. */
  lemma LostInstance(id: Identity) returns (x: Life)
    ensures Lived(id, x) && Abandoned(x.file, x.live) && x.file.row.run in x.file.instances
  {
    FirstClaim(id);
    var marked := Life(RunningFile(id), ConsumingLive(HasMarked));
    LivesOn(id, marked, OnConsumer(Create(0, true, false)));
    var created := Life(RunningFile(id).(instances := {0}), ConsumingLive(Started).(alive := {0}));
    assert Next(marked, OnConsumer(Create(0, true, false))) == created;
    LivesOn(id, created, OnWorkflow(StopInstance(0)));
    x := Next(created, OnWorkflow(StopInstance(0)));
  }
}
